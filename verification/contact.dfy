/**
 * The contact form (`ContactForm` in contact.js): three string validators
 * written as regular expressions in the source and stated here character by
 * character, the per-field verdict with the CSS classes it leaves on the
 * field, and the whole-form check.
 */
module Contact {
  import opened Seqs
  import opened Text

  predicate IsAsciiLetter(c: char)
  {
    'a' <= c <= 'z' || 'A' <= c <= 'Z'
  }

  /** `\d`: an ASCII digit. */
  predicate IsDigit(c: char)
  {
    '0' <= c <= '9'
  }

  // ----- name -----

  /**
   * `isValidName`: at least 2 characters, every one an ASCII letter or
   * whitespace. A valid name with no outer whitespace (as `validateField`
   * passes it, trimmed) starts and ends with a letter.
   */
  predicate IsValidName(name: string)
    ensures IsValidName(name) && Trim(name) == name ==>
      |name| >= 2 && IsAsciiLetter(name[0]) && IsAsciiLetter(name[|name| - 1])
  {
    |name| >= 2 && forall k :: 0 <= k < |name| ==> IsAsciiLetter(name[k]) || IsSpace(name[k])
  }

  /** Two letters and a space pass; a single letter, or a digit anywhere, fails. */
  lemma NameExamples()
    ensures IsValidName("Jo Li")
    ensures !IsValidName("J")
    ensures !IsValidName("R2D2")
  {
    var droid := "R2D2";
    assert !IsAsciiLetter(droid[1]) && !IsSpace(droid[1]);
  }

  // ----- email -----

  /** A string `[^\s@]+` matches: non-empty, no whitespace, no '@'. */
  predicate IsEmailPart(t: string)
  {
    |t| > 0 && forall k :: 0 <= k < |t| ==> !IsSpace(t[k]) && t[k] != '@'
  }

  /** `email` reads A@B.C with the '@' at `at` and the separating '.' at `dot`. */
  predicate EmailSplitAt(email: string, at: int, dot: int)
  {
    && 0 < at && at + 1 < dot < |email| - 1
    && email[at] == '@' && email[dot] == '.'
    && IsEmailPart(email[..at]) && IsEmailPart(email[at + 1..dot]) && IsEmailPart(email[dot + 1..])
  }

  /**
   * `isValidEmail`: the whole string matches `^[^\s@]+@[^\s@]+\.[^\s@]+$`;
   * the shortest such address ("a@b.c") has five characters.
   */
  predicate IsValidEmail(email: string)
    ensures IsValidEmail(email) ==> |email| >= 5 && '@' in email && '.' in email
  {
    exists at, dot | 0 <= at < |email| && 0 <= dot < |email| :: EmailSplitAt(email, at, dot)
  }

  /** The '@' at `at` is the only one in `email`, and a '.' sits at `dot`, strictly inside the part after it. */
  predicate SoleAtWithDot(email: string, at: int, dot: int)
  {
    && 0 < at && at + 1 < dot < |email| - 1
    && email[at] == '@' && email[dot] == '.'
    && forall k :: 0 <= k < |email| && k != at ==> email[k] != '@'
  }

  /**
   * An address is valid exactly when it has no whitespace, exactly one '@'
   * (not first), and a '.' after the '@' that is neither right after it nor last.
   */
  lemma EmailShape(email: string)
    ensures IsValidEmail(email) <==>
      (forall k :: 0 <= k < |email| ==> !IsSpace(email[k]))
      && exists at, dot | 0 <= at < |email| && 0 <= dot < |email| :: SoleAtWithDot(email, at, dot)
  {
    if IsValidEmail(email) {
      var at, dot :| 0 <= at < |email| && 0 <= dot < |email| && EmailSplitAt(email, at, dot);
      forall k | 0 <= k < |email| ensures !IsSpace(email[k]) && (k != at ==> email[k] != '@') {
        if k < at { assert email[..at][k] == email[k]; }
        else if at < k < dot { assert email[at + 1..dot][k - at - 1] == email[k]; }
        else if dot < k { assert email[dot + 1..][k - dot - 1] == email[k]; }
      }
      assert SoleAtWithDot(email, at, dot);
    }
    if (forall k :: 0 <= k < |email| ==> !IsSpace(email[k]))
       && exists at, dot | 0 <= at < |email| && 0 <= dot < |email| :: SoleAtWithDot(email, at, dot)
    {
      var at, dot :| 0 <= at < |email| && 0 <= dot < |email| && SoleAtWithDot(email, at, dot);
      assert IsEmailPart(email[..at]);
      assert IsEmailPart(email[at + 1..dot]);
      assert IsEmailPart(email[dot + 1..]);
      assert EmailSplitAt(email, at, dot);
    }
  }

  /** One address that passes, one without a '.', one with two '@'. */
  lemma EmailExamples()
    ensures IsValidEmail("ana@example.com")
    ensures !IsValidEmail("ana@example")
    ensures !IsValidEmail("ana@@example.com")
  {
    assert EmailSplitAt("ana@example.com", 3, 11);
    var noDot := "ana@example";
    assert forall k :: 0 <= k < |noDot| ==> noDot[k] != '.';
    var twoAts := "ana@@example.com";
    EmailShape(twoAts);
    assert twoAts[3] == '@' && twoAts[4] == '@';
  }

  // ----- phone -----

  /** The characters the cleanup removes: `[\s\-\(\)]`. */
  predicate IsPhoneSeparator(c: char)
  {
    IsSpace(c) || c == '-' || c == '(' || c == ')'
  }

  function KeepsPhoneChar(): char -> bool
  {
    (c: char) => !IsPhoneSeparator(c)
  }

  /** `phone.replace(/[\s\-\(\)]/g, '')`: no separator is left. */
  function StripSeparators(phone: string): (t: string)
    ensures |t| <= |phone|
    ensures forall k :: 0 <= k < |t| ==> !IsPhoneSeparator(t[k])
  {
    Filter(phone, KeepsPhoneChar())
  }

  /** The cleanup drops the separators only: every other character stays, as often as it occurs, in order. */
  lemma StripKeepsOthers(phone: string)
    ensures forall c :: multiset(StripSeparators(phone))[c] == if IsPhoneSeparator(c) then 0 else multiset(phone)[c]
    ensures IsSubsequence(StripSeparators(phone), phone)
  {
    FilterExactly(phone, KeepsPhoneChar());
  }

  /** `[1-9][\d]{0,15}`: a non-zero digit, then at most 15 more digits. */
  predicate IsPhoneDigits(u: string)
  {
    1 <= |u| <= 16 && '1' <= u[0] <= '9' && forall k :: 1 <= k < |u| ==> IsDigit(u[k])
  }

  /** `^[\+]?[1-9][\d]{0,15}$` on the cleaned string. */
  predicate MatchesPhonePattern(t: string)
  {
    IsPhoneDigits(t) || (|t| >= 1 && t[0] == '+' && IsPhoneDigits(t[1..]))
  }

  /** `isValidPhone`: the cleaned text matches; so a valid number holds a non-zero digit. */
  predicate IsValidPhone(phone: string)
    ensures IsValidPhone(phone) ==> exists k :: 0 <= k < |phone| && '1' <= phone[k] <= '9'
  {
    MatchesPhonePattern(StripSeparators(phone))
  }

  /**
   * A valid number, once cleaned, is an optional leading '+' followed by 1
   * to 16 digits, the first of them not 0; there is no other '+'.
   */
  lemma PhoneShape(phone: string)
    requires IsValidPhone(phone)
    ensures var t := StripSeparators(phone);
      && 1 <= |t| <= (if t[0] == '+' then 17 else 16)
      && (t[0] == '+' || '1' <= t[0] <= '9')
      && (t[0] == '+' ==> |t| >= 2 && '1' <= t[1] <= '9')
      && forall k :: 1 <= k < |t| ==> IsDigit(t[k])
  {
    var t := StripSeparators(phone);
    if !IsPhoneDigits(t) {
      forall k | 1 <= k < |t| ensures IsDigit(t[k]) {
        assert t[1..][k - 1] == t[k];
      }
    }
  }

  /** Validity does not depend on separators: the cleaned text is valid exactly when the original is. */
  lemma PhoneIgnoresSeparators(phone: string)
    ensures IsValidPhone(StripSeparators(phone)) == IsValidPhone(phone)
  {
    FilterIdempotent(phone, KeepsPhoneChar());
  }

  /** Text without separators is left as it is by the cleanup. */
  lemma StripPlain(s: string)
    requires forall k :: 0 <= k < |s| ==> !IsPhoneSeparator(s[k])
    ensures StripSeparators(s) == s
  {
    FilterAllKept(s, KeepsPhoneChar());
  }

  /** The cleanup works piece by piece. */
  lemma StripAppend(a: string, b: string)
    ensures StripSeparators(a + b) == StripSeparators(a) + StripSeparators(b)
  {
    FilterAppend(a, b, KeepsPhoneChar());
  }

  /** A separator between two plain pieces disappears and the pieces are joined. */
  lemma StripAround(a: string, sep: char, b: string)
    requires StripSeparators(a) == a && StripSeparators(b) == b && IsPhoneSeparator(sep)
    ensures StripSeparators(a + [sep] + b) == a + b
  {
    StripAppend(a + [sep], b);
    StripAppend(a, [sep]);
    assert StripSeparators([sep]) == [] by {
      assert !KeepsPhoneChar()([sep][0]);
    }
  }

  /** Cleaning "+1-55" drops the dash and keeps the rest. */
  lemma StripDashed()
    ensures StripSeparators("+1-55") == "+155"
  {
    StripPlain("+1");
    StripPlain("55");
    StripAround("+1", '-', "55");
    assert "+1" + ['-'] + "55" == "+1-55";
    assert "+1" + "55" == "+155";
  }

  /** A dash between digits is ignored. */
  lemma PhoneAcceptsDashed()
    ensures IsValidPhone("+1-55")
  {
    StripDashed();
    var t: string := "+155";
    assert IsPhoneDigits(t[1..]);
  }

  /** A leading 0 is refused. */
  lemma PhoneRefusesLeadingZero()
    ensures !IsValidPhone("0555")
  {
    StripPlain("0555");
  }

  /** A letter in the number is refused. */
  lemma PhoneRefusesLetter()
    ensures !IsValidPhone("555x")
  {
    var x := "555x";
    StripPlain(x);
    assert !IsDigit(x[3]);
  }

  // ----- field verdict -----

  /**
   * `validateField`'s verdict on a field whose trimmed value is `value`:
   * a required empty field is invalid; otherwise email and tel fields
   * defer to their validators, a text field to the name validator only
   * when its id is "name", and every other field is valid.
   */
  function FieldVerdict(kind: string, id: string, required: bool, value: string): (valid: bool)
    ensures required && value == [] ==> !valid
    ensures valid && kind == "email" ==> |value| >= 5 && '@' in value
    ensures valid && kind == "tel" ==> value != []
    ensures valid && kind == "text" && id == "name" ==> |value| >= 2
    ensures kind != "email" && kind != "tel" && kind != "text" ==> (valid <==> !(required && value == []))
  {
    if required && value == [] then false
    else if kind == "email" then IsValidEmail(value)
    else if kind == "tel" then IsValidPhone(value)
    else if kind == "text" then id != "name" || IsValidName(value)
    else true
  }

  /**
   * An optional field left empty is still checked by its type: an empty
   * email, tel, or "name" text field is invalid; any other empty field is valid.
   */
  lemma OptionalEmptyFieldVerdict(kind: string, id: string)
    ensures FieldVerdict(kind, id, false, []) ==
      (kind != "email" && kind != "tel" && !(kind == "text" && id == "name"))
  {
    assert !IsValidEmail([]);
    assert StripSeparators([]) == [];
  }

  // ----- the form -----

  /** The element a form control is. */
  datatype Tag = Input | TextArea | Select

  /**
   * A form control: its attributes, the text typed into it, and the two
   * class marks validation sets (`is-valid` and `is-invalid`).
   */
  class Field {
    const id: string
    /** The `type` attribute. */
    const kind: string
    const tag: Tag
    const required: bool
    var value: string
    var validMark: bool
    var invalidMark: bool

    constructor(id: string, kind: string, tag: Tag, required: bool, value: string)
      ensures this.id == id && this.kind == kind && this.tag == tag && this.required == required
      ensures this.value == value && !validMark && !invalidMark
    {
      this.id, this.kind, this.tag, this.required := id, kind, tag, required;
      this.value, validMark, invalidMark := value, false, false;
    }
  }

  /** The verdict `validateField` reaches on `f` as it stands. */
  ghost function Verdict(f: Field): bool
    reads f`value
  {
    FieldVerdict(f.kind, f.id, f.required, Trim(f.value))
  }

  /**
   * The marks `f` carries match the verdict `valid`: `is-invalid` exactly
   * when it fails, `is-valid` exactly when it passes and `filled` (the
   * trimmed value is not empty).
   */
  predicate Shows(f: Field, valid: bool, filled: bool)
    reads f`validMark, f`invalidMark
  {
    f.invalidMark == !valid && f.validMark == (valid && filled)
  }

  /** `input[required], textarea[required]`: the controls `validateForm` checks. */
  predicate Checked(f: Field)
  {
    f.required && (f.tag == Input || f.tag == TextArea)
  }

  /** `ContactForm`: the controls of the form, in document order. */
  class ContactForm {
    const fields: seq<Field>

    /** The controls are distinct elements. */
    ghost predicate Valid()
    {
      forall i, j :: 0 <= i < j < |fields| ==> fields[i] != fields[j]
    }

    constructor(fields: seq<Field>)
      requires forall i, j :: 0 <= i < j < |fields| ==> fields[i] != fields[j]
      ensures this.fields == fields && Valid()
    {
      this.fields := fields;
    }

    /** `validateField`: reach the verdict and leave the one matching mark. */
    static method ValidateField(field: Field) returns (valid: bool)
      modifies field`validMark, field`invalidMark
      ensures valid == Verdict(field)
      ensures Shows(field, valid, Trim(field.value) != [])
    {
      var value := Trim(field.value);
      valid := true;
      field.validMark, field.invalidMark := false, false;
      if field.required && value == [] {
        field.invalidMark := true;
        valid := false;
      } else if field.kind == "email" {
        if !IsValidEmail(value) {
          field.invalidMark := true;
          valid := false;
        }
      } else if field.kind == "tel" {
        if !IsValidPhone(value) {
          field.invalidMark := true;
          valid := false;
        }
      } else if field.kind == "text" {
        if field.id == "name" && !IsValidName(value) {
          field.invalidMark := true;
          valid := false;
        }
      }
      if valid && value != [] {
        field.validMark := true;
      }
    }

    /**
     * `validateForm`: validate every checked control, without stopping at
     * the first invalid one, and report whether all of them passed; the
     * other controls keep their marks.
     */
    method ValidateForm() returns (ok: bool)
      requires Valid()
      modifies fields`validMark, fields`invalidMark
      ensures ok == forall k :: 0 <= k < |fields| && Checked(fields[k]) ==> old(Verdict(fields[k]))
      ensures forall k :: 0 <= k < |fields| && Checked(fields[k]) ==>
        Shows(fields[k], old(Verdict(fields[k])), old(Trim(fields[k].value)) != [])
      ensures forall k :: 0 <= k < |fields| && !Checked(fields[k]) ==>
        fields[k].validMark == old(fields[k].validMark) && fields[k].invalidMark == old(fields[k].invalidMark)
    {
      ok := true;
      for n := 0 to |fields|
        invariant ok == forall k :: 0 <= k < n && Checked(fields[k]) ==> old(Verdict(fields[k]))
        invariant forall k :: 0 <= k < n && Checked(fields[k]) ==>
          Shows(fields[k], old(Verdict(fields[k])), old(Trim(fields[k].value)) != [])
        invariant forall k :: 0 <= k < |fields| && (n <= k || !Checked(fields[k])) ==>
          fields[k].validMark == old(fields[k].validMark) && fields[k].invalidMark == old(fields[k].invalidMark)
      {
        if Checked(fields[n]) {
          var field := fields[n];
          assert forall k :: 0 <= k < |fields| && k != n ==> fields[k] != field;
          var valid := ValidateField(field);
          assert field.value == old(field.value);
          if !valid {
            ok := false;
          }
        }
      }
    }
  }
}
