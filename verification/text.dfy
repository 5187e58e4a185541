/**
 * String primitives of JavaScript that the pages rely on: the `\s` class of
 * regular expressions (which is also what `String.prototype.trim` strips),
 * `trim`, `toLowerCase` restricted to ASCII, `includes`, and the
 * first-matching-key lookup both emoji tables use.
 */
module Text {
  import opened Wrappers
  import opened Seqs

  /**
   * JavaScript whitespace: the characters matched by `\s` and removed by
   * `trim` (WhiteSpace and LineTerminator of ECMAScript).
   */
  predicate IsSpace(c: char)
  {
    c == '\t' || c == '\n' || c == '\U{B}' || c == '\U{C}' || c == '\r' || c == ' '
    || c == '\U{A0}' || c == '\U{1680}' || ('\U{2000}' <= c <= '\U{200A}')
    || c == '\U{2028}' || c == '\U{2029}' || c == '\U{202F}' || c == '\U{205F}'
    || c == '\U{3000}' || c == '\U{FEFF}'
  }

  /** Every character of `s` at an index from `lo` up to (not including) `hi` is whitespace. */
  predicate SpaceBetween(s: string, lo: int, hi: int)
  {
    forall k :: lo <= k < hi && 0 <= k < |s| ==> IsSpace(s[k])
  }

  predicate AllSpace(s: string)
  {
    SpaceBetween(s, 0, |s|)
  }

  /** The index of the first non-whitespace character at or after `i`, or `|s|` if there is none. */
  function SkipForward(s: string, i: nat): (j: nat)
    requires i <= |s|
    ensures i <= j <= |s| && SpaceBetween(s, i, j)
    ensures j == |s| || !IsSpace(s[j])
    decreases |s| - i
  {
    if i < |s| && IsSpace(s[i]) then SkipForward(s, i + 1) else i
  }

  /** The index just past the last non-whitespace character before `j`, going no lower than `lo`. */
  function SkipBackward(s: string, lo: nat, j: nat): (i: nat)
    requires lo <= j <= |s|
    ensures lo <= i <= j && SpaceBetween(s, i, j)
    ensures i == lo || !IsSpace(s[i - 1])
  {
    if j > lo && IsSpace(s[j - 1]) then SkipBackward(s, lo, j - 1) else j
  }

  /** Where `Trim(s)` starts in `s`. */
  function TrimFrom(s: string): nat
    ensures TrimFrom(s) <= |s|
  {
    SkipForward(s, 0)
  }

  /** Where `Trim(s)` ends in `s`. */
  function TrimTo(s: string): nat
    ensures TrimFrom(s) <= TrimTo(s) <= |s|
  {
    SkipBackward(s, TrimFrom(s), |s|)
  }

  /**
   * `s.trim()`: the middle part of `s` that neither starts nor ends with
   * whitespace.
   */
  function Trim(s: string): (r: string)
    ensures |r| <= |s|
    ensures r == [] || (!IsSpace(r[0]) && !IsSpace(r[|r| - 1]))
  {
    s[TrimFrom(s)..TrimTo(s)]
  }

  /** Trimming removes only whitespace, and only at the two ends. */
  lemma TrimStripsOnlySpace(s: string)
    ensures exists i :: 0 <= i <= |s| - |Trim(s)| && Trim(s) == s[i..i + |Trim(s)|]
                        && SpaceBetween(s, 0, i) && SpaceBetween(s, i + |Trim(s)|, |s|)
  {
    var i := TrimFrom(s);
    assert Trim(s) == s[i..i + |Trim(s)|];
  }

  /** A string is empty after trimming exactly when it is all whitespace. */
  lemma TrimEmptyIffAllSpace(s: string)
    ensures Trim(s) == [] <==> AllSpace(s)
  {
    var lo := TrimFrom(s);
    if lo < |s| {
      assert !IsSpace(s[lo]);
    }
  }

  /** A string that neither starts nor ends with whitespace is its own trim. */
  lemma TrimOfTrimmed(s: string)
    requires s == [] || (!IsSpace(s[0]) && !IsSpace(s[|s| - 1]))
    ensures Trim(s) == s
  {
    if s != [] {
      assert TrimFrom(s) == 0;
      assert s[0..|s|] == s;
    }
  }

  /** Every character of the trimmed string comes from `s`, so what holds of all of them holds after trimming. */
  lemma TrimKeepsProperty(s: string, P: char -> bool)
    requires forall k :: 0 <= k < |s| ==> P(s[k])
    ensures forall k :: 0 <= k < |Trim(s)| ==> P(Trim(s)[k])
  {
    var lo := TrimFrom(s);
    assert forall k :: 0 <= k < |Trim(s)| ==> Trim(s)[k] == s[lo + k];
  }

  /** The ASCII part of `toLowerCase`: 'A'..'Z' become 'a'..'z'. */
  function LowerChar(c: char): (d: char)
    ensures 'A' <= c <= 'Z' ==> 'a' <= d <= 'z'
    ensures !('A' <= c <= 'Z') ==> d == c
  {
    if 'A' <= c <= 'Z' then (c as int - 'A' as int + 'a' as int) as char else c
  }

  function ToLower(s: string): (r: string)
    ensures |r| == |s|
    ensures forall k :: 0 <= k < |s| ==> r[k] == LowerChar(s[k])
  {
    if s == [] then [] else [LowerChar(s[0])] + ToLower(s[1..])
  }

  predicate IsPrefix(p: string, s: string)
  {
    |p| <= |s| && s[..|p|] == p
  }

  /**
   * `s.includes(sub)`: `sub` occurs in `s` at some position. The empty
   * string occurs in every string, and nothing longer than `s` occurs in it.
   */
  predicate Contains(s: string, sub: string)
    ensures sub == [] ==> Contains(s, sub)
    ensures Contains(s, sub) ==> |sub| <= |s|
    decreases |s|
  {
    IsPrefix(sub, s) || (s != [] && Contains(s[1..], sub))
  }

  /** `sub` occurs in `s` starting at index `i`. */
  predicate OccursAt(s: string, sub: string, i: int)
  {
    0 <= i <= |s| - |sub| && s[i..i + |sub|] == sub
  }

  /** `Contains` holds exactly when `sub` is a slice of `s`. */
  lemma {:induction false} ContainsIffOccurs(s: string, sub: string)
    ensures Contains(s, sub) <==> exists i :: OccursAt(s, sub, i)
  {
    if IsPrefix(sub, s) {
      assert OccursAt(s, sub, 0);
    } else if s == [] {
    } else {
      ContainsIffOccurs(s[1..], sub);
      if exists i :: OccursAt(s, sub, i) {
        var i :| OccursAt(s, sub, i);
        assert i != 0;
        assert OccursAt(s[1..], sub, i - 1) by {
          assert s[1..][i - 1..i - 1 + |sub|] == s[i..i + |sub|];
        }
      }
      if exists i :: OccursAt(s[1..], sub, i) {
        var i :| OccursAt(s[1..], sub, i);
        assert OccursAt(s, sub, i + 1) by {
          assert s[1..][i..i + |sub|] == s[i + 1..i + 1 + |sub|];
        }
      }
    }
  }

  /**
   * The first entry of an ordered `[key, value]` table whose key occurs in
   * `text`, if any (a `for ... of Object.entries(map)` loop with an early
   * return on `text.includes(key)`).
   */
  function FirstKeyIn(table: seq<(string, string)>, text: string): (r: Option<nat>)
    ensures r.Some? ==> r.value < |table| && Contains(text, table[r.value].0)
    ensures r.Some? ==> forall k :: 0 <= k < r.value ==> !Contains(text, table[k].0)
    ensures r.None? ==> forall k :: 0 <= k < |table| ==> !Contains(text, table[k].0)
  {
    FirstIndex(table, (e: (string, string)) => Contains(text, e.0))
  }

  /** The value of the first table entry whose key occurs in `text`, else `default`. */
  function LookupBySubstring(table: seq<(string, string)>, text: string, default: string): (r: string)
    ensures (forall k :: 0 <= k < |table| ==> !Contains(text, table[k].0)) ==> r == default
    ensures forall k :: 0 <= k < |table| && Contains(text, table[k].0)
                        && (forall j :: 0 <= j < k ==> !Contains(text, table[j].0))
                        ==> r == table[k].1
  {
    match FirstKeyIn(table, text)
    case Some(i) => table[i].1
    case None => default
  }

  function DigitChar(d: nat): (c: char)
    requires d < 10
    ensures '0' <= c <= '9' && c as int - '0' as int == d
  {
    "0123456789"[d]
  }

  /** The number a string of decimal digits denotes, most significant digit first. */
  function DigitsValue(s: string): nat
    requires forall k :: 0 <= k < |s| ==> '0' <= s[k] <= '9'
  {
    if s == [] then 0 else DigitsValue(s[..|s| - 1]) * 10 + (s[|s| - 1] as int - '0' as int)
  }

  /** Appending a digit multiplies the value by ten and adds the digit. */
  lemma DigitsValueAppend(s: string, c: char)
    requires forall k :: 0 <= k < |s| ==> '0' <= s[k] <= '9'
    requires '0' <= c <= '9'
    ensures forall k :: 0 <= k < |s + [c]| ==> '0' <= (s + [c])[k] <= '9'
    ensures DigitsValue(s + [c]) == DigitsValue(s) * 10 + (c as int - '0' as int)
  {
    assert (s + [c])[..|s|] == s;
  }

  /** The decimal numeral of `n`, as template literals print a non-negative integer. */
  function NatToString(n: nat): (r: string)
    ensures |r| >= 1
    ensures forall k :: 0 <= k < |r| ==> '0' <= r[k] <= '9'
    ensures n > 0 ==> r[0] != '0'
    ensures DigitsValue(r) == n
  {
    if n < 10 then [DigitChar(n)]
    else
      var front := NatToString(n / 10);
      DigitsValueAppend(front, DigitChar(n % 10));
      front + [DigitChar(n % 10)]
  }
}
