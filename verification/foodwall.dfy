/**
 * The community food wall (`FoodWall` in foodwall.js): a list of posts
 * loaded once, shown through a type filter or a free-text search, with the
 * small pieces each card is built from (time since posting, rating stars,
 * dish emoji) and the lookup behind a card click.
 */
module Feed {
  import opened Wrappers
  import opened Seqs
  import opened Text

  /**
   * One post. `kind` is the source's `type` field ("customer" or "chef");
   * a missing dish or rating is `None`; `timestamp` is milliseconds since
   * the epoch.
   */
  datatype Post = Post(
    id: int, user: string, avatar: string, kind: string, content: string, snippet: string,
    dish: Option<string>, rating: Option<int>, likes: int, comments: int, timestamp: int)

  /** The storage key the posts are kept under. */
  const PostsKey: string := "globalBitesPosts"

  /**
   * What `localStorage.getItem(PostsKey)` holds when the key is present,
   * once parsed: a post list, the empty string (which reads as false), or
   * text `JSON.parse` rejects.
   */
  datatype Saved = PostList(posts: seq<Post>) | EmptyText | Unparsable

  const HourMs: int := 60 * 60 * 1000
  const DayMs: int := 24 * HourMs

  /** The texts of the three sample posts. */
  const SarahContent: string := "Just tried the Butter Chicken for the first time and WOW! The flavors are incredible! So authentic and rich. Definitely ordering again!"
  const SarahSnippet: string := "The Butter Chicken was absolutely amazing! Rich, creamy, and perfectly spiced..."
  const MarcoContent: string := "Buongiorno! Today we're making fresh pasta dough with semolina flour. The key is letting it rest properly for that perfect al dente texture."
  const MarcoSnippet: string := "Fresh pasta making in progress! The secret is in the resting time..."
  const DavidContent: string := "The Jerk Chicken had the perfect amount of spice! So tender and flavorful. Felt like I was in Jamaica!"
  const DavidSnippet: string := "Jerk Chicken transported me straight to the Caribbean! Perfect spice blend..."

  /** The three posts the wall starts with when nothing is stored, as of `now`. */
  function SamplePosts(now: int): seq<Post>
  {
    [ Post(1, "Sarah M.", "👩", "customer", SarahContent, SarahSnippet,
           Some("Butter Chicken"), Some(5), 12, 3, now - 2 * HourMs),
      Post(2, "Marco Romano", "👨‍🍳", "chef", MarcoContent, MarcoSnippet,
           Some("Fresh Pasta"), None, 24, 5, now - 5 * HourMs),
      Post(3, "David L.", "👨", "customer", DavidContent, DavidSnippet,
           Some("Jerk Chicken"), Some(5), 8, 2, now - DayMs) ]
  }

  /**
   * `loadPosts`: a stored list is used as it is; an absent key or an empty
   * string falls back to the sample posts; unparsable text is an error
   * (`JSON.parse` throws and nothing catches it).
   */
  function LoadPosts(saved: Option<Saved>, now: int): (r: Option<seq<Post>>)
    ensures r.None? <==> saved == Some(Unparsable)
    ensures r.Some? && (saved.None? || saved == Some(EmptyText)) ==> r.value == SamplePosts(now)
    ensures r.Some? && saved.Some? && saved.value.PostList? ==> r.value == saved.value.posts
  {
    match saved
    case None => Some(SamplePosts(now))
    case Some(PostList(posts)) => Some(posts)
    case Some(EmptyText) => Some(SamplePosts(now))
    case Some(Unparsable) => None
  }

  /** With nothing stored, the wall holds the three sample posts, ids 1, 2 and 3, in that order. */
  lemma SampleWall(now: int)
    ensures LoadPosts(None, now) == Some(SamplePosts(now))
    ensures var s := SamplePosts(now); |s| == 3 && s[0].id == 1 && s[1].id == 2 && s[2].id == 3
    ensures FilteredPosts(SamplePosts(now), "chef") == [SamplePosts(now)[1]]
    ensures FilteredPosts(SamplePosts(now), "featured") == SamplePosts(now)
  {
    var s := SamplePosts(now);
    assert s == [s[0]] + [s[1]] + [s[2]];
    FilterAppend([s[0]] + [s[1]], [s[2]], OfKind("chef"));
    FilterAppend([s[0]], [s[1]], OfKind("chef"));
    FilterAllKept(s, Featured());
  }

  // ----- the type filter -----

  function OfKind(kind: string): Post -> bool
  {
    (p: Post) => p.kind == kind
  }

  /** The "featured" test: a five-star rating, or a chef's post. */
  predicate IsFeatured(p: Post)
  {
    p.rating == Some(5) || p.kind == "chef"
  }

  function Featured(): Post -> bool
  {
    (p: Post) => IsFeatured(p)
  }

  /**
   * `getFilteredPosts`: "customer" and "chef" keep the posts of that type,
   * "featured" keeps the featured posts, and any other filter keeps every
   * post; each kept post appears as often as in `posts`, in its original
   * order.
   */
  function FilteredPosts(posts: seq<Post>, filter: string): (r: seq<Post>)
    ensures IsSubsequence(r, posts)
    ensures filter == "customer" ==> forall p :: p in r <==> p in posts && p.kind == "customer"
    ensures filter == "chef" ==> forall p :: p in r <==> p in posts && p.kind == "chef"
    ensures filter == "featured" ==> forall p :: p in r <==> p in posts && IsFeatured(p)
    ensures filter == "customer" || filter == "chef" ==>
      forall p :: multiset(r)[p] == if p.kind == filter then multiset(posts)[p] else 0
    ensures filter == "featured" ==> forall p :: multiset(r)[p] == if IsFeatured(p) then multiset(posts)[p] else 0
    ensures filter != "customer" && filter != "chef" && filter != "featured" ==> r == posts
  {
    if filter == "customer" || filter == "chef" then
      FilterExactly(posts, OfKind(filter));
      Filter(posts, OfKind(filter))
    else if filter == "featured" then
      FilterExactly(posts, Featured());
      Filter(posts, Featured())
    else
      SubsequenceOfSelf(posts);
      posts
  }

  // ----- search -----

  /**
   * The query as the search uses it: lowercased, then trimmed. It holds no
   * ASCII capital and neither starts nor ends with whitespace.
   */
  function Query(raw: string): string
  {
    Trim(ToLower(raw))
  }

  /** A normalised query has no blank at either end and no capital letter. */
  lemma QueryNormalised(raw: string)
    ensures var q := Query(raw);
      && (q == [] || (!IsSpace(q[0]) && !IsSpace(q[|q| - 1])))
      && forall k :: 0 <= k < |q| ==> !('A' <= q[k] <= 'Z')
  {
    TrimKeepsProperty(ToLower(raw), (c: char) => !('A' <= c <= 'Z'));
  }

  /** Whether a post matches a (non-empty, normalised) query: its content, author or dish contains it, ignoring case. */
  predicate MatchesQuery(p: Post, q: string)
  {
    || Contains(ToLower(p.content), q)
    || Contains(ToLower(p.user), q)
    || (p.dish.Some? && p.dish.value != [] && Contains(ToLower(p.dish.value), q))
  }

  /** A post matches exactly when the query occurs at some position of its lower-cased content, author or dish. */
  lemma MatchesQueryIff(p: Post, q: string)
    ensures MatchesQuery(p, q) <==> (
      || (exists i :: OccursAt(ToLower(p.content), q, i))
      || (exists i :: OccursAt(ToLower(p.user), q, i))
      || (p.dish.Some? && p.dish.value != [] && exists i :: OccursAt(ToLower(p.dish.value), q, i)))
  {
    var content, user := ToLower(p.content), ToLower(p.user);
    ContainsIffOccurs(content, q);
    ContainsIffOccurs(user, q);
    if p.dish.Some? {
      ContainsIffOccurs(ToLower(p.dish.value), q);
    }
    if Contains(content, q) {
      var i :| OccursAt(content, q, i);
      assert OccursAt(ToLower(p.content), q, i);
    } else if Contains(user, q) {
      var i :| OccursAt(user, q, i);
      assert OccursAt(ToLower(p.user), q, i);
    } else if p.dish.Some? && p.dish.value != [] && Contains(ToLower(p.dish.value), q) {
      var i :| OccursAt(ToLower(p.dish.value), q, i);
      assert MatchesQuery(p, q);
      assert p.dish.Some? && p.dish.value != [] && exists i :: OccursAt(ToLower(p.dish.value), q, i);
    }
  }

  function Matching(q: string): Post -> bool
  {
    (p: Post) => MatchesQuery(p, q)
  }

  /**
   * `performSearch`: an empty query shows the filtered grid again; any
   * other query shows the matching posts, in order, whatever the filter.
   */
  function SearchResults(posts: seq<Post>, filter: string, raw: string): (r: seq<Post>)
    ensures IsSubsequence(r, posts)
    ensures Query(raw) == [] ==> r == FilteredPosts(posts, filter)
    ensures Query(raw) != [] ==> forall p :: p in r <==> p in posts && MatchesQuery(p, Query(raw))
    ensures Query(raw) != [] ==>
      forall p :: multiset(r)[p] == if MatchesQuery(p, Query(raw)) then multiset(posts)[p] else 0
  {
    var q := Query(raw);
    if q == [] then FilteredPosts(posts, filter)
    else
      FilterExactly(posts, Matching(q));
      Filter(posts, Matching(q))
  }

  /** A string with no upper-case ASCII letter is its own lower case. */
  lemma {:induction false} LowerOfLower(s: string)
    requires forall k :: 0 <= k < |s| ==> !('A' <= s[k] <= 'Z')
    ensures ToLower(s) == s
  {
    assert forall k :: 0 <= k < |s| ==> ToLower(s)[k] == s[k];
  }

  /** Normalising a query twice is normalising it once. */
  lemma QueryIdempotent(raw: string)
    ensures Query(Query(raw)) == Query(raw)
  {
    var lowered := ToLower(raw);
    var q := Trim(lowered);
    TrimKeepsProperty(lowered, (c: char) => !('A' <= c <= 'Z'));
    LowerOfLower(q);
    TrimOfTrimmed(q);
  }

  /** Searching for the normalised query finds what searching for the typed text finds. */
  lemma SearchNormalises(posts: seq<Post>, filter: string, raw: string)
    ensures SearchResults(posts, filter, Query(raw)) == SearchResults(posts, filter, raw)
  {
    QueryIdempotent(raw);
  }

  // ----- time since posting -----

  /** How long ago something happened, in the units `getTimeAgo` prints. */
  datatype Age = JustNow | MinutesAgo(n: nat) | HoursAgo(n: nat) | DaysAgo(n: nat)

  /** `Math.floor((now - postTime) / 1000)`: whole seconds elapsed, rounded down. */
  function SecondsBetween(nowMs: int, thenMs: int): (d: int)
    ensures d * 1000 <= nowMs - thenMs < (d + 1) * 1000
  {
    (nowMs - thenMs) / 1000
  }

  /**
   * `getTimeAgo`'s choice of unit for `d` seconds: under a minute is "just
   * now", then whole minutes under an hour, whole hours under a day, and
   * whole days after that, each rounded down.
   */
  function AgeOf(d: int): (a: Age)
    ensures a == JustNow <==> d < 60
    ensures a.MinutesAgo? <==> 60 <= d < 3600
    ensures a.HoursAgo? <==> 3600 <= d < 86400
    ensures a.DaysAgo? <==> 86400 <= d
    ensures a.MinutesAgo? ==> 1 <= a.n < 60 && a.n * 60 <= d < (a.n + 1) * 60
    ensures a.HoursAgo? ==> 1 <= a.n < 24 && a.n * 3600 <= d < (a.n + 1) * 3600
    ensures a.DaysAgo? ==> 1 <= a.n && a.n * 86400 <= d < (a.n + 1) * 86400
  {
    if d < 60 then JustNow
    else if d < 3600 then MinutesAgo(d / 60)
    else if d < 86400 then HoursAgo(d / 3600)
    else DaysAgo(d / 86400)
  }

  /** `shown` is the plain decimal numeral of `n` (no leading zero) followed by `unit`. */
  predicate Reads(shown: string, n: nat, unit: string)
  {
    && |shown| > |unit|
    && shown[|shown| - |unit|..] == unit
    && (forall k :: 0 <= k < |shown| - |unit| ==> '0' <= shown[k] <= '9')
    && (shown[0] == '0' ==> |shown| == |unit| + 1)
    && DigitsValue(shown[..|shown| - |unit|]) == n
  }

  /** The label printed for an age: "Just now", or the count followed by its unit. */
  function AgeLabel(a: Age): (r: string)
    ensures a == JustNow ==> r == "Just now"
    ensures a.MinutesAgo? ==> Reads(r, a.n, "m ago")
    ensures a.HoursAgo? ==> Reads(r, a.n, "h ago")
    ensures a.DaysAgo? ==> Reads(r, a.n, "d ago")
  {
    match a
    case JustNow => "Just now"
    case MinutesAgo(n) => ReadsNumeral(n, "m ago"); NatToString(n) + "m ago"
    case HoursAgo(n) => ReadsNumeral(n, "h ago"); NatToString(n) + "h ago"
    case DaysAgo(n) => ReadsNumeral(n, "d ago"); NatToString(n) + "d ago"
  }

  /** The numeral of `n` followed by a unit reads back as `n` in that unit. */
  lemma ReadsNumeral(n: nat, unit: string)
    ensures Reads(NatToString(n) + unit, n, unit)
  {
    var numeral := NatToString(n);
    assert (numeral + unit)[..|numeral|] == numeral;
    assert (numeral + unit)[|numeral|..] == unit;
  }

  /**
   * `getTimeAgo(timestamp)` read at time `nowMs`: for `d` whole seconds
   * elapsed, "Just now" under a minute, else the whole minutes, hours or
   * days elapsed, in the largest unit that is at least 1.
   */
  function TimeAgo(nowMs: int, timestampMs: int): (r: string)
    ensures var d := SecondsBetween(nowMs, timestampMs);
      && (d < 60 ==> r == "Just now")
      && (60 <= d < 3600 ==> Reads(r, d / 60, "m ago"))
      && (3600 <= d < 86400 ==> Reads(r, d / 3600, "h ago"))
      && (86400 <= d ==> Reads(r, d / 86400, "d ago"))
  {
    AgeLabel(AgeOf(SecondsBetween(nowMs, timestampMs)))
  }

  /** Read at load time, the sample posts are two hours, five hours and one day old. */
  lemma SampleAges(now: int)
    ensures AgeOf(SecondsBetween(now, SamplePosts(now)[0].timestamp)) == HoursAgo(2)
    ensures AgeOf(SecondsBetween(now, SamplePosts(now)[1].timestamp)) == HoursAgo(5)
    ensures AgeOf(SecondsBetween(now, SamplePosts(now)[2].timestamp)) == DaysAgo(1)
    ensures TimeAgo(now, SamplePosts(now)[0].timestamp) == "2h ago"
    ensures TimeAgo(now, SamplePosts(now)[2].timestamp) == "1d ago"
  {
    assert SecondsBetween(now, now - 2 * HourMs) == 7200;
    assert SecondsBetween(now, now - 5 * HourMs) == 18000;
    assert SecondsBetween(now, now - DayMs) == 86400;
    assert NatToString(2) == "2" && NatToString(1) == "1";
  }

  // ----- rating stars -----

  function Repeat(c: char, n: nat): (r: string)
    ensures |r| == n && forall k :: 0 <= k < n ==> r[k] == c
  {
    if n == 0 then [] else [c] + Repeat(c, n - 1)
  }

  const FullStar: char := '⭐'
  const EmptyStar: char := '☆'

  /**
   * `createRatingStars(r)`: `r` full stars then `5 - r` empty ones; `None`
   * when either count is negative, where `repeat` throws a RangeError.
   */
  function RatingStars(r: int): (s: Option<string>)
    ensures s.Some? <==> 0 <= r <= 5
    ensures s.Some? ==> |s.value| == 5
    ensures s.Some? ==> forall k :: 0 <= k < |s.value| ==> s.value[k] == (if k < r then FullStar else EmptyStar)
  {
    if r < 0 || r > 5 then None else Some(Repeat(FullStar, r) + Repeat(EmptyStar, 5 - r))
  }

  /**
   * The stars a card shows (the source tests the rating for truth before
   * drawing stars): nothing for a missing or zero rating, five symbols for
   * a rating from 1 to 5, and a RangeError (`None`) outside 0 to 5.
   */
  function CardStars(rating: Option<int>): (s: Option<string>)
    ensures s == Some([]) <==> rating.None? || rating == Some(0)
    ensures s.None? <==> rating.Some? && (rating.value < 0 || rating.value > 5)
    ensures s.Some? && s.value != [] ==> |s.value| == 5 && s.value[0] == FullStar
    ensures rating.Some? && rating.value != 0 ==> s == RatingStars(rating.value)
  {
    match rating
    case None => Some([])
    case Some(r) => if r == 0 then Some([]) else RatingStars(r)
  }

  // ----- dish emoji -----

  /** `getDishEmoji`'s table, in the order its keys are listed. */
  const DishEmojis: seq<(string, string)> := [
    ("Pizza", "🍕"), ("Chicken", "🍗"), ("Tacos", "🌮"),
    ("Sushi", "🍣"), ("Pasta", "🍝"), ("Curry", "🍛")]

  const DefaultEmoji: string := "🍽️"

  /** `getDishEmoji`: the emoji of the first key, in table order, that occurs in the dish name. */
  function DishEmoji(dish: string): (r: string)
    ensures (forall k :: 0 <= k < |DishEmojis| ==> !Contains(dish, DishEmojis[k].0)) ==> r == DefaultEmoji
    ensures forall k :: 0 <= k < |DishEmojis| && Contains(dish, DishEmojis[k].0)
                        && (forall j :: 0 <= j < k ==> !Contains(dish, DishEmojis[j].0))
                        ==> r == DishEmojis[k].1
  {
    LookupBySubstring(DishEmojis, dish, DefaultEmoji)
  }

  /** "Chicken" is listed before "Pasta": a chicken pasta without "Pizza" in its name gets the drumstick. */
  lemma ChickenBeatsPasta(dish: string)
    requires Contains(dish, "Chicken") && Contains(dish, "Pasta") && !Contains(dish, "Pizza")
    ensures DishEmoji(dish) == "🍗"
  {
    assert DishEmojis[0].0 == "Pizza" && DishEmojis[1].0 == "Chicken";
  }

  /**
   * The emoji on a card as the source computes it: `getDishEmoji(post.dish)`
   * with no check that the post has a dish, so a post without one makes
   * `dish.includes` throw a TypeError.
   */
  function CardEmojiAsWritten(dish: Option<string>): (r: Result<string, string>)
    ensures dish.None? ==> r.Failure?
    ensures dish.Some? ==> r == Success(DishEmoji(dish.value))
  {
    match dish
    case None => Failure("TypeError")
    case Some(d) => Success(DishEmoji(d))
  }

  /** A post without a dish cannot be drawn as written. */
  lemma MissingDishBreaksCard(p: Post)
    requires p.dish.None?
    ensures CardEmojiAsWritten(p.dish).Failure?
  {
  }

  /** The card emoji with the missing dish treated like an unknown one: every post gets an emoji. */
  function CardEmoji(dish: Option<string>): (r: string)
    ensures r == DefaultEmoji || exists k :: 0 <= k < |DishEmojis| && r == DishEmojis[k].1
    ensures dish.None? ==> r == DefaultEmoji
    ensures dish.Some? ==> CardEmojiAsWritten(dish) == Success(r)
  {
    match dish
    case None => DefaultEmoji
    case Some(d) =>
      match FirstKeyIn(DishEmojis, d)
      case Some(i) => DishEmojis[i].1
      case None => DefaultEmoji
  }

  // ----- card click -----

  function HasPostId(id: int): Post -> bool
  {
    (p: Post) => p.id == id
  }

  /** `showPostDetail`'s lookup: the first post with the given id, if any. */
  function PostDetail(posts: seq<Post>, id: int): (r: Option<Post>)
    ensures r.Some? ==> r.value in posts && r.value.id == id
    ensures r.Some? ==> exists i :: 0 <= i < |posts| && posts[i] == r.value && forall k :: 0 <= k < i ==> posts[k].id != id
    ensures r.None? <==> forall p :: p in posts ==> p.id != id
  {
    match FirstIndex(posts, HasPostId(id))
    case Some(i) => Some(posts[i])
    case None => None
  }

  // ----- the wall -----

  /** `FoodWall`: the posts, the active filter, and the posts the grid shows. */
  class FoodWall {
    var posts: seq<Post>
    var currentFilter: string
    var grid: seq<Post>

    /** Load the posts, select "all" and draw the grid. */
    constructor(saved: Option<Saved>, now: int)
      requires saved != Some(Unparsable)
      ensures LoadPosts(saved, now) == Some(posts)
      ensures currentFilter == "all" && grid == posts
    {
      posts := LoadPosts(saved, now).value;
      currentFilter := "all";
      new;
      grid := FilteredPosts(posts, currentFilter);
    }

    /** A filter button click: remember the filter and redraw the grid through it. */
    method SelectFilter(filter: string)
      modifies this`currentFilter, this`grid
      ensures currentFilter == filter && grid == FilteredPosts(posts, filter)
    {
      currentFilter := filter;
      grid := FilteredPosts(posts, currentFilter);
    }

    /** `performSearch` on the text typed into the search box. */
    method PerformSearch(raw: string)
      modifies this`grid
      ensures grid == SearchResults(posts, currentFilter, raw)
      ensures IsSubsequence(grid, posts)
    {
      var query := Query(raw);
      if query != [] {
        grid := Filter(posts, Matching(query));
      } else {
        grid := FilteredPosts(posts, currentFilter);
      }
    }

  }
}
