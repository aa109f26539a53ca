/** The reviews page of the front end: the counters over the fetched reviews, the
    platform tabs, the star row of each review, and when the reply button is live. */
module ReviewsPage {
  import opened Wrappers
  import opened JsText
  import opened Lists

  /** The page's `Review` type; `date` is shown as the server sends it. */
  datatype ReviewView = ReviewView(
    id: string,
    platform: string,
    author: string,
    avatar: string,
    rating: int,
    content: string,
    date: string,
    aiResponse: Option<string>,
    userResponse: Option<string>)

  const Tabs: seq<string> := ["All", "Google", "Yelp", "Facebook"]

  predicate IsPositive(r: ReviewView) {
    r.rating >= 4
  }

  predicate IsNegative(r: ReviewView) {
    r.rating <= 2
  }

  /** The three counting cards: total, positive and negative. */
  datatype Counters = Counters(total: nat, positive: nat, negative: nat)

  function CountersOf(rs: seq<ReviewView>): (c: Counters)
    ensures c.total == |rs|
    ensures c.positive == |Filter(rs, IsPositive)| && c.negative == |Filter(rs, IsNegative)|
    ensures c.positive + c.negative <= c.total
  {
    FilterDisjointCounts(rs, IsPositive, IsNegative);
    Counters(|rs|, |Filter(rs, IsPositive)|, |Filter(rs, IsNegative)|)
  }

  /** One more review moves the total by one and exactly the counter its rating names. */
  lemma CountersOfAppend(rs: seq<ReviewView>, r: ReviewView)
    ensures var before := CountersOf(rs);
      var after := CountersOf(rs + [r]);
      && after.total == before.total + 1
      && after.positive == before.positive + (if r.rating >= 4 then 1 else 0)
      && after.negative == before.negative + (if r.rating <= 2 then 1 else 0)
  {
    FilterConcat(rs, [r], IsPositive);
    FilterConcat(rs, [r], IsNegative);
    assert [r][1..] == [];
  }

  /** No review counts as positive and as negative. */
  lemma CountsAreDisjoint(rs: seq<ReviewView>)
    ensures forall x :: x in Filter(rs, IsPositive) ==> x !in Filter(rs, IsNegative)
  {
  }

  /** The reviews under a tab: all of them under "All", those of that platform otherwise. */
  function OnTab(rs: seq<ReviewView>, tab: string): (r: seq<ReviewView>)
    ensures forall x :: x in r ==> tab == "All" || x.platform == tab
    ensures forall x :: x in rs && (tab == "All" || x.platform == tab) ==> x in r
  {
    Filter(rs, (x: ReviewView) => tab == "All" || x.platform == tab)
  }

  lemma AllTabShowsEverything(rs: seq<ReviewView>)
    ensures OnTab(rs, "All") == rs
  {
    FilterAll(rs, (x: ReviewView) => "All" == "All" || x.platform == "All");
  }

  /** A tab keeps the fetched order: it distributes over concatenation. */
  lemma OnTabKeepsOrder(a: seq<ReviewView>, b: seq<ReviewView>, tab: string)
    ensures OnTab(a + b, tab) == OnTab(a, tab) + OnTab(b, tab)
  {
    FilterConcat(a, b, (x: ReviewView) => tab == "All" || x.platform == tab);
  }

  /** `[...Array(5)].map((_, i) => i < rating)`: which of the five stars are lit. */
  function Stars(rating: int): (s: seq<bool>)
    ensures |s| == 5
    ensures forall i :: 0 <= i < 5 ==> (s[i] <==> i < rating)
  {
    seq(5, i requires 0 <= i < 5 => i < rating)
  }

  function CountLit(s: seq<bool>): nat {
    if s == [] then 0 else (if s[0] then 1 else 0) + CountLit(s[1..])
  }

  function Clamp(n: int, lo: int, hi: int): int {
    if n < lo then lo else if n > hi then hi else n
  }

  /** The lit stars are a prefix of the row, and there are as many as the rating says,
      cut to the range 0..5. */
  lemma StarsSpec(rating: int)
    ensures forall i, j :: 0 <= i < j < 5 && Stars(rating)[j] ==> Stars(rating)[i]
    ensures CountLit(Stars(rating)) == Clamp(rating, 0, 5)
  {
    var s := Stars(rating);
    assert CountLit(s[4..]) == (if s[4] then 1 else 0) by { assert s[4..][1..] == []; }
    assert CountLit(s[3..]) == (if s[3] then 1 else 0) + CountLit(s[4..]) by { assert s[3..][1..] == s[4..]; }
    assert CountLit(s[2..]) == (if s[2] then 1 else 0) + CountLit(s[3..]) by { assert s[2..][1..] == s[3..]; }
    assert CountLit(s[1..]) == (if s[1] then 1 else 0) + CountLit(s[2..]) by { assert s[1..][1..] == s[2..]; }
  }

  /** `isSubmittingReply || !userReply.trim()`. */
  predicate SubmitDisabled(isSubmitting: bool, reply: string) {
    isSubmitting || Trim(reply) == ""
  }

  /** The button is live exactly when no submit is running and the reply holds some
      character other than whitespace. */
  lemma SubmitEnabledIff(isSubmitting: bool, reply: string)
    ensures !SubmitDisabled(isSubmitting, reply) <==>
      !isSubmitting && exists i :: 0 <= i < |reply| && !IsJsWhitespace(reply[i])
  {
    TrimEmptyIff(reply);
  }
}
