/** `getAllReviews`: the stored reviews of one platform, or of all, newest first. */
module ReviewController {
  import opened Wrappers
  import opened JsText
  import opened Lists
  import opened ReviewModel

  /** `platform && platform !== 'All'`: only a non-empty name other than "All" filters. */
  predicate Filters(platform: Option<string>) {
    Truthy(platform) && platform.value != "All"
  }

  /** The query object: `{ platform }` when the name filters, `{}` (None) otherwise. */
  function Query(platform: Option<string>): (q: Option<string>)
    ensures q.Some? <==> Filters(platform)
    ensures q.Some? ==> q == platform
  {
    if Filters(platform) then platform else None
  }

  /** Whether a stored review satisfies the query. */
  function Matches(query: Option<string>): Review -> bool {
    (r: Review) => query.None? || r.platform == query.value
  }

  function ByDate(r: Review): int {
    r.date
  }

  datatype ListReply =
    | Listed(reviews: seq<Review>)
    | ServerError(message: string)
  {
    function Status(): int {
      if Listed? then 200 else 500
    }
  }

  /** `Review.find(query).sort({ date: -1 })` over the stored reviews; `stored` is None
      when the database read fails. */
  function GetAllReviews(platform: Option<string>, stored: Option<seq<Review>>): (r: ListReply)
    ensures stored.None? <==> r == ServerError("Error fetching reviews")
    ensures r.Listed? ==> SortedDesc(r.reviews, ByDate)
    ensures r.Listed? ==> multiset(r.reviews) == multiset(Filter(stored.value, Matches(Query(platform))))
  {
    match stored
    case None => ServerError("Error fetching reviews")
    case Some(rs) => Listed(SortDesc(Filter(rs, Matches(Query(platform))), ByDate))
  }

  /** Without a filter the answer holds every stored review, each as often as stored. */
  lemma UnfilteredListsAll(platform: Option<string>, rs: seq<Review>)
    requires !Filters(platform)
    ensures GetAllReviews(platform, Some(rs)).Listed?
    ensures multiset(GetAllReviews(platform, Some(rs)).reviews) == multiset(rs)
  {
    FilterAll(rs, Matches(Query(platform)));
  }

  /** The answers for an absent, an empty and an "All" platform are the same list. */
  lemma AllMeansNoFilter(rs: seq<Review>)
    ensures GetAllReviews(None, Some(rs)) == GetAllReviews(Some(""), Some(rs))
    ensures GetAllReviews(None, Some(rs)) == GetAllReviews(Some("All"), Some(rs))
  {
  }

  /** With a filter the answer holds exactly the stored reviews of that platform, each
      as often as stored, and nothing of another platform. */
  lemma FilteredListsExactly(platform: Option<string>, rs: seq<Review>)
    requires Filters(platform)
    ensures GetAllReviews(platform, Some(rs)).Listed?
    ensures var out := GetAllReviews(platform, Some(rs)).reviews;
      && (forall x :: x in out ==> x.platform == platform.value)
      && (forall x :: x in rs && x.platform == platform.value ==> multiset(out)[x] == multiset(rs)[x])
  {
    var p := Matches(Query(platform));
    var kept := Filter(rs, p);
    var out := GetAllReviews(platform, Some(rs)).reviews;
    assert multiset(out) == multiset(kept);
    FilterCounts(rs, p);
    forall x | x in out
      ensures x.platform == platform.value
    {
      assert x in multiset(out);
      assert x in multiset(kept);
      assert x in kept;
      assert p(x);
    }
  }

  /** A filter keeps every occurrence of each element it accepts. */
  lemma {:induction false} FilterCounts<T>(s: seq<T>, p: T -> bool)
    ensures forall x :: p(x) ==> multiset(Filter(s, p))[x] == multiset(s)[x]
  {
    if s != [] {
      FilterCounts(s[1..], p);
      assert s == [s[0]] + s[1..];
      FilterConcat([s[0]], s[1..], p);
    }
  }
}
