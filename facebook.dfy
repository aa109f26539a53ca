/** The social adapter (`FacebookService`). It keeps `accessToken` and `pageId`, and
    keys reviews on `recommendation_type` ("positive" or "negative"), so every review
    with the same recommendation updates one and the same document. */
module Facebook {
  import opened Wrappers
  import opened Errors
  import opened JsText
  import opened ReviewModel
  import opened ReviewStore
  import opened Upstream
  import opened IntegrationModel

  datatype FacebookService = FacebookService(accessToken: Option<string>, pageId: Option<string>)

  /** The constructor keeps `credentials.accessToken` and `credentials.pageId`; a stored
      bundle has no `pageId` field, so the page id of a service built from one is
      undefined. */
  function NewFacebookService(c: Credentials): (f: FacebookService)
    ensures f.accessToken == c.accessToken && f.pageId.None?
  {
    FacebookService(c.accessToken, None)
  }

  function RequestOf(f: FacebookService): Request {
    Get("https://graph.facebook.com/" + Interpolate(f.pageId) + "/ratings?access_token="
        + Interpolate(f.accessToken), None)
  }

  /** `data.data` if present, otherwise none; a failed request is rethrown. */
  function ExtractReviews(resp: Response): (r: Result<seq<FacebookRaw>, Error>)
    ensures resp.Failed? <==> r.Failure?
    ensures resp.Failed? ==> r == Failure(UpstreamFailure(resp.reason))
    ensures r.Success? && r.value != [] ==> resp == Delivered(FacebookBody(Some(r.value)))
    ensures resp == Delivered(FacebookBody(None)) ==> r == Success([])
  {
    match resp
    case Failed(reason) => Failure(UpstreamFailure(reason))
    case Delivered(FacebookBody(Some(reviews))) => Success(reviews)
    case Delivered(_) => Success([])
  }

  /** `fetchFacebookReviews`. */
  method FetchFacebookReviews(f: FacebookService, client: Client) returns (r: Result<seq<FacebookRaw>, Error>)
    modifies client
    ensures client.requests == old(client.requests) + [RequestOf(f)]
    ensures r == ExtractReviews(client.respond(RequestOf(f)))
  {
    var resp := client.Send(RequestOf(f));
    r := ExtractReviews(resp);
  }

  /** One rating as the adapter writes it, looked up by its recommendation type.
      Reading `reviewer.name`, `reviewer.picture.data` or `picture.data.url` throws
      when the object before the dot is missing. `parseDate` stands for
      `new Date(review.created_time)`. */
  function Normalize(raw: FacebookRaw, parseDate: string -> int): (r: Result<Write, Error>)
    ensures r.Failure? <==> (raw.reviewer.None? || raw.reviewer.value.picture.None?
                             || raw.reviewer.value.picture.value.data.None?)
    ensures r.Success? ==> r.value.key == raw.recommendationType && KeyedBy(r.value, FacebookReviewId)
  {
    match raw.reviewer
    case None => Failure(TypeError("name"))
    case Some(reviewer) =>
      match reviewer.picture
      case None => Failure(TypeError("data"))
      case Some(picture) =>
        match picture.data
        case None => Failure(TypeError("url"))
        case Some(data) =>
          Success(Write(raw.recommendationType,
            ReviewFields("Facebook", reviewer.name, OrElse(data.url, PlaceholderAvatar), raw.rating,
                         raw.reviewText, parseDate(raw.createdTime),
                         PlatformData(None, None, Some(raw.recommendationType),
                                      Some("https://facebook.com/" + Interpolate(reviewer.id))))))
  }

  /** The field mapping of a rating whose reviewer picture is present. */
  lemma NormalizeSpec(raw: FacebookRaw, parseDate: string -> int)
    requires Normalize(raw, parseDate).Success?
    ensures var f := Normalize(raw, parseDate).value.fields;
      var reviewer := raw.reviewer.value;
      var url := reviewer.picture.value.data.value.url;
      && f.platform == "Facebook" && f.author == reviewer.name
      && f.rating == raw.rating && f.content == raw.reviewText
      && f.date == parseDate(raw.createdTime)
      && (Truthy(url) ==> f.avatar == url.value)
      && (!Truthy(url) ==> f.avatar == PlaceholderAvatar)
      && f.avatar != ""
      && f.platformData.profileUrl == Some("https://facebook.com/" + Interpolate(reviewer.id))
  {
  }

  /** The weak key: two ratings go to the same document exactly when they share their
      recommendation type. */
  lemma SameDocumentIffSameRecommendation(a: FacebookRaw, b: FacebookRaw, parseDate: string -> int)
    requires Normalize(a, parseDate).Success? && Normalize(b, parseDate).Success?
    ensures Normalize(a, parseDate).value.key == Normalize(b, parseDate).value.key
            <==> a.recommendationType == b.recommendationType
  {
  }

  function Items(raws: seq<FacebookRaw>, parseDate: string -> int): (items: seq<Result<Write, Error>>)
    ensures |items| == |raws|
    ensures ItemsKeyedBy(items, FacebookReviewId)
  {
    seq(|raws|, i requires 0 <= i < |raws| => Normalize(raws[i], parseDate))
  }

  const SyncedMessage: string := "Facebook reviews synced successfully"

  function Run(f: FacebookService, rs: seq<Review>, respond: Request -> Response,
               parseDate: string -> int, accepts: ReviewFields -> bool): SyncOutcome
  {
    match ExtractReviews(respond(RequestOf(f)))
    case Failure(e) => SyncOutcome(rs, Failure(e))
    case Success(raws) => Conclude(RunBatch(rs, FacebookReviewId, Items(raws, parseDate), accepts), SyncedMessage)
  }

  /** `syncReviews`: fetch, then upsert every rating keyed by its recommendation type. */
  method SyncReviews(f: FacebookService, store: Store, client: Client, parseDate: string -> int)
    returns (res: Result<SyncResult, Error>)
    modifies store, client
    ensures client.requests == old(client.requests) + [RequestOf(f)]
    ensures var o := Run(f, old(store.reviews), client.respond, parseDate, store.accepts);
      store.reviews == o.reviews && res == o.result
  {
    var fetched := FetchFacebookReviews(f, client);
    match fetched
    case Failure(e) =>
      return Failure(e);
    case Success(raws) =>
      var failure := store.UpsertEach(FacebookReviewId, Items(raws, parseDate));
      match failure
      case Some(e) =>
        return Failure(e);
      case None =>
        return Success(SyncResult(true, SyncedMessage));
  }

  /** The database takes every rating of the answer that could be built. */
  predicate SavesAnswer(f: FacebookService, respond: Request -> Response, parseDate: string -> int,
                        accepts: ReviewFields -> bool) {
    match ExtractReviews(respond(RequestOf(f)))
    case Failure(_) => true
    case Success(raws) => SavesBuilt(Items(raws, parseDate), accepts)
  }

  /** Syncing the same answer twice leaves the store as one sync left it, when the
      database takes every built rating on both runs. Ratings share their
      recommendation type, so without that proviso a second run refused midway puts an
      earlier rating back into the shared document (`TransientRefusalReverts`). */
  lemma ResyncChangesNothing(f: FacebookService, rs: seq<Review>, respond: Request -> Response,
                             parseDate: string -> int, first: ReviewFields -> bool,
                             second: ReviewFields -> bool)
    requires SavesAnswer(f, respond, parseDate, first) && SavesAnswer(f, respond, parseDate, second)
    ensures Run(f, Run(f, rs, respond, parseDate, first).reviews, respond, parseDate, second)
         == Run(f, rs, respond, parseDate, first)
  {
    match ExtractReviews(respond(RequestOf(f)))
    case Failure(e) =>
    case Success(raws) =>
      RunBatchIdempotent(rs, FacebookReviewId, Items(raws, parseDate), first, second);
  }

  /** After a complete sync all ratings with one recommendation type have gone into a
      single document, which carries the last of them. */
  lemma OneDocumentPerRecommendation(f: FacebookService, rs: seq<Review>, respond: Request -> Response,
                                     parseDate: string -> int, accepts: ReviewFields -> bool,
                                     raws: seq<FacebookRaw>, i: nat)
    requires ExtractReviews(respond(RequestOf(f))) == Success(raws)
    requires Unique(rs, FacebookReviewId)
    requires forall j :: 0 <= j < |raws| ==> Normalize(raws[j], parseDate).Success?
    requires forall j :: 0 <= j < |raws| ==> accepts(Normalize(raws[j], parseDate).value.fields)
    requires i < |raws|
    ensures var o := Run(f, rs, respond, parseDate, accepts);
      var key := raws[i].recommendationType;
      var ws := LeadingWrites(Items(raws, parseDate), accepts);
      && o.result == Success(SyncResult(true, SyncedMessage))
      && LastFor(ws, key).Some?
      && FirstMatch(o.reviews, FacebookReviewId, key).Some?
      && FieldsOf(o.reviews[FirstMatch(o.reviews, FacebookReviewId, key).value]) == LastFor(ws, key).value
      && forall j :: 0 <= j < |o.reviews| && KeyOf(o.reviews[j], FacebookReviewId) == Some(key) ==>
           FirstMatch(o.reviews, FacebookReviewId, key) == Some(j)
  {
    var items := Items(raws, parseDate);
    assert items[i].Success? && items[i].value.key == raws[i].recommendationType;
    RunBatchOnePerKey(rs, FacebookReviewId, items, accepts, raws[i].recommendationType);
  }
}
