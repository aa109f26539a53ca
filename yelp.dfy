/** The directory adapter (`YelpService`). It keeps the bundle's `apiKey` and
    `businessId` and sends the key as a bearer token, although the factory only
    checks for `businessId` and `accessToken`; reviews are keyed on Yelp's review id. */
module Yelp {
  import opened Wrappers
  import opened Errors
  import opened JsText
  import opened ReviewModel
  import opened ReviewStore
  import opened Upstream
  import opened IntegrationModel

  datatype YelpService = YelpService(apiKey: Option<string>, businessId: Option<string>)

  /** The constructor keeps `credentials.apiKey` and `credentials.businessId`. */
  function NewYelpService(c: Credentials): (y: YelpService)
    ensures y.apiKey == c.apiKey && y.businessId == c.businessId
  {
    YelpService(c.apiKey, c.businessId)
  }

  function RequestOf(y: YelpService): Request {
    Get("https://api.yelp.com/v3/businesses/" + Interpolate(y.businessId) + "/reviews",
        Some("Bearer " + Interpolate(y.apiKey)))
  }

  /** The request carries `Bearer <apiKey>`, and `Bearer undefined` without a key. */
  lemma RequestCarriesApiKey(y: YelpService)
    ensures RequestOf(y).authorization.Some?
    ensures var auth := RequestOf(y).authorization.value;
      && |auth| >= 7 && auth[..7] == "Bearer "
      && auth[7..] == (if y.apiKey.Some? then y.apiKey.value else "undefined")
  {
  }

  /** `data.reviews` if present, otherwise none; a failed request is rethrown. */
  function ExtractReviews(resp: Response): (r: Result<seq<YelpRaw>, Error>)
    ensures resp.Failed? <==> r.Failure?
    ensures resp.Failed? ==> r == Failure(UpstreamFailure(resp.reason))
    ensures r.Success? && r.value != [] ==> resp == Delivered(YelpBody(Some(r.value)))
    ensures resp == Delivered(YelpBody(None)) ==> r == Success([])
  {
    match resp
    case Failed(reason) => Failure(UpstreamFailure(reason))
    case Delivered(YelpBody(Some(reviews))) => Success(reviews)
    case Delivered(_) => Success([])
  }

  /** `fetchYelpReviews`. */
  method FetchYelpReviews(y: YelpService, client: Client) returns (r: Result<seq<YelpRaw>, Error>)
    modifies client
    ensures client.requests == old(client.requests) + [RequestOf(y)]
    ensures r == ExtractReviews(client.respond(RequestOf(y)))
  {
    var resp := client.Send(RequestOf(y));
    r := ExtractReviews(resp);
  }

  /** One review as the adapter writes it, looked up by `review.id`; reading
      `review.user.name` throws when the review has no user. `parseDate` stands for
      `new Date(review.time_created)`. */
  function Normalize(raw: YelpRaw, parseDate: string -> int): (r: Result<Write, Error>)
    ensures r.Failure? <==> raw.user.None?
    ensures r.Success? ==> r.value.key == raw.id && KeyedBy(r.value, YelpReviewId)
  {
    match raw.user
    case None => Failure(TypeError("name"))
    case Some(user) =>
      Success(Write(raw.id,
        ReviewFields("Yelp", user.name, OrElse(user.imageUrl, PlaceholderAvatar), raw.rating, raw.text,
                     parseDate(raw.timeCreated), PlatformData(None, Some(raw.id), None, raw.url))))
  }

  /** The field mapping of a review with a user. */
  lemma NormalizeSpec(raw: YelpRaw, parseDate: string -> int)
    requires raw.user.Some?
    ensures var f := Normalize(raw, parseDate).value.fields;
      && f.platform == "Yelp" && f.author == raw.user.value.name
      && f.rating == raw.rating && f.content == raw.text
      && f.date == parseDate(raw.timeCreated)
      && f.platformData.profileUrl == raw.url
      && (Truthy(raw.user.value.imageUrl) ==> f.avatar == raw.user.value.imageUrl.value)
      && (!Truthy(raw.user.value.imageUrl) ==> f.avatar == PlaceholderAvatar)
      && f.avatar != ""
  {
  }

  function Items(raws: seq<YelpRaw>, parseDate: string -> int): (items: seq<Result<Write, Error>>)
    ensures |items| == |raws|
    ensures ItemsKeyedBy(items, YelpReviewId)
  {
    seq(|raws|, i requires 0 <= i < |raws| => Normalize(raws[i], parseDate))
  }

  const SyncedMessage: string := "Yelp reviews synced successfully"

  function Run(y: YelpService, rs: seq<Review>, respond: Request -> Response,
               parseDate: string -> int, accepts: ReviewFields -> bool): SyncOutcome
  {
    match ExtractReviews(respond(RequestOf(y)))
    case Failure(e) => SyncOutcome(rs, Failure(e))
    case Success(raws) => Conclude(RunBatch(rs, YelpReviewId, Items(raws, parseDate), accepts), SyncedMessage)
  }

  /** `syncReviews`: fetch, then upsert every review keyed by its id. */
  method SyncReviews(y: YelpService, store: Store, client: Client, parseDate: string -> int)
    returns (res: Result<SyncResult, Error>)
    modifies store, client
    ensures client.requests == old(client.requests) + [RequestOf(y)]
    ensures var o := Run(y, old(store.reviews), client.respond, parseDate, store.accepts);
      store.reviews == o.reviews && res == o.result
  {
    var fetched := FetchYelpReviews(y, client);
    match fetched
    case Failure(e) =>
      return Failure(e);
    case Success(raws) =>
      var failure := store.UpsertEach(YelpReviewId, Items(raws, parseDate));
      match failure
      case Some(e) =>
        return Failure(e);
      case None =>
        return Success(SyncResult(true, SyncedMessage));
  }

  /** The database takes every review of the answer that could be built. */
  predicate SavesAnswer(y: YelpService, respond: Request -> Response, parseDate: string -> int,
                        accepts: ReviewFields -> bool) {
    match ExtractReviews(respond(RequestOf(y)))
    case Failure(_) => true
    case Success(raws) => SavesBuilt(Items(raws, parseDate), accepts)
  }

  /** Syncing the same answer twice leaves the store as one sync left it, when the
      database takes every built review on both runs; a review without a user fails
      both runs at the same place. */
  lemma ResyncChangesNothing(y: YelpService, rs: seq<Review>, respond: Request -> Response,
                             parseDate: string -> int, first: ReviewFields -> bool,
                             second: ReviewFields -> bool)
    requires SavesAnswer(y, respond, parseDate, first) && SavesAnswer(y, respond, parseDate, second)
    ensures Run(y, Run(y, rs, respond, parseDate, first).reviews, respond, parseDate, second)
         == Run(y, rs, respond, parseDate, first)
  {
    match ExtractReviews(respond(RequestOf(y)))
    case Failure(e) =>
    case Success(raws) =>
      RunBatchIdempotent(rs, YelpReviewId, Items(raws, parseDate), first, second);
  }

  /** After a complete sync each Yelp id in the answer is held by exactly one document,
      which carries the last review in the answer with that id. */
  lemma OneDocumentPerId(y: YelpService, rs: seq<Review>, respond: Request -> Response,
                         parseDate: string -> int, accepts: ReviewFields -> bool,
                         raws: seq<YelpRaw>, i: nat)
    requires ExtractReviews(respond(RequestOf(y))) == Success(raws)
    requires Unique(rs, YelpReviewId)
    requires forall j :: 0 <= j < |raws| ==> raws[j].user.Some?
    requires forall j :: 0 <= j < |raws| ==> accepts(Normalize(raws[j], parseDate).value.fields)
    requires i < |raws|
    ensures var o := Run(y, rs, respond, parseDate, accepts);
      var ws := LeadingWrites(Items(raws, parseDate), accepts);
      && o.result == Success(SyncResult(true, SyncedMessage))
      && LastFor(ws, raws[i].id).Some?
      && FirstMatch(o.reviews, YelpReviewId, raws[i].id).Some?
      && FieldsOf(o.reviews[FirstMatch(o.reviews, YelpReviewId, raws[i].id).value]) == LastFor(ws, raws[i].id).value
      && forall j :: 0 <= j < |o.reviews| && KeyOf(o.reviews[j], YelpReviewId) == Some(raws[i].id) ==>
           FirstMatch(o.reviews, YelpReviewId, raws[i].id) == Some(j)
  {
    var items := Items(raws, parseDate);
    assert items[i].Success? && items[i].value.key == raws[i].id;
    RunBatchOnePerKey(rs, YelpReviewId, items, accepts, raws[i].id);
  }
}
