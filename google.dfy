/** The map-search adapter (`GoogleService`). It reads its key and place id from the
    process environment, not from the stored credentials, and keys reviews on their
    creation time in seconds, the only per-review value the Places API returns:
    two reviews posted in the same second are one document. */
module Google {
  import opened Wrappers
  import opened Errors
  import opened JsText
  import opened ReviewModel
  import opened ReviewStore
  import opened Upstream

  /** `process.env.GOOGLE_API_KEY` and `process.env.GOOGLE_PLACE_ID`. */
  datatype Environment = Environment(googleApiKey: Option<string>, googlePlaceId: Option<string>)

  datatype GoogleService = GoogleService(apiKey: string, placeId: string)

  /** The constructor: each setting comes from the environment, "" when unset or empty. */
  function NewGoogleService(env: Environment): (g: GoogleService)
    ensures Truthy(env.googleApiKey) ==> g.apiKey == env.googleApiKey.value
    ensures !Truthy(env.googleApiKey) ==> g.apiKey == ""
    ensures Truthy(env.googlePlaceId) ==> g.placeId == env.googlePlaceId.value
    ensures !Truthy(env.googlePlaceId) ==> g.placeId == ""
  {
    GoogleService(OrElse(env.googleApiKey, ""), OrElse(env.googlePlaceId, ""))
  }

  function RequestOf(g: GoogleService): Request {
    Get("https://maps.googleapis.com/maps/api/place/details/json?place_id=" + g.placeId
        + "&fields=reviews&key=" + g.apiKey, None)
  }

  /** The reviews of a response: `result.reviews` when both are present, otherwise none;
      a failed request is rethrown. */
  function ExtractReviews(resp: Response): (r: Result<seq<GoogleRaw>, Error>)
    ensures resp.Failed? <==> r.Failure?
    ensures resp.Failed? ==> r == Failure(UpstreamFailure(resp.reason))
    ensures r.Success? && r.value != [] ==> resp == Delivered(GoogleBody(Some(GoogleResult(Some(r.value)))))
    ensures resp == Delivered(GoogleBody(Some(GoogleResult(None)))) ==> r == Success([])
    ensures resp == Delivered(GoogleBody(None)) ==> r == Success([])
  {
    match resp
    case Failed(reason) => Failure(UpstreamFailure(reason))
    case Delivered(GoogleBody(Some(GoogleResult(Some(reviews))))) => Success(reviews)
    case Delivered(_) => Success([])
  }

  /** `fetchGoogleReviews`: one request, then the extraction above. */
  method FetchGoogleReviews(g: GoogleService, client: Client) returns (r: Result<seq<GoogleRaw>, Error>)
    modifies client
    ensures client.requests == old(client.requests) + [RequestOf(g)]
    ensures r == ExtractReviews(client.respond(RequestOf(g)))
  {
    var resp := client.Send(RequestOf(g));
    r := ExtractReviews(resp);
  }

  /** The stored id of a review: `review.time`, cast to a string by the schema. */
  function ReviewId(raw: GoogleRaw): string {
    DecimalString(raw.time)
  }

  /** One review as the adapter writes it, looked up by its time. */
  function Normalize(raw: GoogleRaw): Write {
    Write(ReviewId(raw),
          ReviewFields("Google", raw.authorName, OrElse(raw.profilePhotoUrl, PlaceholderAvatar),
                       raw.rating, raw.text, raw.time * 1000,
                       PlatformData(Some(ReviewId(raw)), None, None, raw.authorUrl)))
  }

  /** The field mapping: platform, author, rating, content and profile link are taken
      over; the avatar falls back to the placeholder, so it is never empty; the date is
      the time in milliseconds, from which the time is recovered exactly; and the
      written id is the lookup key. */
  lemma NormalizeSpec(raw: GoogleRaw)
    ensures var w := Normalize(raw);
      && w.fields.platform == "Google" && w.fields.author == raw.authorName
      && w.fields.rating == raw.rating && w.fields.content == raw.text
      && w.fields.platformData.profileUrl == raw.authorUrl
      && (Truthy(raw.profilePhotoUrl) ==> w.fields.avatar == raw.profilePhotoUrl.value)
      && (!Truthy(raw.profilePhotoUrl) ==> w.fields.avatar == PlaceholderAvatar)
      && w.fields.avatar != ""
      && w.fields.date / 1000 == raw.time && w.fields.date % 1000 == 0
      && KeyedBy(w, GoogleReviewId)
  {
  }

  /** The weak key: two reviews go to the same document exactly when they share a time. */
  lemma SameDocumentIffSameTime(a: GoogleRaw, b: GoogleRaw)
    ensures Normalize(a).key == Normalize(b).key <==> a.time == b.time
  {
    DecimalStringInjective(a.time, b.time);
  }

  function Items(raws: seq<GoogleRaw>): (items: seq<Result<Write, Error>>)
    ensures |items| == |raws|
    ensures ItemsKeyedBy(items, GoogleReviewId)
  {
    seq(|raws|, i requires 0 <= i < |raws| => Success(Normalize(raws[i])))
  }

  const SyncedMessage: string := "Reviews synced successfully"

  /** `syncReviews` as a function of the store it starts from and of what the API answers. */
  function Run(g: GoogleService, rs: seq<Review>, respond: Request -> Response,
               accepts: ReviewFields -> bool): SyncOutcome
  {
    match ExtractReviews(respond(RequestOf(g)))
    case Failure(e) => SyncOutcome(rs, Failure(e))
    case Success(raws) => Conclude(RunBatch(rs, GoogleReviewId, Items(raws), accepts), SyncedMessage)
  }

  /** `syncReviews`: fetch, then upsert every review keyed by its time; resolves only
      after the last upsert, rethrows the first error. */
  method SyncReviews(g: GoogleService, store: Store, client: Client) returns (res: Result<SyncResult, Error>)
    modifies store, client
    ensures client.requests == old(client.requests) + [RequestOf(g)]
    ensures var o := Run(g, old(store.reviews), client.respond, store.accepts);
      store.reviews == o.reviews && res == o.result
  {
    var fetched := FetchGoogleReviews(g, client);
    match fetched
    case Failure(e) =>
      return Failure(e);
    case Success(raws) =>
      var failure := store.UpsertEach(GoogleReviewId, Items(raws));
      match failure
      case Some(e) =>
        return Failure(e);
      case None =>
        return Success(SyncResult(true, SyncedMessage));
  }

  /** The database takes every review the answer yields (vacuous when the fetch fails). */
  predicate SavesAnswer(g: GoogleService, respond: Request -> Response, accepts: ReviewFields -> bool) {
    match ExtractReviews(respond(RequestOf(g)))
    case Failure(_) => true
    case Success(raws) => SavesBuilt(Items(raws), accepts)
  }

  /** Syncing the same answer twice leaves the store as one sync left it, when the
      database takes every review on both runs. */
  lemma ResyncChangesNothing(g: GoogleService, rs: seq<Review>, respond: Request -> Response,
                             first: ReviewFields -> bool, second: ReviewFields -> bool)
    requires SavesAnswer(g, respond, first) && SavesAnswer(g, respond, second)
    ensures Run(g, Run(g, rs, respond, first).reviews, respond, second) == Run(g, rs, respond, first)
  {
    match ExtractReviews(respond(RequestOf(g)))
    case Failure(e) =>
    case Success(raws) =>
      RunBatchIdempotent(rs, GoogleReviewId, Items(raws), first, second);
  }

  /** After a complete sync, each time in the answer is held by exactly one document,
      which carries the last review with that time. */
  lemma OneDocumentPerTime(g: GoogleService, rs: seq<Review>, respond: Request -> Response,
                           accepts: ReviewFields -> bool, raws: seq<GoogleRaw>, i: nat)
    requires ExtractReviews(respond(RequestOf(g))) == Success(raws)
    requires Unique(rs, GoogleReviewId)
    requires forall j :: 0 <= j < |raws| ==> accepts(Normalize(raws[j]).fields)
    requires i < |raws|
    ensures var o := Run(g, rs, respond, accepts);
      var key := ReviewId(raws[i]);
      var ws := LeadingWrites(Items(raws), accepts);
      && o.result == Success(SyncResult(true, SyncedMessage))
      && LastFor(ws, key).Some?
      && FirstMatch(o.reviews, GoogleReviewId, key).Some?
      && FieldsOf(o.reviews[FirstMatch(o.reviews, GoogleReviewId, key).value]) == LastFor(ws, key).value
      && forall j :: 0 <= j < |o.reviews| && KeyOf(o.reviews[j], GoogleReviewId) == Some(key) ==>
           FirstMatch(o.reviews, GoogleReviewId, key) == Some(j)
  {
    var items := Items(raws);
    assert items[i].Success? && items[i].value.key == ReviewId(raws[i]);
    RunBatchOnePerKey(rs, GoogleReviewId, items, accepts, ReviewId(raws[i]));
  }
}
