/** `PlatformServiceFactory.createService`: checks the credential bundle of a platform
    and builds the matching adapter, and the dispatch from an adapter to its sync. */
module ServiceFactory {
  import opened Wrappers
  import opened Errors
  import opened JsText
  import opened ReviewModel
  import opened ReviewStore
  import opened Upstream
  import opened IntegrationModel
  import Google
  import Yelp
  import Facebook

  datatype Adapter =
    | GoogleAdapter(google: Google.GoogleService)
    | YelpAdapter(yelp: Yelp.YelpService)
    | FacebookAdapter(facebook: Facebook.FacebookService)
  {
    /** The lower-case platform name the adapter is chosen by. */
    function Name(): string {
      match this
      case GoogleAdapter(_) => "google"
      case YelpAdapter(_) => "yelp"
      case FacebookAdapter(_) => "facebook"
    }
  }

  /** `createService(platform, credentials)`. A null bundle fails before the name is
      looked at; the name is compared after lower-casing; each branch checks only the
      fields it names. The Google adapter is built from the environment. */
  function CreateService(platform: string, credentials: Option<Credentials>, env: Google.Environment): (r: Result<Adapter, Error>)
    ensures credentials.None? <==> r == Failure(MissingCredentials(platform))
    ensures credentials.Some? && Lower(platform) == "google" ==>
      (r.Success? <==> Truthy(credentials.value.apiKey))
      && (r.Failure? ==> r.error == GoogleRequiresApiKey)
    ensures credentials.Some? && Lower(platform) == "yelp" ==>
      (r.Success? <==> Truthy(credentials.value.businessId) && Truthy(credentials.value.accessToken))
      && (r.Failure? ==> r.error == YelpRequiresBusinessIdAndAccessToken)
    ensures credentials.Some? && Lower(platform) == "facebook" ==>
      (r.Success? <==> Truthy(credentials.value.accessToken))
      && (r.Failure? ==> r.error == FacebookRequiresAccessToken)
    ensures credentials.Some? && Lower(platform) !in {"google", "yelp", "facebook"} ==>
      r == Failure(UnsupportedPlatform(platform))
    ensures r.Success? ==> r.value.Name() == Lower(platform)
    ensures r.Success? ==> r.value == match r.value
      case GoogleAdapter(_) => GoogleAdapter(Google.NewGoogleService(env))
      case YelpAdapter(_) => YelpAdapter(Yelp.NewYelpService(credentials.value))
      case FacebookAdapter(_) => FacebookAdapter(Facebook.NewFacebookService(credentials.value))
  {
    match credentials
    case None => Failure(MissingCredentials(platform))
    case Some(c) =>
      var name := Lower(platform);
      if name == "google" then
        if !Truthy(c.apiKey) then Failure(GoogleRequiresApiKey)
        else Success(GoogleAdapter(Google.NewGoogleService(env)))
      else if name == "yelp" then
        if !Truthy(c.businessId) || !Truthy(c.accessToken) then Failure(YelpRequiresBusinessIdAndAccessToken)
        else Success(YelpAdapter(Yelp.NewYelpService(c)))
      else if name == "facebook" then
        if !Truthy(c.accessToken) then Failure(FacebookRequiresAccessToken)
        else Success(FacebookAdapter(Facebook.NewFacebookService(c)))
      else Failure(UnsupportedPlatform(platform))
  }

  /** Names that lower-case alike select the same branch: both succeed with the same
      adapter or both fail, and with the same error unless that error quotes the name. */
  lemma CaseInsensitive(p: string, q: string, credentials: Option<Credentials>, env: Google.Environment)
    requires Lower(p) == Lower(q)
    ensures CreateService(p, credentials, env).Success? <==> CreateService(q, credentials, env).Success?
    ensures CreateService(p, credentials, env).Success? ==>
      CreateService(p, credentials, env) == CreateService(q, credentials, env)
    ensures credentials.Some? && Lower(p) in {"google", "yelp", "facebook"} ==>
      CreateService(p, credentials, env) == CreateService(q, credentials, env)
  {
  }

  lemma GoogleSpellings(credentials: Credentials, env: Google.Environment)
    ensures CreateService("Google", Some(credentials), env) == CreateService("google", Some(credentials), env)
    ensures CreateService("GOOGLE", Some(credentials), env) == CreateService("google", Some(credentials), env)
  {
    assert Lower("Google") == "google";
    assert Lower("GOOGLE") == "google";
  }

  /** The one request an adapter sends. */
  function RequestOf(a: Adapter): Request {
    match a
    case GoogleAdapter(g) => Google.RequestOf(g)
    case YelpAdapter(y) => Yelp.RequestOf(y)
    case FacebookAdapter(f) => Facebook.RequestOf(f)
  }

  /** `service.syncReviews()` for whichever adapter the factory built. */
  function Run(a: Adapter, rs: seq<Review>, respond: Request -> Response,
               parseDate: string -> int, accepts: ReviewFields -> bool): SyncOutcome
  {
    match a
    case GoogleAdapter(g) => Google.Run(g, rs, respond, accepts)
    case YelpAdapter(y) => Yelp.Run(y, rs, respond, parseDate, accepts)
    case FacebookAdapter(f) => Facebook.Run(f, rs, respond, parseDate, accepts)
  }

  /** The database takes every review the adapter builds from the answer. */
  predicate SavesAnswer(a: Adapter, respond: Request -> Response, parseDate: string -> int,
                        accepts: ReviewFields -> bool) {
    match a
    case GoogleAdapter(g) => Google.SavesAnswer(g, respond, accepts)
    case YelpAdapter(y) => Yelp.SavesAnswer(y, respond, parseDate, accepts)
    case FacebookAdapter(f) => Facebook.SavesAnswer(f, respond, parseDate, accepts)
  }

  /** Every adapter's sync leaves a second run with the same answer nothing to do, when
      the database takes every built review on both runs. */
  lemma ResyncChangesNothing(a: Adapter, rs: seq<Review>, respond: Request -> Response,
                             parseDate: string -> int, first: ReviewFields -> bool,
                             second: ReviewFields -> bool)
    requires SavesAnswer(a, respond, parseDate, first) && SavesAnswer(a, respond, parseDate, second)
    ensures Run(a, Run(a, rs, respond, parseDate, first).reviews, respond, parseDate, second)
         == Run(a, rs, respond, parseDate, first)
  {
    match a
    case GoogleAdapter(g) => Google.ResyncChangesNothing(g, rs, respond, first, second);
    case YelpAdapter(y) => Yelp.ResyncChangesNothing(y, rs, respond, parseDate, first, second);
    case FacebookAdapter(f) => Facebook.ResyncChangesNothing(f, rs, respond, parseDate, first, second);
  }

  method SyncReviews(a: Adapter, store: Store, client: Client, parseDate: string -> int)
    returns (res: Result<SyncResult, Error>)
    modifies store, client
    ensures client.requests == old(client.requests) + [RequestOf(a)]
    ensures var o := Run(a, old(store.reviews), client.respond, parseDate, store.accepts);
      store.reviews == o.reviews && res == o.result
  {
    match a
    case GoogleAdapter(g) => res := Google.SyncReviews(g, store, client);
    case YelpAdapter(y) => res := Yelp.SyncReviews(y, store, client, parseDate);
    case FacebookAdapter(f) => res := Facebook.SyncReviews(f, store, client, parseDate);
  }
}
