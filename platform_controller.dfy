/** `platformController`: the toggle that creates or updates a platform's integration
    row, and the sync that gates on that row, builds an adapter, runs it and records
    the time of a successful run. */
module PlatformController {
  import opened Wrappers
  import opened Errors
  import opened ReviewModel
  import opened ReviewStore
  import opened Upstream
  import opened IntegrationModel
  import Google
  import ServiceFactory

  /** The request-body values the toggle inspects, as JSON gives them. */
  datatype JsValue =
    | JUndefined
    | JNull
    | JBool(b: bool)
    | JNumber(n: int)
    | JString(s: string)
    | JObject(credentials: Credentials)
  {
    /** The `typeof` operator. */
    function TypeOf(): string {
      match this
      case JUndefined => "undefined"
      case JNull => "object"
      case JBool(_) => "boolean"
      case JNumber(_) => "number"
      case JString(_) => "string"
      case JObject(_) => "object"
    }
  }

  datatype ToggleRequest = ToggleRequest(platform: JsValue, isEnabled: JsValue, credentials: JsValue)

  /** The body check of `togglePlatform`. */
  predicate ValidToggle(req: ToggleRequest) {
    req.platform.TypeOf() == "string" && req.isEnabled.TypeOf() == "boolean"
    && req.credentials.TypeOf() == "object"
  }

  /** A valid body names a string, a boolean and an object or null, and nothing else. */
  lemma ValidToggleSpec(req: ToggleRequest)
    ensures ValidToggle(req) <==>
      req.platform.JString? && req.isEnabled.JBool? && (req.credentials.JObject? || req.credentials.JNull?)
  {
  }

  /** The bundle written for a valid body: `null` is stored as it is. */
  function StoredCredentials(v: JsValue): (r: Option<Credentials>)
    requires v.TypeOf() == "object"
    ensures v.JNull? <==> r.None?
    ensures v.JObject? ==> r == Some(v.credentials)
  {
    if v.JNull? then None else Some(v.credentials)
  }

  datatype ReplyBody =
    | MessageBody(message: string)
    | IntegrationBody(integration: PlatformIntegration)
    | SyncBody(result: SyncResult)
    | ErrorBody(message: string, error: Error)

  datatype Reply = Reply(status: int, body: ReplyBody)

  const NotEnabled: Reply := Reply(400, MessageBody("Platform not enabled"))

  /** The `PlatformIntegration` collection; the unique index on `platform` is its invariant. */
  class IntegrationStore {
    var rows: seq<PlatformIntegration>

    constructor (initial: seq<PlatformIntegration>)
      requires UniquePlatforms(initial)
      ensures rows == initial && Valid()
    {
      rows := initial;
    }

    predicate Valid()
      reads this
    {
      UniquePlatforms(rows)
    }
  }

  /** `togglePlatform`: a malformed body gives 400 and writes nothing; otherwise the row
      for the platform is upserted and returned as it is after the write. */
  method TogglePlatform(db: IntegrationStore, req: ToggleRequest) returns (reply: Reply)
    requires db.Valid()
    modifies db
    ensures db.Valid()
    ensures !ValidToggle(req) ==> db.rows == old(db.rows) && reply == Reply(400, MessageBody("Invalid request body"))
    ensures ValidToggle(req) ==>
      var creds := StoredCredentials(req.credentials);
      && db.rows == Toggled(old(db.rows), req.platform.s, req.isEnabled.b, creds)
      && FindPlatform(db.rows, req.platform.s).Some?
      && reply == Reply(200, IntegrationBody(db.rows[FindPlatform(db.rows, req.platform.s).value]))
  {
    if !ValidToggle(req) {
      return Reply(400, MessageBody("Invalid request body"));
    }
    var platform := req.platform.s;
    var creds := StoredCredentials(req.credentials);
    ToggledSpec(db.rows, platform, req.isEnabled.b, creds);
    db.rows := Toggled(db.rows, platform, req.isEnabled.b, creds);
    var i := FindPlatform(db.rows, platform).value;
    reply := Reply(200, IntegrationBody(db.rows[i]));
  }

  /** What `togglePlatform` promises about the row it returns: it is the one row of
      that platform and carries the flag and bundle sent, with the old `lastSync`. */
  lemma ToggleReturnsTheRow(rows: seq<PlatformIntegration>, platform: string, isEnabled: bool, credentials: JsValue)
    requires UniquePlatforms(rows)
    requires credentials.TypeOf() == "object"
    ensures FindPlatform(Toggled(rows, platform, isEnabled, StoredCredentials(credentials)), platform).Some?
    ensures var after := Toggled(rows, platform, isEnabled, StoredCredentials(credentials));
      var i := FindPlatform(after, platform).value;
      after[i] == PlatformIntegration(platform, isEnabled, StoredCredentials(credentials),
           if FindPlatform(rows, platform).Some? then rows[FindPlatform(rows, platform).value].lastSync else None)
  {
    ToggledSpec(rows, platform, isEnabled, StoredCredentials(credentials));
  }

  /** Everything one sync request produces. */
  datatype SyncRun = SyncRun(rows: seq<PlatformIntegration>, reviews: seq<Review>, requests: seq<Request>, reply: Reply)

  /** `syncPlatformReviews` as a function of the state it starts from. */
  function SyncPlatform(rows: seq<PlatformIntegration>, rs: seq<Review>, platform: string,
                        env: Google.Environment, respond: Request -> Response,
                        parseDate: string -> int, accepts: ReviewFields -> bool, now: int): SyncRun
  {
    match FindPlatform(rows, platform)
    case None => SyncRun(rows, rs, [], NotEnabled)
    case Some(i) =>
      if !rows[i].isEnabled then SyncRun(rows, rs, [], NotEnabled)
      else
        match ServiceFactory.CreateService(platform, rows[i].credentials, env)
        case Failure(e) => SyncRun(rows, rs, [], Reply(500, ErrorBody("Error syncing reviews", e)))
        case Success(a) =>
          var o := ServiceFactory.Run(a, rs, respond, parseDate, accepts);
          match o.result
          case Failure(e) => SyncRun(rows, o.reviews, [ServiceFactory.RequestOf(a)], Reply(500, ErrorBody("Error syncing reviews", e)))
          case Success(r) => SyncRun(WithLastSync(rows, platform, now), o.reviews, [ServiceFactory.RequestOf(a)], Reply(200, SyncBody(r)))
  }

  /** `syncPlatformReviews`. `now` stands for `new Date()`; the route parameter is
      always a string. */
  method SyncPlatformReviews(db: IntegrationStore, store: Store, client: Client, platform: string,
                             env: Google.Environment, parseDate: string -> int, now: int)
    returns (reply: Reply)
    requires db.Valid()
    modifies db, store, client
    ensures db.Valid()
    ensures var run := SyncPlatform(old(db.rows), old(store.reviews), platform, env, client.respond,
                                    parseDate, store.accepts, now);
      && db.rows == run.rows && store.reviews == run.reviews
      && client.requests == old(client.requests) + run.requests && reply == run.reply
  {
    var found := FindPlatform(db.rows, platform);
    if found.None? || !db.rows[found.value].isEnabled {
      return NotEnabled;
    }
    var service := ServiceFactory.CreateService(platform, db.rows[found.value].credentials, env);
    if service.Failure? {
      return Reply(500, ErrorBody("Error syncing reviews", service.error));
    }
    var result := ServiceFactory.SyncReviews(service.value, store, client, parseDate);
    if result.Failure? {
      return Reply(500, ErrorBody("Error syncing reviews", result.error));
    }
    WithLastSyncSpec(db.rows, platform, now);
    db.rows := WithLastSync(db.rows, platform, now);
    reply := Reply(200, SyncBody(result.value));
  }

  /** A missing or disabled row stops the sync: 400, no adapter, no request, no write. */
  lemma GateChangesNothing(rows: seq<PlatformIntegration>, rs: seq<Review>, platform: string,
                           env: Google.Environment, respond: Request -> Response,
                           parseDate: string -> int, accepts: ReviewFields -> bool, now: int)
    ensures var run := SyncPlatform(rows, rs, platform, env, respond, parseDate, accepts, now);
      (FindPlatform(rows, platform).None? || !rows[FindPlatform(rows, platform).value].isEnabled)
      <==> run.reply == NotEnabled
    ensures var run := SyncPlatform(rows, rs, platform, env, respond, parseDate, accepts, now);
      run.reply == NotEnabled ==> run.rows == rows && run.reviews == rs && run.requests == []
  {
  }

  /** The factory runs before any fetch: when it refuses the stored bundle the reply is
      500 and nothing has been requested or written. */
  lemma FactoryBeforeFetch(rows: seq<PlatformIntegration>, rs: seq<Review>, platform: string,
                           env: Google.Environment, respond: Request -> Response,
                           parseDate: string -> int, accepts: ReviewFields -> bool, now: int)
    requires FindPlatform(rows, platform).Some?
    requires rows[FindPlatform(rows, platform).value].isEnabled
    requires ServiceFactory.CreateService(platform, rows[FindPlatform(rows, platform).value].credentials, env).Failure?
    ensures var run := SyncPlatform(rows, rs, platform, env, respond, parseDate, accepts, now);
      var e := ServiceFactory.CreateService(platform, rows[FindPlatform(rows, platform).value].credentials, env).error;
      run == SyncRun(rows, rs, [], Reply(500, ErrorBody("Error syncing reviews", e)))
  {
  }

  /** `lastSync` changes only on a successful sync, and then it is `now` on that row and
      nothing else of any row changes. The reply of a success is the adapter's result. */
  lemma LastSyncOnlyOnSuccess(rows: seq<PlatformIntegration>, rs: seq<Review>, platform: string,
                              env: Google.Environment, respond: Request -> Response,
                              parseDate: string -> int, accepts: ReviewFields -> bool, now: int)
    requires UniquePlatforms(rows)
    ensures var run := SyncPlatform(rows, rs, platform, env, respond, parseDate, accepts, now);
      run.reply.status != 200 ==> run.rows == rows
    ensures var run := SyncPlatform(rows, rs, platform, env, respond, parseDate, accepts, now);
      run.reply.status == 200 ==>
        && FindPlatform(rows, platform).Some?
        && var i := FindPlatform(rows, platform).value;
        && var a := ServiceFactory.CreateService(platform, rows[i].credentials, env).value;
        && ServiceFactory.CreateService(platform, rows[i].credentials, env).Success?
        && run.reply == Reply(200, SyncBody(ServiceFactory.Run(a, rs, respond, parseDate, accepts).result.value))
        && run.rows == rows[i := rows[i].(lastSync := Some(now))]
  {
    var run := SyncPlatform(rows, rs, platform, env, respond, parseDate, accepts, now);
    if run.reply.status == 200 {
      var i := FindPlatform(rows, platform).value;
      WithLastSyncSpec(rows, platform, now);
      var ys := WithLastSync(rows, platform, now);
      assert ys == rows[i := rows[i].(lastSync := Some(now))];
    }
  }
}
