/** The `PlatformIntegration` document: one row per platform with its enabled flag,
    its credential bundle and the time of its last successful sync. */
module IntegrationModel {
  import opened Wrappers
  import opened Lists

  /** The credential sub-document. The schema declares exactly these four optional
      fields, so a bundle read back from the store never carries a `pageId`. */
  datatype Credentials = Credentials(
    apiKey: Option<string>,
    placeId: Option<string>,
    businessId: Option<string>,
    accessToken: Option<string>)

  /** `credentials` is None when the row stores `null`; `lastSync` is epoch milliseconds. */
  datatype PlatformIntegration = PlatformIntegration(
    platform: string,
    isEnabled: bool,
    credentials: Option<Credentials>,
    lastSync: Option<int>)

  /** A new row as the schema builds it: `isEnabled` defaults to false and `lastSync`
      has no default. */
  function NewIntegration(platform: string, isEnabled: Option<bool>, credentials: Option<Credentials>): (r: PlatformIntegration)
    ensures r.platform == platform && r.credentials == credentials
    ensures r.isEnabled == isEnabled.GetOr(false)
    ensures r.lastSync.None?
  {
    PlatformIntegration(platform, isEnabled.GetOr(false), credentials, None)
  }

  /** The unique index on `platform`. */
  predicate UniquePlatforms(xs: seq<PlatformIntegration>) {
    forall i, j :: 0 <= i < j < |xs| ==> xs[i].platform != xs[j].platform
  }

  /** `findOne({ platform })`: the position of the row for platform, if there is one. */
  function FindPlatform(xs: seq<PlatformIntegration>, platform: string): Option<nat> {
    FindFirst(xs, PlatformOf, platform)
  }

  function PlatformOf(x: PlatformIntegration): string {
    x.platform
  }

  /** `findOneAndUpdate({ platform }, { isEnabled, credentials }, { upsert: true })`. */
  function Toggled(xs: seq<PlatformIntegration>, platform: string, isEnabled: bool,
                   credentials: Option<Credentials>): seq<PlatformIntegration>
  {
    match FindPlatform(xs, platform)
    case Some(i) => xs[i := xs[i].(isEnabled := isEnabled, credentials := credentials)]
    case None => xs + [NewIntegration(platform, Some(isEnabled), credentials)]
  }

  /** `findOneAndUpdate({ platform }, { lastSync })` without upsert: no row, no change. */
  function WithLastSync(xs: seq<PlatformIntegration>, platform: string, now: int): seq<PlatformIntegration> {
    match FindPlatform(xs, platform)
    case Some(i) => xs[i := xs[i].(lastSync := Some(now))]
    case None => xs
  }

  /** After a toggle there is exactly one row for the platform; it holds the given flag
      and credentials and the earlier `lastSync` (none for a new row); every other row
      is as it was, and the unique index still holds. */
  lemma ToggledSpec(xs: seq<PlatformIntegration>, platform: string, isEnabled: bool,
                    credentials: Option<Credentials>)
    requires UniquePlatforms(xs)
    ensures var ys := Toggled(xs, platform, isEnabled, credentials);
      && UniquePlatforms(ys)
      && FindPlatform(ys, platform).Some?
      && var i := FindPlatform(ys, platform).value;
         && ys[i].isEnabled == isEnabled && ys[i].credentials == credentials
         && ys[i].lastSync == (if FindPlatform(xs, platform).Some? then xs[i].lastSync else None)
         && (forall j :: 0 <= j < |ys| && j != i ==> ys[j] == xs[j])
         && (forall j :: 0 <= j < |ys| && ys[j].platform == platform ==> j == i)
  {
    var ys := Toggled(xs, platform, isEnabled, credentials);
    match FindPlatform(xs, platform)
    case Some(i) =>
      assert ys[i].platform == platform;
    case None =>
      assert ys[|xs|].platform == platform;
  }

  /** Writing `lastSync` touches only that field of that one row. */
  lemma WithLastSyncSpec(xs: seq<PlatformIntegration>, platform: string, now: int)
    requires UniquePlatforms(xs)
    ensures var ys := WithLastSync(xs, platform, now);
      && UniquePlatforms(ys) && |ys| == |xs|
      && (forall j :: 0 <= j < |xs| && xs[j].platform != platform ==> ys[j] == xs[j])
      && (forall j :: 0 <= j < |xs| && xs[j].platform == platform ==> ys[j] == xs[j].(lastSync := Some(now)))
  {
  }
}
