/** The errors the back end throws and catches. Each carries the text of the message
    the source builds, so that a caller can tell them apart the way the source's
    logs and responses do. */
module Errors {

  datatype Error =
    /** `PlatformServiceFactory.createService` on absent or null credentials */
    | MissingCredentials(platform: string)
    | GoogleRequiresApiKey
    | YelpRequiresBusinessIdAndAccessToken
    | FacebookRequiresAccessToken
    | UnsupportedPlatform(platform: string)
    /** the upstream request failed: a transport error or a non-2xx status */
    | UpstreamFailure(reason: string)
    /** reading a property of `undefined` while building a review record */
    | TypeError(path: string)
    /** the database refused a write */
    | StoreRejected
  {
    /** The concatenated message text; for the factory errors, the literal the source throws. */
    function Message(): string {
      match this
      case MissingCredentials(p) => "Credentials are required for platform: " + p
      case GoogleRequiresApiKey => "Google platform requires an API key."
      case YelpRequiresBusinessIdAndAccessToken => "Yelp platform requires a businessId and accessToken."
      case FacebookRequiresAccessToken => "Facebook platform requires an accessToken."
      case UnsupportedPlatform(p) => "Unsupported platform: " + p
      case UpstreamFailure(r) => r
      case TypeError(p) => "Cannot read properties of undefined (reading '" + p + "')"
      case StoreRejected => "write refused by the database"
    }
  }
}
