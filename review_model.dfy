/** The `Review` document: the unified record every platform adapter writes. */
module ReviewModel {
  import opened Wrappers

  /** `platformData`: one external id per platform and an optional back-link. */
  datatype PlatformData = PlatformData(
    googleReviewId: Option<string>,
    yelpReviewId: Option<string>,
    facebookReviewId: Option<string>,
    profileUrl: Option<string>)

  /** A stored review. `platform`, `author`, `avatar`, `rating` and `content` are
      required, so they are plain values; `date` is milliseconds since the epoch. */
  datatype Review = Review(
    platform: string,
    author: string,
    avatar: string,
    rating: int,
    content: string,
    date: int,
    aiResponse: Option<string>,
    userResponse: Option<string>,
    platformData: PlatformData,
    sentiment: Option<string>,
    isResponded: bool)

  /** The fields of a review an adapter writes on every sync. */
  datatype ReviewFields = ReviewFields(
    platform: string,
    author: string,
    avatar: string,
    rating: int,
    content: string,
    date: int,
    platformData: PlatformData)

  /** The avatar an adapter stores when the upstream gives none. */
  const PlaceholderAvatar: string := "/placeholder.svg"

  /** The platform-specific external-id field a sync looks documents up by. */
  datatype KeyField = GoogleReviewId | YelpReviewId | FacebookReviewId

  function IdIn(d: PlatformData, k: KeyField): Option<string> {
    match k
    case GoogleReviewId => d.googleReviewId
    case YelpReviewId => d.yelpReviewId
    case FacebookReviewId => d.facebookReviewId
  }

  function KeyOf(r: Review, k: KeyField): Option<string> {
    IdIn(r.platformData, k)
  }

  function FieldsOf(r: Review): ReviewFields {
    ReviewFields(r.platform, r.author, r.avatar, r.rating, r.content, r.date, r.platformData)
  }

  /** What an update with the adapter's fields does to an existing document: it sets
      those fields and nothing else, so operator responses, sentiment and the
      responded flag survive a re-sync. */
  function Overwrite(r: Review, f: ReviewFields): (r': Review)
    ensures FieldsOf(r') == f
    ensures r'.aiResponse == r.aiResponse && r'.userResponse == r.userResponse
    ensures r'.sentiment == r.sentiment && r'.isResponded == r.isResponded
  {
    r.(platform := f.platform, author := f.author, avatar := f.avatar, rating := f.rating,
       content := f.content, date := f.date, platformData := f.platformData)
  }

  /** Writing the same fields twice is writing them once, and writing back what a
      document already holds leaves it as it is. */
  lemma OverwriteAbsorbs(r: Review, f1: ReviewFields, f2: ReviewFields)
    ensures Overwrite(Overwrite(r, f1), f2) == Overwrite(r, f2)
    ensures Overwrite(r, FieldsOf(r)) == r
  {
  }

  /** A new document as the schema builds it: what the caller gives, with the defaults
      for what it leaves out. */
  datatype ReviewInput = ReviewInput(
    platform: string,
    author: string,
    avatar: string,
    rating: int,
    content: string,
    date: Option<int>,
    aiResponse: Option<string>,
    userResponse: Option<string>,
    platformData: PlatformData,
    sentiment: Option<string>,
    isResponded: Option<bool>)

  /** `date` defaults to the creation time `now` and `isResponded` to false. */
  function NewReview(input: ReviewInput, now: int): (r: Review)
    ensures r.date == input.date.GetOr(now)
    ensures r.isResponded == input.isResponded.GetOr(false)
    ensures input.date.None? ==> r.date == now
    ensures input.isResponded.None? ==> !r.isResponded
  {
    Review(input.platform, input.author, input.avatar, input.rating, input.content,
           input.date.GetOr(now), input.aiResponse, input.userResponse, input.platformData,
           input.sentiment, input.isResponded.GetOr(false))
  }

  /** The document an upsert inserts when nothing matches: the adapter's fields and the
      schema defaults for the rest. */
  function Inserted(f: ReviewFields): (r: Review)
    ensures FieldsOf(r) == f
  {
    NewReview(ReviewInput(f.platform, f.author, f.avatar, f.rating, f.content, Some(f.date),
                          None, None, f.platformData, None, None), f.date)
  }

  /** A freshly inserted review has no response and is not marked as responded. */
  lemma InsertedDefaults(f: ReviewFields)
    ensures !Inserted(f).isResponded
    ensures Inserted(f).aiResponse.None? && Inserted(f).userResponse.None? && Inserted(f).sentiment.None?
  {
  }
}
