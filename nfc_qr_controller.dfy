/** `nfcQrController`: QR generation with its option merge, and the create, list,
    update and delete handlers over the card collection. */
module NfcQrController {
  import opened Wrappers
  import opened JsText
  import opened Lists
  import opened NfcQrCardModel

  // ---------------------------------------------------------------- QR generation

  datatype Color = Color(dark: Option<string>, light: Option<string>)

  /** The options handed to the renderer. `mimeType` is the `type` key; `quality` is a
      number kept as its decimal text; `width` is absent unless someone sets it. */
  datatype QrOptions = QrOptions(
    errorCorrectionLevel: string,
    mimeType: string,
    quality: string,
    margin: int,
    color: Color,
    width: Option<int>)

  /** The caller's `options` object: each key possibly absent. */
  datatype Overrides = Overrides(
    errorCorrectionLevel: Option<string>,
    mimeType: Option<string>,
    quality: Option<string>,
    margin: Option<int>,
    color: Option<Color>,
    width: Option<int>)

  const DefaultOptions: QrOptions :=
    QrOptions("H", "image/png", "0.92", 1, Color(Some("#000000"), Some("#FFFFFF")), None)

  const PreviewWidth: int := 100

  /** `{ ...defaults, ...options }` with `options = {}` when the body has none: a key
      the caller gives wins whole, every other key keeps its default. */
  function Merge(options: Option<Overrides>): (o: QrOptions)
    ensures options.None? ==> o == DefaultOptions
    ensures options.Some? ==>
      var c := options.value;
      && o.errorCorrectionLevel == c.errorCorrectionLevel.GetOr(DefaultOptions.errorCorrectionLevel)
      && o.mimeType == c.mimeType.GetOr(DefaultOptions.mimeType)
      && o.quality == c.quality.GetOr(DefaultOptions.quality)
      && o.margin == c.margin.GetOr(DefaultOptions.margin)
      && o.color == c.color.GetOr(DefaultOptions.color)
      && o.width == c.width
  {
    match options
    case None => DefaultOptions
    case Some(c) =>
      QrOptions(c.errorCorrectionLevel.GetOr(DefaultOptions.errorCorrectionLevel),
                c.mimeType.GetOr(DefaultOptions.mimeType),
                c.quality.GetOr(DefaultOptions.quality),
                c.margin.GetOr(DefaultOptions.margin),
                c.color.GetOr(DefaultOptions.color),
                c.width)
  }

  /** The merge is shallow: a caller colour with only `dark` leaves no `light`. */
  lemma ColourReplacedWhole(dark: string)
    ensures Merge(Some(Overrides(None, None, None, None, Some(Color(Some(dark), None)), None))).color.light.None?
  {
  }

  /** An empty `options` object and a missing one give the same merge. */
  lemma EmptyOverridesAreDefaults()
    ensures Merge(Some(Overrides(None, None, None, None, None, None))) == Merge(None)
  {
  }

  /** `{ ...qrOptions, width: 100 }`. */
  function Preview(o: QrOptions): (p: QrOptions)
    ensures p.width == Some(PreviewWidth)
    ensures p.(width := o.width) == o
  {
    o.(width := Some(PreviewWidth))
  }

  datatype QrReply =
    | Generated(qrCodeUrl: string, previewUrl: string, data: string, options: QrOptions)
    | QrFailed(status: int, message: string)

  /** `generateQrCode`. `render` stands for `QRCode.toDataURL`, a failure being its
      rejection. */
  function GenerateQrCode(data: Option<string>, options: Option<Overrides>,
                          render: (string, QrOptions) -> Result<string, string>): (r: QrReply)
    ensures !Truthy(data) <==> r == QrFailed(400, "Data is required for QR code generation")
    ensures Truthy(data) ==>
      (r.Generated? <==> render(data.value, Merge(options)).Success?
                         && render(data.value, Preview(Merge(options))).Success?)
    ensures Truthy(data) && r.QrFailed? ==> r == QrFailed(500, "Error generating QR code")
    ensures r.Generated? ==>
      && r.data == data.value
      && r.options == Merge(options)
      && r.qrCodeUrl == render(data.value, Merge(options)).value
      && r.previewUrl == render(data.value, Preview(Merge(options))).value
  {
    if !Truthy(data) then QrFailed(400, "Data is required for QR code generation")
    else
      var qrOptions := Merge(options);
      match render(data.value, qrOptions)
      case Failure(_) => QrFailed(500, "Error generating QR code")
      case Success(qrCodeUrl) =>
        match render(data.value, Preview(qrOptions))
        case Failure(_) => QrFailed(500, "Error generating QR code")
        case Success(previewUrl) => Generated(qrCodeUrl, previewUrl, data.value, qrOptions)
  }

  /** Without data the renderer is never consulted: any two renderers give the same reply. */
  lemma NoDataNoRender(data: Option<string>, options: Option<Overrides>,
                       r1: (string, QrOptions) -> Result<string, string>,
                       r2: (string, QrOptions) -> Result<string, string>)
    requires !Truthy(data)
    ensures GenerateQrCode(data, options, r1) == GenerateQrCode(data, options, r2)
  {
  }

  /** The preview is rendered at width 100 whatever the caller asked for, and the reply
      echoes the caller's width, not the preview's. */
  lemma PreviewWidthForced(data: string, c: Overrides, render: (string, QrOptions) -> Result<string, string>)
    requires data != ""
    requires GenerateQrCode(Some(data), Some(c), render).Generated?
    ensures GenerateQrCode(Some(data), Some(c), render).options.width == c.width
    ensures GenerateQrCode(Some(data), Some(c), render).previewUrl
         == render(data, Merge(Some(c)).(width := Some(100))).value
  {
  }

  // ---------------------------------------------------------------- the card collection

  /** The `:id` route parameter: an ObjectId, or text that does not cast to one. */
  datatype RouteId = WellFormed(id: nat) | Malformed(text: string)

  /** The body of an update: any subset of the card's fields. */
  datatype CardPatch = CardPatch(
    name: Option<string>,
    qrCodeUrl: Option<string>,
    redirectUrl: Option<string>,
    customLink: Option<string>,
    clickCount: Option<int>,
    lastClicked: Option<int>,
    customizationSlots: Option<seq<CardSlot>>,
    imageType: Option<string>,
    imageUrl: Option<string>)

  /** `$set` of the given fields, with no validation. */
  function Patched(c: NfcQrCard, p: CardPatch): (r: NfcQrCard)
    ensures r.id == c.id && r.createdAt == c.createdAt
    ensures p == CardPatch(None, None, None, None, None, None, None, None, None) ==> r == c
    ensures p.name.Some? ==> r.name == p.name.value
    ensures p.name.None? ==> r.name == c.name
    ensures p.qrCodeUrl.Some? ==> r.qrCodeUrl == p.qrCodeUrl.value
    ensures p.qrCodeUrl.None? ==> r.qrCodeUrl == c.qrCodeUrl
    ensures p.redirectUrl.Some? ==> r.redirectUrl == p.redirectUrl.value
    ensures p.redirectUrl.None? ==> r.redirectUrl == c.redirectUrl
    ensures p.customLink.Some? ==> r.customLink == p.customLink.value
    ensures p.customLink.None? ==> r.customLink == c.customLink
    ensures p.clickCount.Some? ==> r.clickCount == p.clickCount.value
    ensures p.clickCount.None? ==> r.clickCount == c.clickCount
    ensures p.customizationSlots.Some? ==> r.customizationSlots == p.customizationSlots.value
    ensures p.customizationSlots.None? ==> r.customizationSlots == c.customizationSlots
    ensures p.imageType.Some? ==> r.imageType == p.imageType.value
    ensures p.imageType.None? ==> r.imageType == c.imageType
    ensures p.imageUrl.Some? ==> r.imageUrl == p.imageUrl.value
    ensures p.imageUrl.None? ==> r.imageUrl == c.imageUrl
    ensures p.lastClicked.Some? ==> r.lastClicked == p.lastClicked
    ensures p.lastClicked.None? ==> r.lastClicked == c.lastClicked
  {
    NfcQrCard(c.id, p.name.GetOr(c.name), p.qrCodeUrl.GetOr(c.qrCodeUrl), p.redirectUrl.GetOr(c.redirectUrl),
              p.customLink.GetOr(c.customLink), p.clickCount.GetOr(c.clickCount),
              if p.lastClicked.Some? then p.lastClicked else c.lastClicked,
              p.customizationSlots.GetOr(c.customizationSlots), p.imageType.GetOr(c.imageType),
              p.imageUrl.GetOr(c.imageUrl), c.createdAt)
  }

  /** Applying the same patch twice is applying it once. */
  lemma PatchedIdempotent(c: NfcQrCard, p: CardPatch)
    ensures Patched(Patched(c, p), p) == Patched(c, p)
  {
  }

  /** Updates skip the schema validators, so an update can store an image type outside
      the enum that a create would have refused. */
  lemma UpdateBypassesEnum(c: NfcQrCard)
    ensures Patched(c, CardPatch(None, None, None, None, None, None, None, Some("png"), None)).imageType !in ImageTypes
  {
  }

  /** `findById`: the position of the card with that id. */
  function Locate(cards: seq<NfcQrCard>, id: nat): Option<nat> {
    FindFirst(cards, IdOf, id)
  }

  function IdOf(c: NfcQrCard): nat {
    c.id
  }

  function ByCreatedAt(c: NfcQrCard): int {
    c.createdAt
  }

  predicate UniqueIds(cards: seq<NfcQrCard>) {
    forall i, j :: 0 <= i < j < |cards| ==> cards[i].id != cards[j].id
  }

  datatype CardReply =
    | CardBody(status: int, card: NfcQrCard)
    | CardMessage(status: int, message: string)

  const NotFound: CardReply := CardMessage(404, "Card not found")

  class CardStore {
    var cards: seq<NfcQrCard>
    var nextId: nat

    constructor ()
      ensures cards == [] && nextId == 0 && Valid()
    {
      cards := [];
      nextId := 0;
    }

    /** Ids are unique and every one was handed out before `nextId`. */
    predicate Valid()
      reads this
    {
      UniqueIds(cards) && forall i :: 0 <= i < |cards| ==> cards[i].id < nextId
    }

    /** `createCard`: 201 with the saved card, or 500 when validation fails. */
    method CreateCard(input: CardInput, now: int) returns (reply: CardReply)
      requires Valid()
      modifies this
      ensures Valid()
      ensures var made := NewCard(input, old(nextId), now);
        && (made.Success? ==> cards == old(cards) + [made.value] && nextId == old(nextId) + 1
                              && reply == CardBody(201, made.value))
        && (made.Failure? ==> cards == old(cards) && nextId == old(nextId)
                              && reply == CardMessage(500, "Error creating NFC/QR card"))
    {
      var made := NewCard(input, nextId, now);
      if made.Failure? {
        return CardMessage(500, "Error creating NFC/QR card");
      }
      cards := cards + [made.value];
      nextId := nextId + 1;
      reply := CardBody(201, made.value);
    }

    /** `getAllCards`: every card, newest first. */
    function AllCards(): (r: seq<NfcQrCard>)
      reads this
      ensures SortedDesc(r, ByCreatedAt)
      ensures multiset(r) == multiset(cards)
    {
      SortDesc(cards, ByCreatedAt)
    }

    /** `updateCard`: the patched card with 200, 404 for an unknown id, 500 for an id
        that does not cast; only a found card changes. */
    method UpdateCard(route: RouteId, patch: CardPatch) returns (reply: CardReply)
      requires Valid()
      modifies this
      ensures Valid() && nextId == old(nextId)
      ensures route.Malformed? ==> cards == old(cards) && reply == CardMessage(500, "Error updating NFC/QR card")
      ensures route.WellFormed? && Locate(old(cards), route.id).None? ==> cards == old(cards) && reply == NotFound
      ensures route.WellFormed? && Locate(old(cards), route.id).Some? ==>
        var i := Locate(old(cards), route.id).value;
        cards == old(cards)[i := Patched(old(cards)[i], patch)] && reply == CardBody(200, cards[i])
    {
      if route.Malformed? {
        return CardMessage(500, "Error updating NFC/QR card");
      }
      var found := Locate(cards, route.id);
      if found.None? {
        return NotFound;
      }
      var i := found.value;
      cards := cards[i := Patched(cards[i], patch)];
      reply := CardBody(200, cards[i]);
    }

    /** `deleteCard`: removes the card with 200, 404 for an unknown id, 500 for an id
        that does not cast. */
    method DeleteCard(route: RouteId) returns (reply: CardReply)
      requires Valid()
      modifies this
      ensures Valid() && nextId == old(nextId)
      ensures route.Malformed? ==> cards == old(cards) && reply == CardMessage(500, "Error deleting NFC/QR card")
      ensures route.WellFormed? && Locate(old(cards), route.id).None? ==> cards == old(cards) && reply == NotFound
      ensures route.WellFormed? && Locate(old(cards), route.id).Some? ==>
        var i := Locate(old(cards), route.id).value;
        cards == old(cards)[..i] + old(cards)[i + 1..] && reply == CardMessage(200, "Card deleted successfully")
    {
      if route.Malformed? {
        return CardMessage(500, "Error deleting NFC/QR card");
      }
      var found := Locate(cards, route.id);
      if found.None? {
        return NotFound;
      }
      var i := found.value;
      cards := cards[..i] + cards[i + 1..];
      reply := CardMessage(200, "Card deleted successfully");
    }
  }

  /** After a delete no card with that id is left, and every other card still is. */
  lemma DeleteRemovesOnlyThatCard(cards: seq<NfcQrCard>, i: nat)
    requires UniqueIds(cards) && i < |cards|
    ensures var rest := cards[..i] + cards[i + 1..];
      && UniqueIds(rest)
      && Locate(rest, cards[i].id).None?
      && forall j :: 0 <= j < |cards| && j != i ==> cards[j] in rest
  {
    var rest := cards[..i] + cards[i + 1..];
    forall j | 0 <= j < |cards| && j != i
      ensures cards[j] in rest
    {
      if j < i { assert rest[j] == cards[j]; } else { assert rest[j - 1] == cards[j]; }
    }
  }
}
