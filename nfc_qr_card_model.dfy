/** The `NfcQrCard` document and what `new NfcQrCard(body).save()` makes of a request
    body: defaults are filled in, and the required fields and the image-type enum
    are validated. */
module NfcQrCardModel {
  import opened Wrappers

  /** A `customizationSlots` entry; both strings are optional in the schema. */
  datatype CardSlot = CardSlot(slotName: Option<string>, slotValue: Option<string>)

  /** A stored card; `id` is the document's `_id`, `lastClicked` and `createdAt` are
      epoch milliseconds. */
  datatype NfcQrCard = NfcQrCard(
    id: nat,
    name: string,
    qrCodeUrl: string,
    redirectUrl: string,
    customLink: string,
    clickCount: int,
    lastClicked: Option<int>,
    customizationSlots: seq<CardSlot>,
    imageType: string,
    imageUrl: string,
    createdAt: int)

  /** The request body of a create: every schema field, each possibly absent. */
  datatype CardInput = CardInput(
    name: Option<string>,
    qrCodeUrl: Option<string>,
    redirectUrl: Option<string>,
    customLink: Option<string>,
    clickCount: Option<int>,
    lastClicked: Option<int>,
    customizationSlots: Option<seq<CardSlot>>,
    imageType: Option<string>,
    imageUrl: Option<string>,
    createdAt: Option<int>)

  const ImageTypes: set<string> := {"qr", "3d_nfc"}

  /** The `required` validator of a string path: absent and "" both fail. */
  predicate Present(s: Option<string>) {
    s.Some? && s.value != ""
  }

  /** The enum validator: an absent value passes, a given one must be listed. */
  predicate ImageTypeAllowed(t: Option<string>) {
    t.None? || t.value in ImageTypes
  }

  predicate ValidInput(input: CardInput) {
    Present(input.name) && Present(input.qrCodeUrl) && Present(input.redirectUrl)
    && Present(input.imageUrl) && ImageTypeAllowed(input.imageType)
  }

  /** `new NfcQrCard(body)` followed by the validation `save` runs. `now` stands for
      `Date.now()`, `id` for the generated `_id`. */
  function NewCard(input: CardInput, id: nat, now: int): (r: Result<NfcQrCard, string>)
    ensures r.Failure? <==> !ValidInput(input)
    ensures r.Failure? ==> r.error == "ValidationError"
    ensures r.Success? ==>
      && r.value.id == id
      && Some(r.value.name) == input.name && r.value.name != ""
      && Some(r.value.qrCodeUrl) == input.qrCodeUrl && r.value.qrCodeUrl != ""
      && Some(r.value.redirectUrl) == input.redirectUrl && r.value.redirectUrl != ""
      && Some(r.value.imageUrl) == input.imageUrl && r.value.imageUrl != ""
      && r.value.imageType in ImageTypes
  {
    if !ValidInput(input) then Failure("ValidationError")
    else Success(NfcQrCard(
      id, input.name.value, input.qrCodeUrl.value, input.redirectUrl.value,
      input.customLink.GetOr(""), input.clickCount.GetOr(0), input.lastClicked,
      input.customizationSlots.GetOr([]), input.imageType.GetOr("qr"),
      input.imageUrl.value, input.createdAt.GetOr(now)))
  }

  /** The schema defaults: no custom link, no clicks, never clicked, no slots, a QR
      image, created now. */
  lemma NewCardDefaults(input: CardInput, id: nat, now: int)
    requires ValidInput(input)
    requires input.customLink.None? && input.clickCount.None? && input.lastClicked.None?
    requires input.customizationSlots.None? && input.imageType.None? && input.createdAt.None?
    ensures var c := NewCard(input, id, now).value;
      && c.customLink == "" && c.clickCount == 0 && c.lastClicked.None?
      && c.customizationSlots == [] && c.imageType == "qr" && c.createdAt == now
  {
  }

  /** A given optional value is kept as it is. */
  lemma NewCardKeepsGivenValues(input: CardInput, id: nat, now: int)
    requires ValidInput(input)
    ensures var c := NewCard(input, id, now).value;
      && (input.customLink.Some? ==> c.customLink == input.customLink.value)
      && (input.clickCount.Some? ==> c.clickCount == input.clickCount.value)
      && c.lastClicked == input.lastClicked
      && (input.customizationSlots.Some? ==> c.customizationSlots == input.customizationSlots.value)
      && (input.imageType.Some? ==> c.imageType == input.imageType.value)
      && (input.createdAt.Some? ==> c.createdAt == input.createdAt.value)
  {
  }
}
