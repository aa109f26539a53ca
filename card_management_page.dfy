/** The card-management page of the front end: its list of cards and the form fields
    of its dialogs, and the handlers that rebuild the list with `map`, `filter` and
    object spread. Ids are the strings `Date.now().toString()` makes; here they are
    parameters. */
module CardManagementPage {
  import opened Wrappers
  import opened Lists

  datatype ImageType = Qr | Nfc3d

  datatype Slot = Slot(id: string, slotName: string, slotValue: string)

  /** `NFCCard`; `lastClicked` and `createdAt` are ISO date strings. */
  datatype NfcCard = NfcCard(
    id: string,
    name: string,
    qrCodeUrl: string,
    redirectUrl: string,
    customLink: string,
    clickCount: int,
    lastClicked: Option<string>,
    slots: seq<Slot>,
    imageType: ImageType,
    imageUrl: string,
    createdAt: string)

  /** `Partial<NFCCard>`. */
  datatype CardPatch = CardPatch(
    id: Option<string>,
    name: Option<string>,
    qrCodeUrl: Option<string>,
    redirectUrl: Option<string>,
    customLink: Option<string>,
    clickCount: Option<int>,
    lastClicked: Option<Option<string>>,
    slots: Option<seq<Slot>>,
    imageType: Option<ImageType>,
    imageUrl: Option<string>,
    createdAt: Option<string>)

  function SlotsPatch(slots: seq<Slot>): CardPatch {
    CardPatch(None, None, None, None, None, None, None, Some(slots), None, None, None)
  }

  const Placeholder: string := "/placeholder.svg?height=200&width=200"

  /** `{ ...card, ...patch }`: every key the patch gives replaces the card's, every
      other key is the card's. */
  function Merge(c: NfcCard, p: CardPatch): (r: NfcCard)
    ensures p.id.Some? ==> r.id == p.id.value
    ensures p.id.None? ==> r.id == c.id
    ensures p.name.Some? ==> r.name == p.name.value
    ensures p.name.None? ==> r.name == c.name
    ensures p.qrCodeUrl.Some? ==> r.qrCodeUrl == p.qrCodeUrl.value
    ensures p.qrCodeUrl.None? ==> r.qrCodeUrl == c.qrCodeUrl
    ensures p.redirectUrl.Some? ==> r.redirectUrl == p.redirectUrl.value
    ensures p.redirectUrl.None? ==> r.redirectUrl == c.redirectUrl
    ensures p.customLink.Some? ==> r.customLink == p.customLink.value
    ensures p.customLink.None? ==> r.customLink == c.customLink
    ensures p.clickCount.Some? ==> r.clickCount == p.clickCount.value
    ensures p.clickCount.None? ==> r.clickCount == c.clickCount
    ensures p.lastClicked.Some? ==> r.lastClicked == p.lastClicked.value
    ensures p.lastClicked.None? ==> r.lastClicked == c.lastClicked
    ensures p.slots.Some? ==> r.slots == p.slots.value
    ensures p.slots.None? ==> r.slots == c.slots
    ensures p.imageType.Some? ==> r.imageType == p.imageType.value
    ensures p.imageType.None? ==> r.imageType == c.imageType
    ensures p.imageUrl.Some? ==> r.imageUrl == p.imageUrl.value
    ensures p.imageUrl.None? ==> r.imageUrl == c.imageUrl
    ensures p.createdAt.Some? ==> r.createdAt == p.createdAt.value
    ensures p.createdAt.None? ==> r.createdAt == c.createdAt
    ensures p == CardPatch(None, None, None, None, None, None, None, None, None, None, None) ==> r == c
  {
    NfcCard(p.id.GetOr(c.id), p.name.GetOr(c.name), p.qrCodeUrl.GetOr(c.qrCodeUrl),
            p.redirectUrl.GetOr(c.redirectUrl), p.customLink.GetOr(c.customLink),
            p.clickCount.GetOr(c.clickCount), p.lastClicked.GetOr(c.lastClicked),
            p.slots.GetOr(c.slots), p.imageType.GetOr(c.imageType), p.imageUrl.GetOr(c.imageUrl),
            p.createdAt.GetOr(c.createdAt))
  }

  /** `cards.map(card => card._id === id ? { ...card, ...patch } : card)`. */
  function UpdateCards(cards: seq<NfcCard>, id: string, p: CardPatch): (r: seq<NfcCard>)
    ensures |r| == |cards|
    ensures forall i :: 0 <= i < |cards| && cards[i].id == id ==> r[i] == Merge(cards[i], p)
    ensures forall i :: 0 <= i < |cards| && cards[i].id != id ==> r[i] == cards[i]
  {
    if cards == [] then []
    else [if cards[0].id == id then Merge(cards[0], p) else cards[0]] + UpdateCards(cards[1..], id, p)
  }

  /** `cards.filter(card => card._id !== id)`. */
  function RemoveCards(cards: seq<NfcCard>, id: string): (r: seq<NfcCard>)
    ensures forall c :: c in r ==> c.id != id
    ensures forall c :: c in cards && c.id != id ==> c in r
  {
    Filter(cards, (c: NfcCard) => c.id != id)
  }

  /** The removal keeps the order of what stays: it distributes over concatenation. */
  lemma RemoveCardsKeepsOrder(a: seq<NfcCard>, b: seq<NfcCard>, id: string)
    ensures RemoveCards(a + b, id) == RemoveCards(a, id) + RemoveCards(b, id)
  {
    FilterConcat(a, b, (c: NfcCard) => c.id != id);
  }

  /** Deleting a card after an update that kept its id is deleting it straight away. */
  lemma {:induction false} DeleteAfterUpdate(cards: seq<NfcCard>, id: string, p: CardPatch)
    requires p.id.None?
    ensures RemoveCards(UpdateCards(cards, id, p), id) == RemoveCards(cards, id)
  {
    if cards != [] {
      var u := UpdateCards(cards, id, p);
      DeleteAfterUpdate(cards[1..], id, p);
      assert u[1..] == UpdateCards(cards[1..], id, p);
      assert u[0].id == cards[0].id;
      assert (u[0].id != id) ==> u[0] == cards[0];
    }
  }

  /** Updating with the same patch twice is updating once. */
  lemma {:induction false} UpdateCardsIdempotent(cards: seq<NfcCard>, id: string, p: CardPatch)
    requires p.id.None?
    ensures UpdateCards(UpdateCards(cards, id, p), id, p) == UpdateCards(cards, id, p)
  {
    var once := UpdateCards(cards, id, p);
    var twice := UpdateCards(once, id, p);
    forall i | 0 <= i < |cards|
      ensures twice[i] == once[i]
    {
      if cards[i].id == id {
        assert once[i].id == id;
      }
    }
  }

  /** `cards.find(c => c._id === id)`: the first card with that id. */
  function FindCard(cards: seq<NfcCard>, id: string): (r: Option<NfcCard>)
    ensures r.Some? ==> r.value in cards && r.value.id == id
    ensures r.None? <==> forall c :: c in cards ==> c.id != id
    ensures r.Some? ==> exists i :: 0 <= i < |cards| && cards[i] == r.value
                                   && forall j :: 0 <= j < i ==> cards[j].id != id
  {
    if cards == [] then None
    else if cards[0].id == id then Some(cards[0])
    else
      var rest := FindCard(cards[1..], id);
      assert forall c :: c in cards[1..] ==> c in cards;
      assert rest.Some? ==> exists i :: 1 <= i < |cards| && cards[i] == rest.value
                                       && forall j :: 1 <= j < i ==> cards[j].id != id;
      rest
  }

  /** `slots.map(slot => slot._id === slotId ? { ...slot, slotName, slotValue } : slot)`. */
  function UpdateSlots(slots: seq<Slot>, slotId: string, name: string, value: string): (r: seq<Slot>)
    ensures |r| == |slots|
    ensures forall i :: 0 <= i < |slots| && slots[i].id == slotId ==> r[i] == Slot(slotId, name, value)
    ensures forall i :: 0 <= i < |slots| && slots[i].id != slotId ==> r[i] == slots[i]
  {
    if slots == [] then []
    else [if slots[0].id == slotId then slots[0].(slotName := name, slotValue := value) else slots[0]]
         + UpdateSlots(slots[1..], slotId, name, value)
  }

  /** `slots.filter(slot => slot._id !== slotId)`. */
  function RemoveSlots(slots: seq<Slot>, slotId: string): (r: seq<Slot>)
    ensures forall s :: s in r ==> s.id != slotId
    ensures forall s :: s in slots && s.id != slotId ==> s in r
  {
    Filter(slots, (s: Slot) => s.id != slotId)
  }

  /** The card `handleCreateCard` builds from the form. */
  function NewCard(id: string, name: string, redirectUrl: string, imageType: ImageType,
                   imageUrl: string, createdAt: string): (c: NfcCard)
    ensures c.id == id && c.name == name && c.redirectUrl == redirectUrl && c.imageType == imageType
    ensures c.customLink == "" && c.clickCount == 0 && c.lastClicked.None? && c.slots == []
    ensures c.qrCodeUrl == Placeholder
    ensures imageUrl == "" ==> c.imageUrl == Placeholder
    ensures imageUrl != "" ==> c.imageUrl == imageUrl
  {
    NfcCard(id, name, Placeholder, redirectUrl, "", 0, None, [], imageType,
            if imageUrl != "" then imageUrl else Placeholder, createdAt)
  }

  /** `handleAddCustomizationSlot` as written. It ignores the Customize dialog it sits
      in and works on `editingCard`, which only the Update Image dialog's trigger sets
      and its Update Image button clears: with no such card it does nothing; otherwise
      that card's slots become the ones of the snapshot taken when its image dialog
      was opened, plus the new slot. */
  function AddSlotAsWritten(cards: seq<NfcCard>, editing: Option<NfcCard>, slot: Slot): seq<NfcCard> {
    match editing
    case None => cards
    case Some(e) => UpdateCards(cards, e.id, SlotsPatch(e.slots + [slot]))
  }

  /** The add-slot the page means: append to the slots that the card whose Customize
      dialog is open has now. */
  function AddSlot(cards: seq<NfcCard>, id: string, slot: Slot): (r: seq<NfcCard>)
    ensures |r| == |cards|
    ensures forall i :: 0 <= i < |cards| && cards[i].id == id ==> r[i] == cards[i].(slots := cards[i].slots + [slot])
    ensures forall i :: 0 <= i < |cards| && cards[i].id != id ==> r[i] == cards[i]
  {
    if cards == [] then []
    else [if cards[0].id == id then cards[0].(slots := cards[0].slots + [slot]) else cards[0]]
         + AddSlot(cards[1..], id, slot)
  }

  /** Open card x's image dialog and close it without Update Image, open x's Customize
      dialog, and add two slots: as written the second overwrites the first, while the
      intended add keeps both. */
  lemma SecondAddDropsFirst()
    ensures var x := NfcCard("1", "Store Front", Placeholder, "https://example.com/review", "", 0, None,
                             [], Qr, Placeholder, "2023-05-01T00:00:00Z");
      var s1 := Slot("a", "Color", "Blue");
      var s2 := Slot("b", "Size", "Large");
      && AddSlotAsWritten(AddSlotAsWritten([x], Some(x), s1), Some(x), s2)[0].slots == [s2]
      && AddSlot(AddSlot([x], "1", s1), "1", s2)[0].slots == [s1, s2]
  {
    var x := NfcCard("1", "Store Front", Placeholder, "https://example.com/review", "", 0, None,
                     [], Qr, Placeholder, "2023-05-01T00:00:00Z");
    var s1 := Slot("a", "Color", "Blue");
    var s2 := Slot("b", "Size", "Large");
    assert AddSlot([x], "1", s1)[0].slots == [s1];
    assert AddSlot(AddSlot([x], "1", s1), "1", s2)[0].slots == [s1] + [s2];
  }

  /** As written the add goes to the wrong card or nowhere: in card y's Customize
      dialog it does nothing when no image dialog was left open, and after card x's
      image dialog was opened and closed without Update Image it adds to x and leaves
      y alone. The intended add gives the slot to y. */
  lemma AddGoesToEditedCard()
    ensures var x := NfcCard("1", "Store Front", Placeholder, "https://example.com/review", "", 0, None,
                             [], Qr, Placeholder, "2023-05-01T00:00:00Z");
      var y := NfcCard("2", "Counter", Placeholder, "https://example.com/review", "", 0, None,
                       [], Nfc3d, Placeholder, "2023-05-02T00:00:00Z");
      var s1 := Slot("a", "Color", "Blue");
      && AddSlotAsWritten([x, y], None, s1) == [x, y]
      && AddSlotAsWritten([x, y], Some(x), s1) == [x.(slots := [s1]), y]
      && AddSlot([x, y], "2", s1) == [x, y.(slots := [s1])]
  {
    var x := NfcCard("1", "Store Front", Placeholder, "https://example.com/review", "", 0, None,
                     [], Qr, Placeholder, "2023-05-01T00:00:00Z");
    var y := NfcCard("2", "Counter", Placeholder, "https://example.com/review", "", 0, None,
                     [], Nfc3d, Placeholder, "2023-05-02T00:00:00Z");
    var s1 := Slot("a", "Color", "Blue");
    var w := AddSlotAsWritten([x, y], Some(x), s1);
    assert w[0] == Merge(x, SlotsPatch([s1])) && w[1] == y;
    var r := AddSlot([x, y], "2", s1);
    assert r[0] == x && r[1] == y.(slots := [s1]);
  }

  /** The intended add never loses a slot: every earlier slot of every card is still there. */
  lemma AddSlotKeepsSlots(cards: seq<NfcCard>, id: string, slot: Slot)
    ensures forall i :: 0 <= i < |cards| ==> cards[i].slots <= AddSlot(cards, id, slot)[i].slots
  {
  }

  /** The page's state: the list and the form fields its handlers read and reset. */
  class CardManager {
    var cards: seq<NfcCard>
    var newCardName: string
    var newRedirectUrl: string
    var editingCard: Option<NfcCard>
    var newSlotName: string
    var newSlotValue: string
    var newImageType: ImageType
    var newImageUrl: string

    /** The initial `useState` values. */
    constructor (initial: seq<NfcCard>)
      ensures cards == initial && editingCard.None?
      ensures newCardName == "" && newRedirectUrl == "" && newSlotName == "" && newSlotValue == ""
      ensures newImageType == Qr && newImageUrl == ""
    {
      cards := initial;
      newCardName := "";
      newRedirectUrl := "";
      editingCard := None;
      newSlotName := "";
      newSlotValue := "";
      newImageType := Qr;
      newImageUrl := "";
    }

    /** `handleCreateCard`: appends the card built from the form and clears the form. */
    method CreateCard(id: string, createdAt: string)
      modifies this
      ensures cards == old(cards) + [NewCard(id, old(newCardName), old(newRedirectUrl), old(newImageType),
                                             old(newImageUrl), createdAt)]
      ensures newCardName == "" && newRedirectUrl == "" && newImageType == Qr && newImageUrl == ""
      ensures editingCard == old(editingCard) && newSlotName == old(newSlotName) && newSlotValue == old(newSlotValue)
    {
      cards := cards + [NewCard(id, newCardName, newRedirectUrl, newImageType, newImageUrl, createdAt)];
      newCardName := "";
      newRedirectUrl := "";
      newImageType := Qr;
      newImageUrl := "";
    }

    /** `handleUpdateCard`. */
    method UpdateCard(id: string, p: CardPatch)
      modifies this
      ensures cards == UpdateCards(old(cards), id, p)
      ensures unchanged(this`editingCard, this`newCardName, this`newRedirectUrl, this`newSlotName,
                        this`newSlotValue, this`newImageType, this`newImageUrl)
    {
      cards := UpdateCards(cards, id, p);
    }

    /** `handleDeleteCard`. */
    method DeleteCard(id: string)
      modifies this
      ensures cards == RemoveCards(old(cards), id)
      ensures unchanged(this`editingCard, this`newCardName, this`newRedirectUrl, this`newSlotName,
                        this`newSlotValue, this`newImageType, this`newImageUrl)
    {
      cards := RemoveCards(cards, id);
    }

    /** `setEditingCard(card)` from the trigger of a card's Update Image dialog. Closing
        that dialog any other way than with Update Image does not clear it. */
    method OpenEditor(card: NfcCard)
      modifies this`editingCard
      ensures editingCard == Some(card)
    {
      editingCard := Some(card);
    }

    /** The Update Image button: the card's type and image become the dialog's fields,
        and no card is being edited any more. */
    method UpdateImage(id: string)
      modifies this`cards, this`editingCard
      ensures cards == UpdateCards(old(cards), id,
                         CardPatch(None, None, None, None, None, None, None, None, Some(newImageType),
                                   Some(newImageUrl), None))
      ensures editingCard.None?
    {
      cards := UpdateCards(cards, id, CardPatch(None, None, None, None, None, None, None, None,
                                                Some(newImageType), Some(newImageUrl), None));
      editingCard := None;
    }

    /** `handleAddCustomizationSlot` as written: the add follows `editingCard`, and the
        slot fields are cleared only when there is one. */
    method AddCustomizationSlotAsWritten(slotId: string)
      modifies this`cards, this`newSlotName, this`newSlotValue
      ensures cards == AddSlotAsWritten(old(cards), editingCard, Slot(slotId, old(newSlotName), old(newSlotValue)))
      ensures editingCard.None? ==> newSlotName == old(newSlotName) && newSlotValue == old(newSlotValue)
      ensures editingCard.Some? ==> newSlotName == "" && newSlotValue == ""
    {
      if editingCard.None? {
        return;
      }
      var e := editingCard.value;
      cards := UpdateCards(cards, e.id, SlotsPatch(e.slots + [Slot(slotId, newSlotName, newSlotValue)]));
      newSlotName := "";
      newSlotValue := "";
    }

    /** The Add Slot button of card `cardId`'s Customize dialog, as the page means it: the
        new slot goes at the end of that card's current slots, and the slot fields are
        cleared. */
    method AddCustomizationSlot(cardId: string, slotId: string)
      modifies this`cards, this`newSlotName, this`newSlotValue
      ensures cards == AddSlot(old(cards), cardId, Slot(slotId, old(newSlotName), old(newSlotValue)))
      ensures newSlotName == "" && newSlotValue == ""
    {
      cards := AddSlot(cards, cardId, Slot(slotId, newSlotName, newSlotValue));
      newSlotName := "";
      newSlotValue := "";
    }

    /** `handleUpdateCustomizationSlot`: nothing happens for an unknown card; otherwise
      every card with that id gets the first such card's slots with the one slot renamed. */
    method UpdateCustomizationSlot(cardId: string, slotId: string, slotName: string, slotValue: string)
      modifies this`cards
      ensures FindCard(old(cards), cardId).None? ==> cards == old(cards)
      ensures FindCard(old(cards), cardId).Some? ==>
        cards == UpdateCards(old(cards), cardId,
                   SlotsPatch(UpdateSlots(FindCard(old(cards), cardId).value.slots, slotId, slotName, slotValue)))
    {
      var card := FindCard(cards, cardId);
      if card.None? {
        return;
      }
      cards := UpdateCards(cards, cardId, SlotsPatch(UpdateSlots(card.value.slots, slotId, slotName, slotValue)));
    }

    /** `handleDeleteCustomizationSlot`: nothing happens for an unknown card; otherwise
      the slot is removed from that card's list. */
    method DeleteCustomizationSlot(cardId: string, slotId: string)
      modifies this`cards
      ensures FindCard(old(cards), cardId).None? ==> cards == old(cards)
      ensures FindCard(old(cards), cardId).Some? ==>
        cards == UpdateCards(old(cards), cardId, SlotsPatch(RemoveSlots(FindCard(old(cards), cardId).value.slots, slotId)))
    {
      var card := FindCard(cards, cardId);
      if card.None? {
        return;
      }
      cards := UpdateCards(cards, cardId, SlotsPatch(RemoveSlots(card.value.slots, slotId)));
    }
  }

  /** A slot update on the only card with that id renames just that slot, on just that
      card: every other card, and every other slot, is as it was. */
  lemma SlotUpdateIsLocal(cards: seq<NfcCard>, k: nat, slotId: string, name: string, value: string)
    requires k < |cards|
    requires forall j :: 0 <= j < |cards| && j != k ==> cards[j].id != cards[k].id
    ensures var after := UpdateCards(cards, cards[k].id,
                           SlotsPatch(UpdateSlots(FindCard(cards, cards[k].id).value.slots, slotId, name, value)));
      && |after| == |cards|
      && (forall j :: 0 <= j < |cards| && j != k ==> after[j] == cards[j])
      && after[k] == cards[k].(slots := UpdateSlots(cards[k].slots, slotId, name, value))
  {
    var found := FindCard(cards, cards[k].id);
    assert found.value == cards[k];
  }

  /** A slot delete on the only card with that id drops the slots with that slot id from
      that card and nothing else. */
  lemma SlotDeleteIsLocal(cards: seq<NfcCard>, k: nat, slotId: string)
    requires k < |cards|
    requires forall j :: 0 <= j < |cards| && j != k ==> cards[j].id != cards[k].id
    ensures var after := UpdateCards(cards, cards[k].id,
                           SlotsPatch(RemoveSlots(FindCard(cards, cards[k].id).value.slots, slotId)));
      && (forall j :: 0 <= j < |cards| && j != k ==> after[j] == cards[j])
      && after[k] == cards[k].(slots := RemoveSlots(cards[k].slots, slotId))
      && (forall s :: s in after[k].slots ==> s.id != slotId)
      && (forall s :: s in cards[k].slots && s.id != slotId ==> s in after[k].slots)
  {
    var found := FindCard(cards, cards[k].id);
    assert found.value == cards[k];
  }
}
