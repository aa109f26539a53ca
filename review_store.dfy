/** The review collection as the adapters use it: `Review.findOneAndUpdate(filter,
    fields, { upsert: true, new: true })` with a filter on one external-id field.
    The spec functions say what one upsert and a batch of upserts do to the sequence
    of stored documents; the lemmas state the reconciliation properties (keys stay
    unique, last write wins, a re-sync changes nothing, a failed batch keeps what it
    wrote); the class is the store the adapters change in place. */
module ReviewStore {
  import opened Wrappers
  import opened Errors
  import opened ReviewModel

  /** One upsert: look the document up by `key` in the external-id field, write `fields`. */
  datatype Write = Write(key: string, fields: ReviewFields)

  /** The written fields carry the lookup key in the looked-up field, as every adapter's do. */
  predicate KeyedBy(w: Write, k: KeyField) {
    IdIn(w.fields.platformData, k) == Some(w.key)
  }

  predicate WellKeyed(ws: seq<Write>, k: KeyField) {
    forall i :: 0 <= i < |ws| ==> KeyedBy(ws[i], k)
  }

  /** The document `findOneAndUpdate` picks: the first, in store order, whose field k is key. */
  function FirstMatch(rs: seq<Review>, k: KeyField, key: string): (r: Option<nat>)
    ensures r.Some? ==> r.value < |rs| && KeyOf(rs[r.value], k) == Some(key)
    ensures r.Some? ==> forall j :: 0 <= j < r.value ==> KeyOf(rs[j], k) != Some(key)
    ensures r.None? ==> forall j :: 0 <= j < |rs| ==> KeyOf(rs[j], k) != Some(key)
  {
    if rs == [] then None
    else if KeyOf(rs[0], k) == Some(key) then Some(0)
    else
      match FirstMatch(rs[1..], k, key)
      case Some(i) =>
        assert forall j :: 1 <= j <= i ==> rs[j] == rs[1..][j - 1];
        Some(i + 1)
      case None =>
        assert forall j :: 1 <= j < |rs| ==> rs[j] == rs[1..][j - 1];
        None
  }

  /** The store after one upsert: the first match gets the new fields, or, when nothing
      matches, a new document with the schema defaults is appended. */
  function Upserted(rs: seq<Review>, k: KeyField, w: Write): seq<Review> {
    match FirstMatch(rs, k, w.key)
    case Some(i) => rs[i := Overwrite(rs[i], w.fields)]
    case None => rs + [Inserted(w.fields)]
  }

  /** The store after a batch of upserts, one after the other. */
  function SyncAll(rs: seq<Review>, k: KeyField, ws: seq<Write>): seq<Review>
    decreases |ws|
  {
    if ws == [] then rs else SyncAll(Upserted(rs, k, ws[0]), k, ws[1..])
  }

  /** The fields of the last write in the batch for key, if any write has that key. */
  function LastFor(ws: seq<Write>, key: string): (r: Option<ReviewFields>)
    ensures r.Some? ==> exists i :: 0 <= i < |ws| && ws[i] == Write(key, r.value) &&
                          forall j :: i < j < |ws| ==> ws[j].key != key
    ensures r.None? <==> forall i :: 0 <= i < |ws| ==> ws[i].key != key
  {
    if ws == [] then None
    else
      assert forall i :: 1 <= i < |ws| ==> ws[i] == ws[1..][i - 1];
      match LastFor(ws[1..], key)
      case Some(f) => Some(f)
      case None => if ws[0].key == key then Some(ws[0].fields) else None
  }

  /** No two documents share a value of the external-id field k. */
  predicate Unique(rs: seq<Review>, k: KeyField) {
    forall i, j :: 0 <= i < j < |rs| && KeyOf(rs[i], k).Some? ==> KeyOf(rs[i], k) != KeyOf(rs[j], k)
  }

  /** Two stores that agree on field k over the first one's documents find the same
      first match for a key the first one holds. */
  lemma FirstMatchStable(s: seq<Review>, t: seq<Review>, k: KeyField, key: string)
    requires |s| <= |t|
    requires forall j :: 0 <= j < |s| ==> KeyOf(t[j], k) == KeyOf(s[j], k)
    requires FirstMatch(s, k, key).Some?
    ensures FirstMatch(t, k, key) == FirstMatch(s, k, key)
  {
    var i := FirstMatch(s, k, key).value;
    assert KeyOf(t[i], k) == Some(key);
  }

  /** One upsert: documents keep their keys, at most one is appended (only when the key
      was absent), the key is present afterwards, and the only document that changes
      is the first match, which gets the written fields. */
  lemma UpsertedShape(s: seq<Review>, k: KeyField, w: Write)
    requires KeyedBy(w, k)
    ensures var r := Upserted(s, k, w);
      && |s| <= |r| <= |s| + 1
      && (forall j :: 0 <= j < |s| ==> KeyOf(r[j], k) == KeyOf(s[j], k))
      && (|r| == |s| + 1 <==> FirstMatch(s, k, w.key).None?)
      && (|r| == |s| + 1 ==> r[|s|] == Inserted(w.fields))
      && (forall j :: 0 <= j < |s| && Some(j) != FirstMatch(s, k, w.key) ==> r[j] == s[j])
      && FirstMatch(r, k, w.key).Some?
      && FieldsOf(r[FirstMatch(r, k, w.key).value]) == w.fields
  {
    var r := Upserted(s, k, w);
    match FirstMatch(s, k, w.key)
    case Some(i) =>
      FirstMatchStable(s, r, k, w.key);
    case None =>
      assert KeyOf(r[|s|], k) == Some(w.key);
  }

  /** A batch never removes a document, never changes a document's key, and changes
      only the fields an adapter writes. */
  lemma {:induction false} SyncAllGrows(s: seq<Review>, k: KeyField, ws: seq<Write>)
    requires WellKeyed(ws, k)
    ensures var t := SyncAll(s, k, ws);
      && |s| <= |t|
      && (forall j :: 0 <= j < |s| ==> KeyOf(t[j], k) == KeyOf(s[j], k))
      && (forall j :: 0 <= j < |s| ==> t[j] == Overwrite(s[j], FieldsOf(t[j])))
    decreases |ws|
  {
    if ws != [] {
      var u := Upserted(s, k, ws[0]);
      assert KeyedBy(ws[0], k);
      UpsertedShape(s, k, ws[0]);
      assert forall j :: 0 <= j < |s| ==> u[j] == Overwrite(s[j], FieldsOf(u[j]));
      assert WellKeyed(ws[1..], k) by {
        forall i | 0 <= i < |ws[1..]| ensures KeyedBy(ws[1..][i], k) { assert ws[1..][i] == ws[i + 1]; }
      }
      SyncAllGrows(u, k, ws[1..]);
      var t := SyncAll(u, k, ws[1..]);
      assert t == SyncAll(s, k, ws);
      forall j | 0 <= j < |s|
        ensures t[j] == Overwrite(s[j], FieldsOf(t[j]))
      {
        OverwriteAbsorbs(s[j], FieldsOf(u[j]), FieldsOf(t[j]));
      }
    }
  }

  /** A document the batch does not address (no key, a key no write carries, or not the
      first holder of its key) comes out as it went in. */
  lemma {:induction false} SyncAllUntouched(s: seq<Review>, k: KeyField, ws: seq<Write>, j: nat)
    requires WellKeyed(ws, k)
    requires j < |s|
    requires KeyOf(s[j], k).None? || LastFor(ws, KeyOf(s[j], k).value).None?
             || FirstMatch(s, k, KeyOf(s[j], k).value) != Some(j)
    ensures j < |SyncAll(s, k, ws)| && SyncAll(s, k, ws)[j] == s[j]
    decreases |ws|
  {
    if ws != [] {
      var u := Upserted(s, k, ws[0]);
      assert KeyedBy(ws[0], k);
      UpsertedShape(s, k, ws[0]);
      assert u[j] == s[j];
      if KeyOf(s[j], k).Some? && FirstMatch(s, k, KeyOf(s[j], k).value) != Some(j) {
        var key := KeyOf(s[j], k).value;
        FirstMatchStable(s, u, k, key);
      }
      if KeyOf(s[j], k).Some? && LastFor(ws, KeyOf(s[j], k).value).None? {
        assert LastFor(ws[1..], KeyOf(s[j], k).value).None?;
      }
      SyncAllUntouched(u, k, ws[1..], j);
    }
  }

  /** Last write wins: for every key of the batch, the document now holding that key
      carries the fields of the last write with that key. */
  lemma {:induction false} SyncAllLastWins(s: seq<Review>, k: KeyField, ws: seq<Write>, key: string)
    requires WellKeyed(ws, k)
    requires LastFor(ws, key).Some?
    ensures var t := SyncAll(s, k, ws);
      FirstMatch(t, k, key).Some? && FieldsOf(t[FirstMatch(t, k, key).value]) == LastFor(ws, key).value
    decreases |ws|
  {
    var u := Upserted(s, k, ws[0]);
    assert KeyedBy(ws[0], k);
    assert WellKeyed(ws[1..], k);
    if LastFor(ws[1..], key).Some? {
      SyncAllLastWins(u, k, ws[1..], key);
    } else {
      assert ws[0].key == key;
      UpsertedShape(s, k, ws[0]);
      var i := FirstMatch(u, k, key).value;
      SyncAllUntouched(u, k, ws[1..], i);
      SyncAllGrows(u, k, ws[1..]);
      FirstMatchStable(u, SyncAll(u, k, ws[1..]), k, key);
    }
  }

  /** A batch whose every key is already stored appends nothing. */
  lemma {:induction false} SyncAllSettled(s: seq<Review>, k: KeyField, ws: seq<Write>)
    requires WellKeyed(ws, k)
    requires forall i :: 0 <= i < |ws| ==> FirstMatch(s, k, ws[i].key).Some?
    ensures |SyncAll(s, k, ws)| == |s|
    decreases |ws|
  {
    if ws != [] {
      var u := Upserted(s, k, ws[0]);
      assert KeyedBy(ws[0], k);
      UpsertedShape(s, k, ws[0]);
      forall i | 0 <= i < |ws[1..]| ensures FirstMatch(u, k, ws[1..][i].key).Some? {
        assert ws[1..][i] == ws[i + 1];
        FirstMatchStable(s, u, k, ws[i + 1].key);
      }
      SyncAllSettled(u, k, ws[1..]);
    }
  }

  /** Re-syncing the same payload changes nothing: running a batch a second time on
      the store it produced gives that store back. */
  lemma SyncAllIdempotent(s: seq<Review>, k: KeyField, ws: seq<Write>)
    requires WellKeyed(ws, k)
    ensures SyncAll(SyncAll(s, k, ws), k, ws) == SyncAll(s, k, ws)
  {
    var once := SyncAll(s, k, ws);
    var twice := SyncAll(once, k, ws);
    forall i | 0 <= i < |ws| ensures FirstMatch(once, k, ws[i].key).Some? {
      assert LastFor(ws, ws[i].key).Some?;
      SyncAllLastWins(s, k, ws, ws[i].key);
    }
    SyncAllSettled(once, k, ws);
    SyncAllGrows(once, k, ws);
    forall j | 0 <= j < |once| ensures twice[j] == once[j] {
      var key := KeyOf(once[j], k);
      if key.Some? && LastFor(ws, key.value).Some? && FirstMatch(once, k, key.value) == Some(j) {
        SyncAllLastWins(s, k, ws, key.value);
        SyncAllLastWins(once, k, ws, key.value);
        FirstMatchStable(once, twice, k, key.value);
        OverwriteAbsorbs(once[j], FieldsOf(once[j]), FieldsOf(once[j]));
      } else {
        SyncAllUntouched(once, k, ws, j);
      }
    }
  }

  /** Upserts never create a second document for a key. */
  lemma {:induction false} SyncAllKeepsUnique(s: seq<Review>, k: KeyField, ws: seq<Write>)
    requires WellKeyed(ws, k)
    requires Unique(s, k)
    ensures Unique(SyncAll(s, k, ws), k)
    decreases |ws|
  {
    if ws != [] {
      var u := Upserted(s, k, ws[0]);
      assert KeyedBy(ws[0], k);
      UpsertedShape(s, k, ws[0]);
      assert Unique(u, k) by {
        forall i, j | 0 <= i < j < |u| && KeyOf(u[i], k).Some?
          ensures KeyOf(u[i], k) != KeyOf(u[j], k)
        {
          if j == |s| {
            assert FirstMatch(s, k, ws[0].key).None?;
          }
        }
      }
      SyncAllKeepsUnique(u, k, ws[1..]);
    }
  }

  /** Idempotence per distinct key: starting from a store without duplicate keys, after
      a batch every key of the batch is held by exactly one document. */
  lemma SyncAllOnePerKey(s: seq<Review>, k: KeyField, ws: seq<Write>, key: string)
    requires WellKeyed(ws, k)
    requires Unique(s, k)
    requires exists i :: 0 <= i < |ws| && ws[i].key == key
    ensures var t := SyncAll(s, k, ws);
      && FirstMatch(t, k, key).Some?
      && forall j :: 0 <= j < |t| && KeyOf(t[j], k) == Some(key) ==> FirstMatch(t, k, key) == Some(j)
  {
    SyncAllLastWins(s, k, ws, key);
    SyncAllKeepsUnique(s, k, ws);
  }

  /** What a run of the adapter loop leaves behind: the store, and the error that ended
      it early, if any. */
  datatype BatchOutcome = BatchOutcome(reviews: seq<Review>, failure: Option<Error>)

  /** The adapter loop over already built writes: an item that could not be built, or a
      write the database refuses, stops the loop with that error; what was written
      before stays written. */
  function RunBatch(rs: seq<Review>, k: KeyField, items: seq<Result<Write, Error>>,
                    accepts: ReviewFields -> bool): BatchOutcome
    decreases |items|
  {
    if items == [] then BatchOutcome(rs, None)
    else
      match items[0]
      case Failure(e) => BatchOutcome(rs, Some(e))
      case Success(w) =>
        if accepts(w.fields) then RunBatch(Upserted(rs, k, w), k, items[1..], accepts)
        else BatchOutcome(rs, Some(StoreRejected))
  }

  /** The writes of a batch that go through before the first failure. */
  function LeadingWrites(items: seq<Result<Write, Error>>, accepts: ReviewFields -> bool): (ws: seq<Write>)
    ensures |ws| <= |items|
    ensures forall i :: 0 <= i < |ws| ==> items[i] == Success(ws[i]) && accepts(ws[i].fields)
    ensures |ws| < |items| ==> !(items[|ws|].Success? && accepts(items[|ws|].value.fields))
  {
    if items == [] || items[0].Failure? || !accepts(items[0].value.fields) then []
    else
      var rest := LeadingWrites(items[1..], accepts);
      assert forall i :: 1 <= i <= |rest| ==> items[i] == items[1..][i - 1];
      [items[0].value] + rest
  }

  function FailureOf(item: Result<Write, Error>): Error {
    match item
    case Failure(e) => e
    case Success(_) => StoreRejected
  }

  /** A mid-batch failure leaves the earlier upserts in place: the store after the loop
      is the store after exactly the writes before the failing item, and the loop
      reports that item's error; with no failure every write is applied. */
  lemma {:induction false} RunBatchKeepsEarlierWrites(rs: seq<Review>, k: KeyField,
                                                     items: seq<Result<Write, Error>>,
                                                     accepts: ReviewFields -> bool)
    ensures var o := RunBatch(rs, k, items, accepts);
      var ws := LeadingWrites(items, accepts);
      && o.reviews == SyncAll(rs, k, ws)
      && (o.failure.None? <==> |ws| == |items|)
      && (|ws| < |items| ==> o.failure == Some(FailureOf(items[|ws|])))
    decreases |items|
  {
    if items != [] && items[0].Success? && accepts(items[0].value.fields) {
      RunBatchKeepsEarlierWrites(Upserted(rs, k, items[0].value), k, items[1..], accepts);
      var ws := LeadingWrites(items, accepts);
      assert ws[1..] == LeadingWrites(items[1..], accepts);
    }
  }

  /** Every item that was built carries its key in the looked-up field. */
  predicate ItemsKeyedBy(items: seq<Result<Write, Error>>, k: KeyField) {
    forall i :: 0 <= i < |items| && items[i].Success? ==> KeyedBy(items[i].value, k)
  }

  lemma LeadingWritesKeyed(items: seq<Result<Write, Error>>, k: KeyField, accepts: ReviewFields -> bool)
    requires ItemsKeyedBy(items, k)
    ensures WellKeyed(LeadingWrites(items, accepts), k)
  {
  }

  /** The database takes every item of the batch that was built. */
  predicate SavesBuilt(items: seq<Result<Write, Error>>, accepts: ReviewFields -> bool) {
    forall i :: 0 <= i < |items| && items[i].Success? ==> accepts(items[i].value.fields)
  }

  /** Two verdicts that both take every built item run the batch alike: what is left to
      decide the outcome is the first item that failed to build, which is the same for both. */
  lemma {:induction false} RunBatchSameVerdict(rs: seq<Review>, k: KeyField, items: seq<Result<Write, Error>>,
                                               first: ReviewFields -> bool, second: ReviewFields -> bool)
    requires SavesBuilt(items, first) && SavesBuilt(items, second)
    ensures RunBatch(rs, k, items, first) == RunBatch(rs, k, items, second)
    decreases |items|
  {
    if items != [] && items[0].Success? {
      assert SavesBuilt(items[1..], first) && SavesBuilt(items[1..], second) by {
        forall i | 0 <= i < |items[1..]| && items[1..][i].Success?
          ensures first(items[1..][i].value.fields) && second(items[1..][i].value.fields)
        {
          assert items[1..][i] == items[i + 1];
        }
      }
      RunBatchSameVerdict(Upserted(rs, k, items[0].value), k, items[1..], first, second);
    }
  }

  /** Running the same batch again on the store it left behind changes nothing and ends
      the same way, provided the database takes every built item on both runs; an item
      that fails to build fails the same way both times. The verdicts of the two runs
      may differ elsewhere. */
  lemma RunBatchIdempotent(rs: seq<Review>, k: KeyField, items: seq<Result<Write, Error>>,
                           first: ReviewFields -> bool, second: ReviewFields -> bool)
    requires ItemsKeyedBy(items, k)
    requires SavesBuilt(items, first) && SavesBuilt(items, second)
    ensures RunBatch(RunBatch(rs, k, items, first).reviews, k, items, second) == RunBatch(rs, k, items, first)
  {
    var o := RunBatch(rs, k, items, first);
    RunBatchSameVerdict(o.reviews, k, items, first, second);
    LeadingWritesKeyed(items, k, first);
    RunBatchKeepsEarlierWrites(rs, k, items, first);
    RunBatchKeepsEarlierWrites(o.reviews, k, items, first);
    SyncAllIdempotent(rs, k, LeadingWrites(items, first));
  }

  /** Without that proviso a second run can undo the first: two items share a key, the
      first run saves both, and the second run saves the first item and is then refused
      (a lost connection), so the shared document goes back to the first item's fields. */
  lemma TransientRefusalReverts(k: KeyField, key: string, f1: ReviewFields, f2: ReviewFields,
                                first: ReviewFields -> bool, second: ReviewFields -> bool)
    requires IdIn(f1.platformData, k) == Some(key) && IdIn(f2.platformData, k) == Some(key)
    requires first(f1) && first(f2)
    requires second(f1) && !second(f2)
    ensures var items := [Success(Write(key, f1)), Success(Write(key, f2))];
      var once := RunBatch([], k, items, first);
      && once == BatchOutcome([Inserted(f2)], None)
      && RunBatch(once.reviews, k, items, second) == BatchOutcome([Inserted(f1)], Some(StoreRejected))
  {
    var items: seq<Result<Write, Error>> := [Success(Write(key, f1)), Success(Write(key, f2))];
    assert items[1..] == [Success(Write(key, f2))];
    assert items[1..][1..] == [];
    var s1 := Upserted([], k, Write(key, f1));
    assert s1 == [Inserted(f1)];
    assert Upserted(s1, k, Write(key, f2)) == [Overwrite(Inserted(f1), f2)];
    assert Overwrite(Inserted(f1), f2) == Inserted(f2);
    assert Upserted([Inserted(f2)], k, Write(key, f1)) == [Overwrite(Inserted(f2), f1)];
    assert Overwrite(Inserted(f2), f1) == Inserted(f1);
    assert RunBatch([], k, items, first) == RunBatch(s1, k, items[1..], first);
    assert RunBatch(s1, k, items[1..], first) == RunBatch([Inserted(f2)], k, [], first);
    assert RunBatch([Inserted(f2)], k, items, second) == RunBatch([Inserted(f1)], k, items[1..], second);
  }

  /** A batch that builds and saves every item leaves, for each key it carries, exactly
      one document (given no duplicate keys before), holding the last item's fields. */
  lemma RunBatchOnePerKey(rs: seq<Review>, k: KeyField, items: seq<Result<Write, Error>>,
                          accepts: ReviewFields -> bool, key: string)
    requires ItemsKeyedBy(items, k)
    requires Unique(rs, k)
    requires forall i :: 0 <= i < |items| ==> items[i].Success? && accepts(items[i].value.fields)
    requires exists i :: 0 <= i < |items| && items[i].Success? && items[i].value.key == key
    ensures var o := RunBatch(rs, k, items, accepts);
      var ws := LeadingWrites(items, accepts);
      && o.failure.None?
      && LastFor(ws, key).Some?
      && FirstMatch(o.reviews, k, key).Some?
      && FieldsOf(o.reviews[FirstMatch(o.reviews, k, key).value]) == LastFor(ws, key).value
      && forall j :: 0 <= j < |o.reviews| && KeyOf(o.reviews[j], k) == Some(key) ==>
           FirstMatch(o.reviews, k, key) == Some(j)
  {
    var ws := LeadingWrites(items, accepts);
    LeadingWritesKeyed(items, k, accepts);
    RunBatchKeepsEarlierWrites(rs, k, items, accepts);
    var i :| 0 <= i < |items| && items[i].Success? && items[i].value.key == key;
    assert ws[i].key == key;
    SyncAllOnePerKey(rs, k, ws, key);
    SyncAllLastWins(rs, k, ws, key);
  }

  /** What `syncReviews` resolves to: `{ success: true, message }`. */
  datatype SyncResult = SyncResult(success: bool, message: string)

  /** The store after an adapter's sync, and what the sync resolved to or threw. */
  datatype SyncOutcome = SyncOutcome(reviews: seq<Review>, result: Result<SyncResult, Error>)

  /** After the loop: rethrow its error, or resolve with the adapter's message. */
  function Conclude(o: BatchOutcome, message: string): SyncOutcome {
    match o.failure
    case Some(e) => SyncOutcome(o.reviews, Failure(e))
    case None => SyncOutcome(o.reviews, Success(SyncResult(true, message)))
  }

  /** The review collection. `accepts` stands for the database's verdict on a write (a
      value it cannot cast, a write it refuses): the model leaves its reasons open, but
      the verdict is one function of the written fields for the collection's lifetime. */
  class Store {
    var reviews: seq<Review>
    const accepts: ReviewFields -> bool

    constructor (initial: seq<Review>, accepts: ReviewFields -> bool)
      ensures reviews == initial && this.accepts == accepts
    {
      reviews := initial;
      this.accepts := accepts;
    }

    /** `findOneAndUpdate({ [k]: key }, fields, { upsert: true, new: true })`; returns the
        document as it is after the write. */
    method Upsert(k: KeyField, key: string, fields: ReviewFields) returns (res: Result<Review, Error>)
      modifies this
      ensures accepts(fields) ==> reviews == Upserted(old(reviews), k, Write(key, fields))
      ensures accepts(fields) ==> res.Success? && res.value in reviews && FieldsOf(res.value) == fields
      ensures !accepts(fields) ==> reviews == old(reviews) && res == Failure(StoreRejected)
    {
      if !accepts(fields) {
        return Failure(StoreRejected);
      }
      var w := Write(key, fields);
      match FirstMatch(reviews, k, key)
      case Some(i) =>
        var updated := Overwrite(reviews[i], fields);
        reviews := reviews[i := updated];
        assert reviews[i] == updated;
        res := Success(updated);
      case None =>
        var created := Inserted(fields);
        reviews := reviews + [created];
        res := Success(created);
    }

    /** The body of every adapter's `for (const review of ...)` loop: one upsert per
        item, in order, stopping at the first item that failed to build or to save. */
    method UpsertEach(k: KeyField, items: seq<Result<Write, Error>>) returns (failure: Option<Error>)
      modifies this
      ensures var o := RunBatch(old(reviews), k, items, accepts);
        reviews == o.reviews && failure == o.failure
    {
      var i := 0;
      while i < |items|
        invariant 0 <= i <= |items|
        invariant RunBatch(old(reviews), k, items, accepts) == RunBatch(reviews, k, items[i..], accepts)
      {
        assert items[i..][0] == items[i] && items[i..][1..] == items[i + 1..];
        match items[i]
        case Failure(e) =>
          return Some(e);
        case Success(w) =>
          var saved := Upsert(k, w.key, w.fields);
          if saved.Failure? {
            return Some(saved.error);
          }
        i := i + 1;
      }
      return None;
    }
  }
}
