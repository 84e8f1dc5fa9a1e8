/** The batch custody chaincode (sc_cc.go): its records, the change each handler
    makes to one batch, and the walks over the `allBatches` index, as values. */
module SupplyChain {
  import opened Common

  // The roles the handlers compare the caller's role argument against.
  const PRODUCER: string := "FISHCO"
  const SHIPPING: string := "SHIPPINGCO"
  const RETAILER: string := "RETAILER"
  const CONSUMER: string := "CONSUMER"
  const CERTIFIER: string := "CERTIFIER"
  /** Owner of a batch whose last item has been sold. */
  const UNASSIGNED: string := "N/A"

  /** One history entry of a batch. */
  datatype Transaction = Transaction(
    bType: string,
    owner: string,
    quantity: int,
    quality: string,
    signature: string,
    vDate: string,
    location: string,
    tType: string)

  datatype Batch = Batch(
    id: string,
    bType: string,
    owner: string,
    quantity: int,
    quality: string,
    signature: string,
    transactions: seq<Transaction>)

  /** The errors the handlers report. */
  datatype BatchError =
    | WrongArgumentCount(expected: nat)
    | NotAllowed
    | InvalidQuantity
    | QuantityBelowOne
    | NotFound(id: string)
    | Oversold

  // ---------------------------------------------------------------------------
  // The ledger invariant

  /** Every id in the index names a stored batch. */
  predicate Resolves(st: map<string, Batch>, ids: seq<string>) {
    forall id | id in ids :: id in st
  }

  /** Every batch is stored under its own id. */
  predicate KeyedById(st: map<string, Batch>) {
    forall k | k in st :: st[k].id == k
  }

  /** Stored quantities are never negative (and fit in a Go `int`). */
  predicate QuantitiesOk(st: map<string, Batch>) {
    forall k | k in st :: 0 <= st[k].quantity <= INT64_MAX
  }

  predicate LedgerInvariant(st: map<string, Batch>, ids: seq<string>) {
    Resolves(st, ids) && KeyedById(st) && QuantitiesOk(st)
  }

  /** No batch disappears and no history loses or changes an entry. */
  predicate HistoriesExtended(before: map<string, Batch>, after: map<string, Batch>) {
    forall k | k in before :: k in after && before[k].transactions <= after[k].transactions
  }

  // ---------------------------------------------------------------------------
  // What each handler does to one batch

  /** The history entry most handlers append: the batch's fields after the change,
      with the date, the location and the kind of change. */
  function Snapshot(b: Batch, vDate: string, location: string, tType: string): Transaction {
    Transaction(b.bType, b.owner, b.quantity, b.quality, b.signature, vDate, location, tType)
  }

  /** createBatch: a new batch held by the producer. */
  function NewBatch(id: string, bType: string, quantity: int, vDate: string, location: string): (b: Batch)
    ensures b.id == id && b.bType == bType && b.owner == PRODUCER && b.quantity == quantity
    ensures b.quality == "OK" && b.signature == ""
    ensures b.transactions == [Snapshot(b, vDate, location, "CREATE")]
  {
    var made := Batch(id, bType, PRODUCER, quantity, "OK", "", []);
    made.(transactions := [Snapshot(made, vDate, location, "CREATE")])
  }

  /** claimBatch: the shipper takes the batch; nothing else about it changes. */
  function Claimed(b: Batch, vDate: string, location: string): (r: Batch)
    ensures r.owner == SHIPPING
    ensures r.id == b.id && r.bType == b.bType && r.quantity == b.quantity
    ensures r.quality == b.quality && r.signature == b.signature
    ensures r.transactions == b.transactions + [Snapshot(r, vDate, location, "CLAIM")]
  {
    var c := b.(owner := SHIPPING);
    c.(transactions := c.transactions + [Snapshot(c, vDate, location, "CLAIM")])
  }

  /** transferBatch: a new owner and signature; the entry records both. */
  function Transferred(b: Batch, vDate: string, location: string, newOwner: string, signature: string): (r: Batch)
    ensures r.owner == newOwner && r.signature == signature
    ensures r.id == b.id && r.bType == b.bType && r.quantity == b.quantity && r.quality == b.quality
    ensures r.transactions == b.transactions + [Snapshot(r, vDate, location, "TRANSFER")]
  {
    var c := b.(owner := newOwner, signature := signature);
    c.(transactions := c.transactions + [Snapshot(c, vDate, location, "TRANSFER")])
  }

  /** sellBatchItem on a stored batch and a parsed count `n`. The remaining
      quantity is computed in Go's `int`, so a count that would push it past the
      largest `int` wraps to a negative value and is refused like an oversale. */
  function Sold(b: Batch, n: int, vDate: string, location: string, buyer: string): (r: Option<Batch>)
    requires 0 <= b.quantity <= INT64_MAX && InInt64(n)
    ensures r.Some? <==> 0 <= b.quantity - n <= INT64_MAX
    ensures r.Some? ==> r.value.quantity == b.quantity - n
    ensures r.Some? ==> r.value.owner == (if b.quantity - n == 0 then UNASSIGNED else b.owner)
    ensures r.Some? ==> r.value.id == b.id && r.value.bType == b.bType
    ensures r.Some? ==> r.value.quality == b.quality && r.value.signature == b.signature
    ensures r.Some? ==> r.value.transactions
                        == b.transactions + [Transaction(b.bType, buyer, n, b.quality, "", vDate, location, "SELL")]
  {
    var left := Wrap64(b.quantity - n);
    if left < 0 then None
    else
      var tx := Transaction(b.bType, buyer, n, b.quality, "", vDate, location, "SELL");
      Some(b.(quantity := left,
              owner := if left == 0 then UNASSIGNED else b.owner,
              transactions := b.transactions + [tx]))
  }

  /** updateBatchQuality on one batch the shipper holds. */
  function QualityUpdated(b: Batch, quality: string, vDate: string, location: string): (r: Batch)
    ensures r.quality == quality
    ensures r.id == b.id && r.bType == b.bType && r.owner == b.owner
    ensures r.quantity == b.quantity && r.signature == b.signature
    ensures r.transactions == b.transactions + [Snapshot(r, vDate, location, "UPDATE QUALITY")]
  {
    var c := b.(quality := quality);
    c.(transactions := c.transactions + [Snapshot(c, vDate, location, "UPDATE QUALITY")])
  }

  /** The batch as getAllBatchesDetails lists it: no history, no signature. */
  function Stripped(b: Batch): Batch {
    b.(transactions := [], signature := "")
  }

  // ---------------------------------------------------------------------------
  // Walks over the index, in index order (each defined by its last step, the way
  // the handlers' loops accumulate)

  /** The indexed ids whose batch `user` owns, in index order, repeats kept. */
  function Owned(st: map<string, Batch>, ids: seq<string>, user: string): (r: seq<string>)
    requires Resolves(st, ids)
    ensures |r| <= |ids|
    ensures forall x :: x in r <==> x in ids && st[x].owner == user
    decreases |ids|
  {
    if ids == [] then []
    else
      var init := ids[..|ids| - 1];
      var last := ids[|ids| - 1];
      assert ids == init + [last];
      if st[last].owner == user then Owned(st, init, user) + [last] else Owned(st, init, user)
  }

  /** getAllBatches: the ids `user` may see, the certifier seeing every one. */
  function Visible(st: map<string, Batch>, ids: seq<string>, user: string): (r: seq<string>)
    requires Resolves(st, ids)
    ensures user == CERTIFIER ==> r == ids
    ensures user != CERTIFIER ==> r == Owned(st, ids, user)
    decreases |ids|
  {
    if ids == [] then []
    else
      var init := ids[..|ids| - 1];
      var last := ids[|ids| - 1];
      assert ids == init + [last];
      if st[last].owner == user || user == CERTIFIER then Visible(st, init, user) + [last]
      else Visible(st, init, user)
  }

  /** getAllBatchesDetails: the batches `user` owns, stripped, in index order. */
  function Details(st: map<string, Batch>, ids: seq<string>, user: string): (r: seq<Batch>)
    requires Resolves(st, ids)
    ensures |r| == |Owned(st, ids, user)|
    ensures forall i :: 0 <= i < |r| ==> r[i] == Stripped(st[Owned(st, ids, user)[i]])
    decreases |ids|
  {
    if ids == [] then []
    else
      var init := ids[..|ids| - 1];
      var last := ids[|ids| - 1];
      assert ids == init + [last];
      if st[last].owner == user then Details(st, init, user) + [Stripped(st[last])]
      else Details(st, init, user)
  }

  /** getNbItems before Go's `int` arithmetic: the total quantity of the indexed
      batches `user` owns, a batch listed twice counted twice. */
  function OwnedQuantity(st: map<string, Batch>, ids: seq<string>, user: string): (r: int)
    requires Resolves(st, ids)
    ensures QuantitiesOk(st) ==> 0 <= r <= |ids| * INT64_MAX
    decreases |ids|
  {
    if ids == [] then 0
    else
      var init := ids[..|ids| - 1];
      var last := ids[|ids| - 1];
      assert ids == init + [last];
      OwnedQuantity(st, init, user) + (if st[last].owner == user then st[last].quantity else 0)
  }

  /** Total quantity of a list of batches. */
  function TotalQuantity(bs: seq<Batch>): int
    decreases |bs|
  {
    if bs == [] then 0 else TotalQuantity(bs[..|bs| - 1]) + bs[|bs| - 1].quantity
  }

  /** updateBatchQuality over the index: each listed id, in order, whose batch the
      shipper holds when it is reached gets the new quality and one entry. A
      missing record reads as an empty batch, whose owner is never the shipper. */
  function QualityUpdates(st: map<string, Batch>, ids: seq<string>, quality: string, vDate: string, location: string)
    : (r: map<string, Batch>)
    ensures r.Keys == st.Keys
    ensures forall k | k in st :: r[k].id == st[k].id && r[k].owner == st[k].owner
    ensures forall k | k in st :: r[k].quantity == st[k].quantity
    ensures forall k | k in st && st[k].owner != SHIPPING :: r[k] == st[k]
    ensures HistoriesExtended(st, r)
    decreases |ids|
  {
    if ids == [] then st
    else
      var prev := QualityUpdates(st, ids[..|ids| - 1], quality, vDate, location);
      var last := ids[|ids| - 1];
      if last in prev && prev[last].owner == SHIPPING then
        prev[last := QualityUpdated(prev[last], quality, vDate, location)]
      else prev
  }

  // ---------------------------------------------------------------------------
  // Properties of the walks

  /** Quantity totals split over a concatenated index. */
  lemma {:induction false} OwnedQuantityAppend(st: map<string, Batch>, a: seq<string>, b: seq<string>, user: string)
    requires Resolves(st, a) && Resolves(st, b)
    ensures Resolves(st, a + b)
    ensures OwnedQuantity(st, a + b, user) == OwnedQuantity(st, a, user) + OwnedQuantity(st, b, user)
    decreases |b|
  {
    if b != [] {
      var init := b[..|b| - 1];
      assert (a + b)[..|a + b| - 1] == a + init;
      OwnedQuantityAppend(st, a, init, user);
    } else {
      assert a + b == a;
    }
  }

  /** getNbItems agrees with getAllBatchesDetails: the total is the sum of the
      quantities of exactly the batches the details listing shows. */
  lemma {:induction false} OwnedQuantityMatchesDetails(st: map<string, Batch>, ids: seq<string>, user: string)
    requires Resolves(st, ids)
    ensures OwnedQuantity(st, ids, user) == TotalQuantity(Details(st, ids, user))
    decreases |ids|
  {
    if ids != [] {
      var init := ids[..|ids| - 1];
      var last := ids[|ids| - 1];
      OwnedQuantityMatchesDetails(st, init, user);
      if st[last].owner == user {
        var d := Details(st, init, user) + [Stripped(st[last])];
        assert d[..|d| - 1] == Details(st, init, user);
      }
    }
  }

  /** How many times `k` is listed. */
  function Occurrences(ids: seq<string>, k: string): (n: nat)
    ensures n <= |ids|
    ensures n == 0 <==> k !in ids
    decreases |ids|
  {
    if ids == [] then 0
    else
      var init := ids[..|ids| - 1];
      assert ids == init + [ids[|ids| - 1]];
      Occurrences(init, k) + (if ids[|ids| - 1] == k then 1 else 0)
  }

  /** `n` copies of one entry. */
  function Repeat(tx: Transaction, n: nat): (r: seq<Transaction>)
    ensures |r| == n
    ensures forall i :: 0 <= i < n ==> r[i] == tx
  {
    if n == 0 then [] else Repeat(tx, n - 1) + [tx]
  }

  /** The exact effect of updateBatchQuality on one batch the shipper holds: if it
      is listed c > 0 times it gets the new quality and c identical entries (the
      loop re-reads the record, so a repeated id is updated again); if it is not
      listed it is unchanged. */
  lemma {:induction false} QualityUpdatesOnShipperBatch(
    st: map<string, Batch>, ids: seq<string>, quality: string, vDate: string, location: string, k: string)
    requires k in st && st[k].owner == SHIPPING
    ensures var r := QualityUpdates(st, ids, quality, vDate, location);
            var c := Occurrences(ids, k);
            var tx := Snapshot(st[k].(quality := quality), vDate, location, "UPDATE QUALITY");
            r[k] == if c == 0 then st[k]
                    else st[k].(quality := quality, transactions := st[k].transactions + Repeat(tx, c))
    decreases |ids|
  {
    if ids != [] {
      var n := |ids| - 1;
      var init := ids[..n];
      QualityUpdatesOnShipperBatch(st, init, quality, vDate, location, k);
      QualityUpdatesStep(st, ids, n, quality, vDate, location);
      assert ids[..n + 1] == ids;
      assert Occurrences(ids, k) == Occurrences(init, k) + (if ids[n] == k then 1 else 0);
      if ids[n] == k {
        ShipperBatchStep(st[k], Occurrences(init, k), quality, vDate, location);
      }
    }
  }

  /** One more listing of a shipper-held batch appends one more identical entry. */
  lemma ShipperBatchStep(b: Batch, c: nat, quality: string, vDate: string, location: string)
    requires b.owner == SHIPPING
    ensures var tx := Snapshot(b.(quality := quality), vDate, location, "UPDATE QUALITY");
            var before := if c == 0 then b else b.(quality := quality, transactions := b.transactions + Repeat(tx, c));
            QualityUpdated(before, quality, vDate, location)
            == b.(quality := quality, transactions := b.transactions + Repeat(tx, c + 1))
  {
    var tx := Snapshot(b.(quality := quality), vDate, location, "UPDATE QUALITY");
    assert Repeat(tx, c + 1) == Repeat(tx, c) + [tx];
  }

  /** The fan-out over the first i + 1 ids is the fan-out over the first i,
      followed by the step for id i. */
  lemma QualityUpdatesStep(
    st: map<string, Batch>, ids: seq<string>, i: nat, quality: string, vDate: string, location: string)
    requires i < |ids|
    ensures var prev := QualityUpdates(st, ids[..i], quality, vDate, location);
            QualityUpdates(st, ids[..i + 1], quality, vDate, location)
            == if ids[i] in prev && prev[ids[i]].owner == SHIPPING
               then prev[ids[i] := QualityUpdated(prev[ids[i]], quality, vDate, location)]
               else prev
  {
    assert ids[..i + 1][..i] == ids[..i];
  }

  /** One step of the quality fan-out keeps the ledger invariant. */
  lemma QualityStepKeepsInvariant(
    st: map<string, Batch>, index: seq<string>, id: string, quality: string, vDate: string, location: string)
    requires LedgerInvariant(st, index) && id in st
    ensures LedgerInvariant(st[id := QualityUpdated(st[id], quality, vDate, location)], index)
  {
  }

  /** Re-creating an existing id replaces its record, history included: the
      append-only history holds for every handler but this one. */
  lemma RecreateReplacesHistory(
    st: map<string, Batch>, id: string, bType: string, quantity: int, vDate: string, location: string)
    requires id in st && |st[id].transactions| > 1
    ensures !HistoriesExtended(st, st[id := NewBatch(id, bType, quantity, vDate, location)])
  {
  }
}
