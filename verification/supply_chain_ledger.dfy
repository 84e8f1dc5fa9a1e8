/** The batch custody chaincode's handlers over its world state: batch records
    under their ids, and the `allBatches` index. */
module SupplyChainLedger {
  import opened Common
  import opened SupplyChain

  class BatchChaincode {
    /** The records the handlers read with GetState and write with PutState. */
    var state: map<string, Batch>
    /** The `allBatches` index: every created id, in creation order. */
    var allBatches: seq<string>

    ghost predicate Valid()
      reads this
    {
      LedgerInvariant(state, allBatches)
    }

    /** A deployed chaincode whose Init has run on an empty world state. */
    constructor ()
      ensures Valid()
      ensures state == map[] && allBatches == []
    {
      state := map[];
      allBatches := [];
    }

    /** Init: writes an empty index; records already stored stay. */
    method Init()
      requires Valid()
      modifies this
      ensures Valid()
      ensures state == old(state) && allBatches == []
    {
      allBatches := [];
    }

    /** createBatch(id, type, role, quantity, date, location); `quantity` is what
        Atoi makes of args[3]. Every check comes before the first write, and an
        existing id is neither refused nor removed from the index. */
    method CreateBatch(args: seq<string>, quantity: Numeral) returns (r: Outcome<BatchError>)
      requires Valid()
      modifies this
      ensures Valid()
      ensures |args| != 6 ==> r == Fail(WrongArgumentCount(6))
      ensures |args| == 6 && args[2] != PRODUCER ==> r == Fail(NotAllowed)
      ensures |args| == 6 && args[2] == PRODUCER && !AtoiOk(quantity) ==> r == Fail(InvalidQuantity)
      ensures |args| == 6 && args[2] == PRODUCER && AtoiOk(quantity) && quantity.n < 1 ==> r == Fail(QuantityBelowOne)
      ensures r.Pass? <==> |args| == 6 && args[2] == PRODUCER && AtoiOk(quantity) && quantity.n >= 1
      ensures r.Fail? ==> state == old(state) && allBatches == old(allBatches)
      ensures r.Pass? ==> state == old(state)[args[0] := NewBatch(args[0], args[1], quantity.n, args[4], args[5])]
      ensures r.Pass? ==> allBatches == old(allBatches) + [args[0]]
      ensures r.Pass? ==> HistoriesExtended(old(state) - {args[0]}, state)
    {
      if |args| != 6 {
        return Fail(WrongArgumentCount(6));
      }
      if args[2] != PRODUCER {
        return Fail(NotAllowed);
      }
      if !AtoiOk(quantity) {
        return Fail(InvalidQuantity);
      }
      var quantityValue := AtoiValue(quantity);
      if quantityValue < 1 {
        return Fail(QuantityBelowOne);
      }
      var bt := Batch(args[0], args[1], args[2], quantityValue, "OK", "", []);
      var tx := Transaction(bt.bType, bt.owner, bt.quantity, bt.quality, bt.signature, args[4], args[5], "CREATE");
      bt := bt.(transactions := bt.transactions + [tx]);
      assert bt == NewBatch(args[0], args[1], quantity.n, args[4], args[5]);
      state := state[bt.id := bt];
      allBatches := allBatches + [bt.id];
      return Pass;
    }

    /** claimBatch(batchId, role, date, location). */
    method ClaimBatch(args: seq<string>) returns (r: Outcome<BatchError>)
      requires Valid()
      modifies this
      ensures Valid() && allBatches == old(allBatches)
      ensures |args| != 4 ==> r == Fail(WrongArgumentCount(4))
      ensures |args| == 4 && args[1] != SHIPPING ==> r == Fail(NotAllowed)
      ensures |args| == 4 && args[1] == SHIPPING && args[0] !in old(state) ==> r == Fail(NotFound(args[0]))
      ensures r.Pass? <==> |args| == 4 && args[1] == SHIPPING && args[0] in old(state)
      ensures r.Fail? ==> state == old(state)
      ensures r.Pass? ==> state == old(state)[args[0] := Claimed(old(state)[args[0]], args[2], args[3])]
      ensures HistoriesExtended(old(state), state)
    {
      if |args| != 4 {
        return Fail(WrongArgumentCount(4));
      }
      if args[1] != SHIPPING {
        return Fail(NotAllowed);
      }
      if args[0] !in state {
        return Fail(NotFound(args[0]));
      }
      var bch := state[args[0]];
      bch := bch.(owner := args[1]);
      var tx := Transaction(bch.bType, bch.owner, bch.quantity, bch.quality, bch.signature, args[2], args[3], "CLAIM");
      bch := bch.(transactions := bch.transactions + [tx]);
      state := state[bch.id := bch];
      return Pass;
    }

    /** transferBatch(batchId, role, date, location, newOwner, signature). */
    method TransferBatch(args: seq<string>) returns (r: Outcome<BatchError>)
      requires Valid()
      modifies this
      ensures Valid() && allBatches == old(allBatches)
      ensures |args| != 6 ==> r == Fail(WrongArgumentCount(6))
      ensures |args| == 6 && args[1] != SHIPPING ==> r == Fail(NotAllowed)
      ensures |args| == 6 && args[1] == SHIPPING && args[0] !in old(state) ==> r == Fail(NotFound(args[0]))
      ensures r.Pass? <==> |args| == 6 && args[1] == SHIPPING && args[0] in old(state)
      ensures r.Fail? ==> state == old(state)
      ensures r.Pass? ==>
        state == old(state)[args[0] := Transferred(old(state)[args[0]], args[2], args[3], args[4], args[5])]
      ensures HistoriesExtended(old(state), state)
    {
      if |args| != 6 {
        return Fail(WrongArgumentCount(6));
      }
      if args[1] != SHIPPING {
        return Fail(NotAllowed);
      }
      if args[0] !in state {
        return Fail(NotFound(args[0]));
      }
      var bch := state[args[0]];
      bch := bch.(owner := args[4], signature := args[5]);
      var tx := Transaction(bch.bType, bch.owner, bch.quantity, bch.quality, bch.signature, args[2], args[3], "TRANSFER");
      bch := bch.(transactions := bch.transactions + [tx]);
      state := state[bch.id := bch];
      return Pass;
    }

    /** sellBatchItem(batchId, role, date, location, quantity, buyer); `quantity`
        is what Atoi makes of args[4]. The count itself may be negative. */
    method SellBatchItem(args: seq<string>, quantity: Numeral) returns (r: Outcome<BatchError>)
      requires Valid()
      modifies this
      ensures Valid() && allBatches == old(allBatches)
      ensures |args| != 6 ==> r == Fail(WrongArgumentCount(6))
      ensures |args| == 6 && args[1] != RETAILER ==> r == Fail(NotAllowed)
      ensures |args| == 6 && args[1] == RETAILER && args[0] !in old(state) ==> r == Fail(NotFound(args[0]))
      ensures |args| == 6 && args[1] == RETAILER && args[0] in old(state) && !AtoiOk(quantity) ==>
        r == Fail(InvalidQuantity)
      ensures |args| == 6 && args[1] == RETAILER && args[0] in old(state) && AtoiOk(quantity) ==>
        match Sold(old(state)[args[0]], quantity.n, args[2], args[3], args[5])
        case None => r == Fail(Oversold)
        case Some(b) => r == Pass && state == old(state)[args[0] := b]
      ensures r.Fail? ==> state == old(state)
      ensures HistoriesExtended(old(state), state)
    {
      if |args| != 6 {
        return Fail(WrongArgumentCount(6));
      }
      if args[1] != RETAILER {
        return Fail(NotAllowed);
      }
      if args[0] !in state {
        return Fail(NotFound(args[0]));
      }
      var bch := state[args[0]];
      if !AtoiOk(quantity) {
        return Fail(InvalidQuantity);
      }
      var quantityValue := AtoiValue(quantity);
      if Wrap64(bch.quantity - quantityValue) < 0 {
        return Fail(Oversold);
      }
      bch := bch.(quantity := Wrap64(bch.quantity - quantityValue));
      var tx := Transaction(bch.bType, args[5], quantityValue, bch.quality, "", args[2], args[3], "SELL");
      if bch.quantity == 0 {
        bch := bch.(owner := UNASSIGNED);
      }
      bch := bch.(transactions := bch.transactions + [tx]);
      state := state[bch.id := bch];
      return Pass;
    }

    /** updateBatchQuality(role, date, location, quality): every indexed batch the
        shipper holds, not one named batch. */
    method UpdateBatchQuality(args: seq<string>) returns (r: Outcome<BatchError>)
      requires Valid()
      modifies this
      ensures Valid() && allBatches == old(allBatches)
      ensures |args| != 4 ==> r == Fail(WrongArgumentCount(4))
      ensures |args| == 4 && args[0] != SHIPPING ==> r == Fail(NotAllowed)
      ensures r.Pass? <==> |args| == 4 && args[0] == SHIPPING
      ensures r.Fail? ==> state == old(state)
      ensures r.Pass? ==> state == QualityUpdates(old(state), allBatches, args[3], args[1], args[2])
      ensures HistoriesExtended(old(state), state)
    {
      if |args| != 4 {
        return Fail(WrongArgumentCount(4));
      }
      if args[0] != SHIPPING {
        return Fail(NotAllowed);
      }
      var i := 0;
      while i < |allBatches|
        invariant 0 <= i <= |allBatches|
        invariant allBatches == old(allBatches)
        invariant Valid()
        invariant state == QualityUpdates(old(state), allBatches[..i], args[3], args[1], args[2])
      {
        QualityUpdatesStep(old(state), allBatches, i, args[3], args[1], args[2]);
        var sb := state[allBatches[i]];
        if sb.owner == args[0] {
          QualityStepKeepsInvariant(state, allBatches, allBatches[i], args[3], args[1], args[2]);
          sb := sb.(quality := args[3]);
          var tx := Transaction(sb.bType, sb.owner, sb.quantity, sb.quality, sb.signature, args[1], args[2], "UPDATE QUALITY");
          sb := sb.(transactions := sb.transactions + [tx]);
          assert sb == QualityUpdated(state[allBatches[i]], args[3], args[1], args[2]);
          assert sb.id == allBatches[i];
          state := state[sb.id := sb];
        }
        i := i + 1;
      }
      assert allBatches[..i] == allBatches;
      return Pass;
    }

    /** getBatch: the stored record, or nothing for an unknown id (GetState then
        returns no bytes and no error). */
    function GetBatch(batchId: string): (r: Option<Batch>)
      reads this
      ensures r.Some? <==> batchId in state
      ensures r.Some? ==> r.value == state[batchId]
    {
      if batchId in state then Some(state[batchId]) else None
    }

    /** getAllBatches: the indexed ids whose batch `user` owns, in index order;
        the certifier gets every indexed id. */
    method GetAllBatches(user: string) returns (ids: seq<string>)
      requires Valid()
      ensures ids == Visible(state, allBatches, user)
      ensures user == CERTIFIER ==> ids == allBatches
      ensures forall x :: x in ids <==> x in allBatches && (state[x].owner == user || user == CERTIFIER)
    {
      ids := [];
      var i := 0;
      while i < |allBatches|
        invariant 0 <= i <= |allBatches|
        invariant ids == Visible(state, allBatches[..i], user)
      {
        assert allBatches[..i + 1] == allBatches[..i] + [allBatches[i]];
        var sb := state[allBatches[i]];
        if sb.owner == user || user == CERTIFIER {
          ids := ids + [sb.id];
        }
        i := i + 1;
      }
      assert allBatches[..i] == allBatches;
    }

    /** getAllBatchesDetails: the batches `user` owns (no certifier exception),
        in index order, each without history and signature. */
    method GetAllBatchesDetails(user: string) returns (batches: seq<Batch>)
      requires Valid()
      ensures batches == Details(state, allBatches, user)
      ensures forall b | b in batches :: b.owner == user && b.transactions == [] && b.signature == ""
    {
      batches := [];
      var i := 0;
      while i < |allBatches|
        invariant 0 <= i <= |allBatches|
        invariant batches == Details(state, allBatches[..i], user)
      {
        assert allBatches[..i + 1] == allBatches[..i] + [allBatches[i]];
        var sb := state[allBatches[i]];
        if sb.owner == user {
          sb := sb.(transactions := [], signature := "");
          batches := batches + [sb];
        }
        i := i + 1;
      }
      assert allBatches[..i] == allBatches;
    }

    /** getNbItems: the total quantity of the indexed batches `user` owns, summed
        in Go's `int`; exact while the total fits. */
    method GetNbItems(user: string) returns (nbItems: int)
      requires Valid()
      ensures nbItems == Wrap64(OwnedQuantity(state, allBatches, user))
      ensures OwnedQuantity(state, allBatches, user) <= INT64_MAX ==>
        nbItems == TotalQuantity(Details(state, allBatches, user))
    {
      nbItems := 0;
      var i := 0;
      while i < |allBatches|
        invariant 0 <= i <= |allBatches|
        invariant nbItems == Wrap64(OwnedQuantity(state, allBatches[..i], user))
      {
        assert allBatches[..i + 1] == allBatches[..i] + [allBatches[i]];
        var sb := state[allBatches[i]];
        if sb.owner == user {
          WrapAdd(OwnedQuantity(state, allBatches[..i], user), sb.quantity);
          nbItems := Wrap64(nbItems + sb.quantity);
        }
        i := i + 1;
      }
      assert allBatches[..i] == allBatches;
      OwnedQuantityMatchesDetails(state, allBatches, user);
    }
  }

  /** The sales scenarios a caller can establish from the contracts alone. */
  method SellScenario(vDate: string, place: string)
  {
    var ledger := new BatchChaincode();
    var r := ledger.CreateBatch(["B1", "COD", PRODUCER, "100", vDate, place], Literal(100));
    assert r == Pass;
    var b := ledger.GetBatch("B1");
    assert b.Some? && b.value.quantity == 100 && b.value.quality == "OK" && |b.value.transactions| == 1;

    r := ledger.SellBatchItem(["B1", RETAILER, vDate, place, "30", "ALICE"], Literal(30));
    assert ledger.state["B1"].quantity == 70 && |ledger.state["B1"].transactions| == 2;

    r := ledger.SellBatchItem(["B1", RETAILER, vDate, place, "71", "BOB"], Literal(71));
    assert r == Fail(Oversold) && ledger.state["B1"].quantity == 70;

    r := ledger.SellBatchItem(["B1", RETAILER, vDate, place, "70", "BOB"], Literal(70));
    assert ledger.state["B1"].quantity == 0 && ledger.state["B1"].owner == UNASSIGNED;
  }
}
