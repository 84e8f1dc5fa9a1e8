/** The donation chaincode (GiveChain.go): donation records under their ids and
    the `allDonations` index. Its invocation surface routes `init` and
    `createDonation`; the rest are read-only queries. */
module GiveChain {
  import opened Common

  /** What the per-user listing shows in place of a donation the user does not own. */
  const MASK: string := "TESTING"

  /** One entry of a donation's history. */
  datatype Transaction = Transaction(
    id: string,
    tDate: string,
    destination: string,
    amount: int,
    projectID: string,
    tType: string)

  datatype Donation = Donation(
    id: string,
    owner: string,
    amount: int,
    projectID: string,
    transactions: seq<Transaction>)

  datatype DonationError = WrongArgumentCount(expected: nat)

  /** Every id in the index names a stored donation. */
  predicate DonationsResolve(st: map<string, Donation>, ids: seq<string>) {
    forall id | id in ids :: id in st
  }

  /** Every donation is stored under its own id. */
  predicate DonationsKeyedById(st: map<string, Donation>) {
    forall k | k in st :: st[k].id == k
  }

  /** Nothing but createDonation writes a donation, so each history is the one
      CREATE entry, whose id is the donation's id followed by "T1". */
  predicate CreatedOnly(st: map<string, Donation>) {
    forall k | k in st ::
      |st[k].transactions| == 1 && st[k].transactions[0].id == st[k].id + "T1"
      && st[k].transactions[0].tType == "CREATE"
  }

  /** createDonation(amount, projectId, owner, donationId, date, _): the record's
      own amount is never set, and the one CREATE entry carries whatever Atoi
      returned for args[0], error or not. */
  function NewDonation(args: seq<string>, amount: Numeral): (d: Donation)
    requires |args| == 6
    ensures d.id == args[3] && d.owner == args[2] && d.projectID == args[1] && d.amount == 0
    ensures |d.transactions| == 1
    ensures d.transactions[0] == Transaction(d.id + "T1", args[4], "", AtoiValue(amount), d.projectID, "CREATE")
    ensures amount.Malformed? ==> d.transactions[0].amount == 0
  {
    var tx := Transaction(args[3] + "T1", args[4], "", AtoiValue(amount), args[1], "CREATE");
    Donation(args[3], args[2], 0, args[1], [tx])
  }

  class DonationChaincode {
    /** The records the handlers read with GetState and write with PutState. */
    var state: map<string, Donation>
    /** The `allDonations` index: every created id, in creation order. */
    var allDonations: seq<string>

    ghost predicate Valid()
      reads this
    {
      DonationsResolve(state, allDonations) && DonationsKeyedById(state) && CreatedOnly(state)
    }

    /** A deployed chaincode whose Init has run on an empty world state. */
    constructor ()
      ensures Valid()
      ensures state == map[] && allDonations == []
    {
      state := map[];
      allDonations := [];
    }

    /** Init: writes an empty index; records already stored stay. */
    method Init()
      requires Valid()
      modifies this
      ensures Valid()
      ensures state == old(state) && allDonations == []
    {
      allDonations := [];
    }

    /** createDonation: only the argument count is checked; an existing id is
        overwritten and listed again. */
    method CreateDonation(args: seq<string>, amount: Numeral) returns (r: Outcome<DonationError>)
      requires Valid()
      modifies this
      ensures Valid()
      ensures r.Pass? <==> |args| == 6
      ensures r.Fail? ==> r.error == WrongArgumentCount(6) && state == old(state) && allDonations == old(allDonations)
      ensures r.Pass? ==> state == old(state)[args[3] := NewDonation(args, amount)]
      ensures r.Pass? ==> allDonations == old(allDonations) + [args[3]]
    {
      if |args| != 6 {
        return Fail(WrongArgumentCount(6));
      }
      var tx := Transaction(args[3] + "T1", args[4], "", AtoiValue(amount), args[1], "CREATE");
      var d := Donation(args[3], args[2], 0, args[1], [tx]);
      state := state[d.id := d];
      allDonations := allDonations + [d.id];
      return Pass;
    }

    /** getAllDonationsByUserId: one entry per indexed id, in index order: the id
        where `userID` owns that donation, the mask elsewhere. */
    method GetAllDonationsByUserId(userID: string) returns (ids: seq<string>)
      requires Valid()
      ensures |ids| == |allDonations|
      ensures forall i :: 0 <= i < |ids| ==>
        ids[i] == if state[allDonations[i]].owner == userID then allDonations[i] else MASK
    {
      ids := [];
      var i := 0;
      while i < |allDonations|
        invariant 0 <= i <= |allDonations|
        invariant |ids| == i
        invariant forall j :: 0 <= j < i ==>
          ids[j] == if state[allDonations[j]].owner == userID then allDonations[j] else MASK
      {
        var sd := state[allDonations[i]];
        if sd.owner == userID {
          ids := ids + [sd.id];
        } else {
          ids := ids + [MASK];
        }
        i := i + 1;
      }
    }

    /** getAllDonations: the index as stored. The chaincode's `Query` does not
        route this name (an unrouted name returns nothing), so no invocation
        reaches it. */
    function GetAllDonations(): (ids: seq<string>)
      reads this
      ensures ids == allDonations
    {
      allDonations
    }

    /** getDonation: the stored record, or nothing for an unknown id. */
    function GetDonation(donationId: string): (r: Option<Donation>)
      reads this
      ensures r.Some? <==> donationId in state
      ensures r.Some? ==> r.value == state[donationId]
    {
      if donationId in state then Some(state[donationId]) else None
    }

    /** getTransactions: the stored donation's history; an unknown id gives an
        empty list, since the failed unmarshal is not checked. */
    function GetTransactions(donationId: string): (txs: seq<Transaction>)
      reads this
      ensures donationId in state ==> txs == state[donationId].transactions
      ensures donationId !in state ==> txs == []
    {
      if donationId in state then state[donationId].transactions else []
    }
  }

  /** After a donation is created, the queries see it with its single CREATE entry. */
  method CreateScenario(vDate: string)
  {
    var chain := new DonationChaincode();
    var r := chain.CreateDonation(["250", "P1", "ALICE", "D1", vDate, ""], Literal(250));
    var txs := chain.GetTransactions("D1");
    assert "D1" + "T1" == "D1T1";
    assert txs == [Transaction("D1T1", vDate, "", 250, "P1", "CREATE")];
    var listing := chain.GetAllDonationsByUserId("BOB");
    assert listing == [MASK];
    r := chain.CreateDonation(["oops", "P1", "BOB", "D2", vDate, ""], Malformed);
    assert chain.GetTransactions("D2")[0].amount == 0;
    listing := chain.GetAllDonationsByUserId("BOB");
    assert listing == [MASK, "D2"];
    // Text such as "99999999999999999999x" overflows before its bad character.
    r := chain.CreateDonation(["99999999999999999999x", "P1", "BOB", "D3", vDate, ""], Literal(99999999999999999999));
    assert chain.GetTransactions("D3")[0].amount == INT64_MAX;
    // "9999999999999999999x" stays below 2^64 - 1 up to its bad character.
    r := chain.CreateDonation(["9999999999999999999x", "P1", "BOB", "D4", vDate, ""], Malformed);
    assert chain.GetTransactions("D4")[0].amount == 0;
  }
}
