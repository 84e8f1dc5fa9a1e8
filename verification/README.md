# GiveChain ledgers in Dafny

A model of two Hyperledger Fabric chaincodes, with proofs about the model.

- **Batch custody ledger** (`sc_cc.go`). Batches of goods are created by the producer (`FISHCO`). The shipper (`SHIPPINGCO`) claims and transfers them, and a retailer (`RETAILER`) sells items from them. The shipper can also re-grade the quality of everything it holds. Each change appends one history entry to the batch. Three queries walk the `allBatches` index: an owner-filtered id list that the certifier (`CERTIFIER`) sees in full, a detail list with history and signature stripped, and a total item count.
- **Donation ledger** (`GiveChain.go`). `createDonation` stores a donation with one `CREATE` entry and appends it to `allDonations`. The queries return one donation, its history, or a per-user listing that masks donations the user does not own. The chaincode also has a `getAllDonations` query returning the index, but its `Query` entry point does not route that name.

The world state behind `GetState`/`PutState` is a class per chaincode. Each class has a map from id to record and the index sequence, and its handlers are methods with `modifies this`. Each class keeps an invariant (`Valid`):

- every indexed id resolves to a record;
- every record is stored under its own id;
- for batches, every stored quantity is in `0..2^63-1`;
- for donations, every history is the single `CREATE` entry.

Per-record changes (`NewBatch`, `Claimed`, `Transferred`, `Sold`, `QualityUpdated`, `NewDonation`) are functions. Their contracts say which fields change and that exactly one entry is appended. For `Claimed`, `Transferred`, `QualityUpdated` and `NewBatch`, that entry is a snapshot of the new state. The index walks are recursive functions, each defined by its last step, so that the handlers' loops are proved against them.

Numbers follow the Go code on a 64-bit peer. `int` arithmetic wraps in two's complement (`Common.Wrap64`). `strconv.Atoi` is represented by what it returns: `Common.Numeral` is either an integer literal of any size or text Atoi rejects with a syntax error. Text whose leading digits exceed 2^64−1 (the unsigned 64-bit limit the digits are counted in) before its first bad character gets a range error, as an out-of-range literal does, and is represented as one; any other text with a bad character is a syntax error. The error is nil only for a literal that fits in an `int` (`AtoiOk`). The value returned beside the error is 0 on a syntax error and the nearest bound on a range error (`AtoiValue`).

The model follows these behaviours of the code:

- `createDonation` requires 6 arguments; `args[5]` is unused.
- Re-creating an existing batch or donation id is not refused. The record is overwritten, history included, and the id is listed in the index a second time.
- Selling a negative count is accepted and adds to the quantity.
- Because of the wrap-around, a sale succeeds exactly when `0 <= quantity - n <= 2^63-1`.
- `updateBatchQuality` updates a batch listed twice in the index twice.

## Model

| member | source | states |
|---|---|---|
| Common.Wrap64 | sc_cc.go:510-512 | Go `int` arithmetic: the result is in int64 range, equals the exact value when that fits, and is exact − 2^64 just above the top |
| Common.AtoiValue | GiveChain.go:207-208 | Atoi's value is always in int64 range: the literal itself when the error is nil, 0 on a syntax error, the nearest bound on a range error (including text whose leading digits exceed 2^64−1 before a bad character) |
| SupplyChain.NewBatch | sc_cc.go:327-348 | a created batch has the given id, type and quantity, owner `FISHCO`, quality `OK`, empty signature, and a history that is exactly one `CREATE` snapshot of itself |
| SupplyChain.Claimed | sc_cc.go:405-417 | claim sets the owner to `SHIPPINGCO` and keeps id, type, quantity, quality and signature; it appends exactly one `CLAIM` entry snapshotting the new state |
| SupplyChain.Transferred | sc_cc.go:455-468 | transfer sets owner and signature to the arguments and keeps everything else; it appends one `TRANSFER` entry whose owner and signature are the new values |
| SupplyChain.Sold | sc_cc.go:508-528 | a sale succeeds iff the remainder is in `0..2^63-1` (the Go `int` check, wrap included). It then stores quantity − n and sets the owner to `N/A` iff the remainder is 0. It appends one `SELL` entry with n, the buyer as owner and an empty signature |
| SupplyChain.QualityUpdated | sc_cc.go:578-591 | the quality becomes the argument and all other fields are kept; one `UPDATE QUALITY` snapshot of the new state is appended |
| SupplyChain.Owned | sc_cc.go:236-240 | reference filter: an id is in the result iff it is indexed and its batch is owned by the user; the result is no longer than the index |
| SupplyChain.Visible | sc_cc.go:183-194 | the getAllBatches walk is the whole index for `CERTIFIER` and the owner filter for any other user |
| SupplyChain.Details | sc_cc.go:227-240 | the getAllBatchesDetails walk lists, position by position, the stripped record of each id the owner filter keeps |
| SupplyChain.OwnedQuantity | sc_cc.go:270-285 | the exact getNbItems total is between 0 and \|index\| × (2^63−1) when stored quantities are valid |
| SupplyChain.QualityUpdates | sc_cc.go:569-601 | the quality fan-out keeps the key set, every id, owner and quantity, and every batch not owned by `SHIPPINGCO`; it only extends histories |
| SupplyChain.OwnedQuantityAppend | sc_cc.go:272-283 | the item total over a concatenated index is the sum of the totals, so a duplicated index entry is counted each time |
| SupplyChain.OwnedQuantityMatchesDetails | sc_cc.go:281-282 | the item total equals the summed quantity of exactly the batches getAllBatchesDetails lists for that user |
| SupplyChain.QualityUpdatesOnShipperBatch | sc_cc.go:578-591 | a shipper-owned batch listed c > 0 times ends with the new quality and c identical `UPDATE QUALITY` entries appended; if it is not listed it is unchanged |
| SupplyChain.RecreateReplacesHistory | sc_cc.go:352-353 | creating an id that already has history replaces that history, so histories are append-only for every handler except create |
| SupplyChainLedger.BatchChaincode.constructor | sc_cc.go:73-85 | a freshly initialised ledger is empty and satisfies the invariant |
| SupplyChainLedger.BatchChaincode.Init | sc_cc.go:77-79 | Init empties the index, leaves the records and keeps the invariant |
| SupplyChainLedger.BatchChaincode.CreateBatch | sc_cc.go:312-377 | wrong count, wrong role, unparsable quantity or quantity < 1 fail with the matching error and no change. Otherwise the record is set to `NewBatch` and the id is appended to the index, with no duplicate check. Other histories are untouched and the invariant is kept |
| SupplyChainLedger.BatchChaincode.ClaimBatch | sc_cc.go:383-428 | fails without writing on count ≠ 4, role ≠ `SHIPPINGCO` or a missing id. Otherwise exactly that record becomes `Claimed`. The index is unchanged and histories only grow |
| SupplyChainLedger.BatchChaincode.TransferBatch | sc_cc.go:433-479 | fails without writing on count ≠ 6, role ≠ `SHIPPINGCO` or a missing id. Otherwise exactly that record becomes `Transferred` with args[4] and args[5]. The index is unchanged and histories only grow |
| SupplyChainLedger.BatchChaincode.SellBatchItem | sc_cc.go:485-539 | count, role, missing record and Atoi errors are reported in the source's order. An oversale fails and leaves the batch unchanged. Otherwise exactly that record becomes `Sold`. The invariant holds and histories only grow |
| SupplyChainLedger.BatchChaincode.UpdateBatchQuality | sc_cc.go:545-605 | count and role are checked first; on success the state is `QualityUpdates` over the whole index. The index is unchanged and histories only grow |
| SupplyChainLedger.BatchChaincode.GetBatch | sc_cc.go:145-158 | returns the stored record, or nothing exactly when the id is unknown |
| SupplyChainLedger.BatchChaincode.GetAllBatches | sc_cc.go:164-202 | returns, in index order, the ids the user owns, or every indexed id for `CERTIFIER` (membership stated both ways) |
| SupplyChainLedger.BatchChaincode.GetAllBatchesDetails | sc_cc.go:208-248 | returns, in index order, the user's batches (no certifier bypass); each has an empty history and an empty signature |
| SupplyChainLedger.BatchChaincode.GetNbItems | sc_cc.go:253-291 | returns the wrapped total quantity of the user's indexed batches; when the total fits, it is the summed quantity of the details listing |
| GiveChain.NewDonation | GiveChain.go:198-212 | id args[3], owner args[2], project args[1], amount 0. The single `CREATE` entry has id args[3]+`T1`, the project, and the Atoi value of args[0], which is 0 on a syntax error and the nearest bound on a range error |
| GiveChain.DonationChaincode.constructor | GiveChain.go:66-78 | a freshly initialised ledger is empty and satisfies the invariant |
| GiveChain.DonationChaincode.Init | GiveChain.go:70-72 | Init empties the index, leaves the records and keeps the invariant |
| GiveChain.DonationChaincode.CreateDonation | GiveChain.go:187-241 | a count ≠ 6 fails with no change. Otherwise the record is `NewDonation` and the id is appended to the index. The invariant is kept (each history is one `CREATE` entry with id `<id>T1`) |
| GiveChain.DonationChaincode.GetAllDonationsByUserId | GiveChain.go:128-168 | the result is as long as the index; position i holds the i-th id if the user owns that donation and `TESTING` otherwise |
| GiveChain.DonationChaincode.GetAllDonations | GiveChain.go:171-184 | returns the stored index unchanged; `Query` (GiveChain.go:119-121) does not route this name, so no invocation reaches it |
| GiveChain.DonationChaincode.GetDonation | GiveChain.go:244-257 | returns the stored record, or nothing exactly when the id is unknown |
| GiveChain.DonationChaincode.GetTransactions | GiveChain.go:260-278 | returns exactly the stored donation's history, and an empty list for an unknown id |

## Left out

- The ledger host (`shim.ChaincodeStub`) is replaced by a map and a sequence. Errors from `GetState`/`PutState` are not modelled, and neither is the host's all-or-nothing commit of an invocation's writes.
- JSON encoding is not modelled. Records are datatypes. The unexported `tDate` field of a donation entry would not survive serialisation; the model keeps the date argument in it.
- The index key `allBatches`/`allDonations` shares the key space with record ids in the source. A record whose id is the index key would clobber the index; the model keeps the index apart. On the read side, `claimBatch`, `transferBatch` and `sellBatchItem` given the index key as the batch id decode the index into an empty batch without error; claim and transfer then write a record under the empty id, and so does a sale of a count of 0 or less. `getBatch` of the index key returns the index itself. The model answers `NotFound` and `None` there.
- The state before `Init` has run, with no index key, is not modelled. The ledger starts from an initialised, empty state.
- The queries' unchecked unmarshal of an indexed id with no record is not modelled. The invariant rules that case out.
- The dispatchers (`Invoke`, `Run`, `Query`), `main`/`shim.Start` and all logging are left out. So is the parsing of the query name and arity.
- Decimal parsing inside `strconv.Atoi` is left out. Handlers take the argument as a `Numeral` next to the text.
- Roles stay plain strings compared exactly, as in the source, rather than an enumerated type.
