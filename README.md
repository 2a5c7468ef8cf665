# Asset transfer chaincode: a verified model

This project models the Hyperledger Fabric chaincode in
`Chaincode/src/TransferCode/asset-1..go`, written in Go. The chaincode keeps a
ledger of two record kinds in one flat, string-keyed world state:

- **assets**: serial number, part number and owner;
- **sales contracts**: id, stage, buyer, transporter, seller, asset, document
  and time stamp.

A contract moves through five stages: 0 OPEN, 1 READY_FOR_SHIPMENT,
2 IN_TRANSIT, 3 SHIPMENT_REACHED and 4 SHIPMENT_DELIVERED. Four guarded
transitions each move it one stage up. Each loads the contract, checks three
things together and writes the contract back. The three checks are the
current stage, the role string the caller claims, and that the caller is the
matching party. Every handler is one read-check-write step on the state.

## Modules

- `Wrappers` (wrappers.dfy): `Option`, `Result` and `Outcome`.
- `Atoi` (atoi.dfy): `strconv.Atoi` on a 64-bit platform. It accepts an
  optional single sign, then one or more ASCII digits, with a value inside the
  signed 64-bit range. It also gives the zero spellings and a decimal
  formatter that serves as its inverse.
- `Records` (records.dfy): `Asset`, `Contract`, the stage constants and the
  error kinds. It also holds the stored form of a record (`Payload`), the
  codecs (`ARtoJSON`, `CTRCTtoJSON`, the decode in `getContractObject`) and
  `CreateAssetObject`/`CreateContractObject`.
- `Lifecycle` (lifecycle.dfy): the four guarded transitions as one table
  (`Transition`). It has the check-and-update on a loaded contract
  (`Advance`) and what any sequence of transitions can do to a contract
  (`Run`).
- `Handlers` (handlers.dfy): every handler as a function from the store and
  the arguments to the new store or an error. A failing handler returns no
  store, so it writes nothing. This module also holds `Invoke`/`Query`
  dispatch and the store invariant `WellFormed`.
- `Properties` (properties.dfy): what each handler does to a well-formed
  store. It proves that every invocation keeps the store well-formed, and
  what any sequence of invocations can do to a stored contract.
- `Chaincode` (ledger.dfy): class `Ledger`, whose `state` field is the world
  state. It has one method per handler, written imperatively with
  `GetState`/`PutState`. Each method is proved to return the status and leave
  the state that the matching `Handlers` function specifies. On failure it
  leaves the state unchanged.

Stored values are modelled as what `json.Unmarshal` into a
`map[string]interface{}` sees. A `Payload` is one of three things:

- the literal `null` (the sentinel `Init` writes);
- an object whose members are strings, numbers or other values;
- anything that does not unmarshal into a map.

Handlers read members by name and type, as the source's `dat["X"].(string)`
does. A missing or mistyped member is a panic in Go. Here it is a `NotFound`
error that leaves the state unchanged.

The clock reading `time.Now().Format("20060102150405")` is the parameter
`now`. The caller's identity and role are plain arguments, trusted as given,
as in the source.

Where the code departs from the lifecycle rules the system is meant to
follow, the model follows the code:

- The four guarded transitions do not refresh `TimeStamp`. Only contract
  creation and `updateContract` stamp the time.
- Contract creation accepts any integer spelling of zero as the initial
  stage: "0", "00", "+0", "-0" (`Atoi.ParseIntZero`).
- `updateContract` sets any integer stage and any document at any time, with
  no role or caller check. The rule "the stage only increases" holds only
  for the other handlers (`Properties.ReplayKeepsContract`).
  `Properties.UpdateContractCanReopen` shows a delivered contract taken back
  to OPEN.
- Reading an absent key succeeds with an empty payload (`None`). It is not a
  NotFound error.
- `init` overwrites whatever is stored under `_assestindex`, including a
  contract created under that id.
- `updateOwner` and `updateContract` write under the key read from the
  loaded record (`Serialno`, `Contractid`), not under `args[0]`. The two
  agree on a well-formed store (`Properties.UpdateOwnerOnLedger`,
  `Properties.UpdateContractOnLedger`).

## Model

| member | source | states |
|---|---|---|
| Atoi.ParseInt | Chaincode/src/TransferCode/asset-1..go:367-373 | a string is accepted exactly when it is an optional sign followed by one or more digits whose value, with that sign, lies in the signed 64-bit range; the result is that signed value |
| Atoi.ParseSpelling | Chaincode/src/TransferCode/asset-1..go:287-291 | every in-range integer is accepted in every spelling Atoi allows (an optional sign and any number of leading zeros before its digits) and read back as that integer |
| Atoi.NonCanonicalSpellings | Chaincode/src/TransferCode/asset-1..go:367-373 | "007" reads as 7, "+5" as 5 and "-042" as -42; one past the largest 64-bit integer is rejected |
| Atoi.ParseIntZero | Chaincode/src/TransferCode/asset-1..go:395-403 | a string parses as 0 exactly when it is an optional sign followed by one or more '0' digits |
| Atoi.ZeroSpellings | Chaincode/src/TransferCode/asset-1..go:395-403 | "0", "00", "+0" and "-0" all parse as 0; "", "+", "-", " 0" and "0x0" are rejected |
| Atoi.ParseFormat | Chaincode/src/TransferCode/asset-1..go:287-291 | every 64-bit integer is accepted in its decimal spelling and read back unchanged |
| Records.EncodeAsset | Chaincode/src/TransferCode/asset-1..go:411-420 | an encoded asset decodes back to the same asset and never decodes as a contract |
| Records.EncodeContract | Chaincode/src/TransferCode/asset-1..go:422-431 | an encoded contract decodes back (by getContractObject's field reads) to the same contract in every field, stage as the same integer, and never decodes as an asset |
| Records.JsonToArgs | Chaincode/src/TransferCode/asset-1..go:434-443 | an absent key or a value that is not a JSON object or null fails with NotFound; null gives the empty map; an object gives its members |
| Records.DecodeContract | Chaincode/src/TransferCode/asset-1..go:617-623 | decoding succeeds exactly when the payload is an object whose Stage member is a number and whose seven other members are strings (extra members are ignored); any failure is NotFound; a decoded contract's eight fields are exactly those members |
| Records.EncodeContractInjective | Chaincode/src/TransferCode/asset-1..go:585-601 | distinct contracts are stored as distinct payloads |
| Records.SentinelIsNoRecord | Chaincode/src/TransferCode/asset-1..go:61-72 | the null sentinel written by Init decodes as neither an asset nor a contract |
| Records.CreateAssetObject | Chaincode/src/TransferCode/asset-1..go:355-379 | succeeds exactly for three arguments whose first is a 64-bit integer, giving the asset (args[0], args[1], args[2]); otherwise InvalidArgument |
| Records.CreateContractObject | Chaincode/src/TransferCode/asset-1..go:381-409 | succeeds exactly for eight arguments whose second spells zero, giving an OPEN contract from args[0] and args[2..6] stamped now; otherwise InvalidArgument |
| Records.CreateContractIgnoresEighth | Chaincode/src/TransferCode/asset-1..go:388-405 | the eighth argument has no effect on contract creation |
| Lifecycle.Advance | Chaincode/src/TransferCode/asset-1..go:461-470 | succeeds exactly when stage, role and caller all match the transition; then the stage is one higher, readyForShipment attaches the new document, and id, parties, asset and time stamp are kept; otherwise PermissionDenied |
| Lifecycle.AuthorisationTable | Chaincode/src/TransferCode/asset-1..go:448-581 | the four required triples: stage 0 seller Seller, stage 1 transporter Transporter, stage 2 transporter Transporter, stage 3 lease_company Buyer |
| Lifecycle.OneTransitionPerStage | Chaincode/src/TransferCode/asset-1..go:448-581 | at most one transition is enabled for a contract, and none unless its stage is 0 to 3 |
| Lifecycle.RunMonotone | Chaincode/src/TransferCode/asset-1..go:448-581 | any sequence of transition requests never lowers the stage, never takes it past DELIVERED, raises it by at most one per request, and keeps id, parties, asset and time stamp |
| Lifecycle.DeliveredIsFinal | Chaincode/src/TransferCode/asset-1..go:564-572 | no sequence of requests changes a delivered contract |
| Lifecycle.HappyPath | Chaincode/src/TransferCode/asset-1..go:448-581 | the four transitions in order, each by its party with its role, take an OPEN contract to DELIVERED with the new document and nothing else changed |
| Handlers.GetContractObject | Chaincode/src/TransferCode/asset-1..go:603-625 | loading succeeds exactly when the id is stored and its value decodes as a contract, and then gives that decoding; otherwise NotFound |
| Handlers.SaveChanges | Chaincode/src/TransferCode/asset-1..go:585-601 | after saving, loading the contract's id gives the same contract back; no other key changes |
| Handlers.SaveChangesWellFormed | Chaincode/src/TransferCode/asset-1..go:585-601 | saving a contract keeps the store well-formed |
| Handlers.Init | Chaincode/src/TransferCode/asset-1..go:61-72 | the sentinel is stored under _assestindex and no other key changes |
| Handlers.InitAsset | Chaincode/src/TransferCode/asset-1..go:122-157 | fails with no write when the argument count is not 3 or the serial is not an integer (InvalidArgument) or the key is occupied (AlreadyExists); otherwise stores the asset under its serial and nothing else changes |
| Handlers.InitContract | Chaincode/src/TransferCode/asset-1..go:159-193 | fails with no write on a count other than 8 or a stage that does not spell zero (InvalidArgument) or an occupied key (AlreadyExists); otherwise the id loads as the OPEN contract built from the arguments and nothing else changes |
| Handlers.UpdateOwner | Chaincode/src/TransferCode/asset-1..go:234-274 | succeeds exactly for two arguments where the record under args[0] unmarshals and has string Serialno and Partno members; a count other than 2 is InvalidArgument and every other failure NotFound; a success writes the asset (stored Serialno, stored Partno, args[1]) under the stored Serialno and nothing else |
| Handlers.UpdateContract | Chaincode/src/TransferCode/asset-1..go:277-317 | succeeds exactly for three arguments with an integer stage where the record under args[0] unmarshals and has string Contractid, Buyer, Transporter, Seller and AssetID members; a count other than 3 or a non-integer stage is InvalidArgument and every other failure NotFound; a success saves the contract with those five stored members, the parsed stage, document args[1] and time stamp now, under the stored Contractid |
| Handlers.Transfer | Chaincode/src/TransferCode/asset-1..go:448-581 | succeeds exactly when enough arguments are given, the contract loads and the triple holds; failures are InvalidArgument, NotFound or PermissionDenied in that order; on success the contract reads back with stage one higher (and the new document for readyForShipment) and nothing else changes |
| Handlers.ReadState | Chaincode/src/TransferCode/asset-1..go:196-231 | succeeds exactly for one argument and returns the stored payload verbatim, or nothing for an absent key |
| Handlers.GetAllKeys | Chaincode/src/TransferCode/asset-1..go:319-353 | needs at least two arguments and lists only stored keys |
| Handlers.KeysOfPointRange | Chaincode/src/TransferCode/asset-1..go:319-353 | the range from a key to itself lists exactly that key when it is stored, and nothing otherwise |
| Handlers.Invoke | Chaincode/src/TransferCode/asset-1..go:75-101 | UnknownFunction is returned exactly for names outside the nine handled ones |
| Handlers.Query | Chaincode/src/TransferCode/asset-1..go:104-120 | UnknownFunction is returned exactly for names other than readState, keys and readContract |
| Properties.ContractInStore | Chaincode/src/TransferCode/asset-1..go:603-625 | in a well-formed store a loaded contract is stored exactly as encoded, under its own id |
| Properties.TransferOnLedger | Chaincode/src/TransferCode/asset-1..go:585-601 | on a well-formed store a successful transition writes under the key it loaded from, with stage one higher, the document rule, nothing else changed, and the store stays well-formed |
| Properties.InvokeTransition | Chaincode/src/TransferCode/asset-1..go:89-96 | a permitted transition reached through Invoke succeeds, advances the stored stage by one and keeps the store well-formed |
| Properties.UpdateOwnerOnLedger | Chaincode/src/TransferCode/asset-1..go:234-274 | on a well-formed store updateOwner succeeds exactly on an asset, keeps its serial and part numbers, replaces the owner and writes under the same key |
| Properties.UpdateContractOnLedger | Chaincode/src/TransferCode/asset-1..go:277-317 | on a well-formed store updateContract succeeds exactly on a contract with an integer stage; it sets that stage, the document and the time stamp and keeps id, parties and asset under the same key |
| Properties.UpdateContractCanReopen | Chaincode/src/TransferCode/asset-1..go:277-317 | updateContract takes a delivered contract back to OPEN: it is not bound by the lifecycle |
| Properties.InitAssetTwice | Chaincode/src/TransferCode/asset-1..go:132-142 | a second initAssset on the same serial fails with AlreadyExists and the first record stays |
| Properties.InvokePreservesWellFormed | Chaincode/src/TransferCode/asset-1..go:75-101 | every successful invocation keeps the store well-formed |
| Properties.InvokeKeepsContract | Chaincode/src/TransferCode/asset-1..go:75-101 | on a well-formed store, for a contract not stored under _assestindex: no invocation other than contractUpdation removes it or changes its id, parties, asset or time stamp; its stage either stays or rises by one from below DELIVERED, and past OPEN its document stays |
| Properties.ReplayWellFormed | Chaincode/src/TransferCode/asset-1..go:75-101 | any sequence of invocations keeps a well-formed store well-formed |
| Properties.ReplayKeepsContract | Chaincode/src/TransferCode/asset-1..go:448-581 | on a well-formed store, for a contract not stored under _assestindex whose stage starts within 0..4: over any sequence of invocations without contractUpdation it stays, keeps its parties, its stage never decreases, never passes DELIVERED and rises at most one per call, and once past OPEN its document stays |
| Properties.InvokeKeepsIdentity | Chaincode/src/TransferCode/asset-1..go:296-311 | on a well-formed store, for a contract not stored under _assestindex: every successful invocation, contractUpdation included, leaves it loadable under its key with the same id, buyer, transporter, seller and asset |
| Properties.ReplayKeepsIdentity | Chaincode/src/TransferCode/asset-1..go:75-101 | on a well-formed store, for a contract not stored under _assestindex: over any sequence of invocations, contractUpdation included, it stays loadable under its key with the same id, buyer, transporter, seller and asset |
| Properties.InvokeKeepsAsset | Chaincode/src/TransferCode/asset-1..go:234-274 | on a well-formed store, no invocation removes a stored asset or makes it anything but an asset; it stays as it was unless ownerUpdation on its key replaces only its owner with args[1] |
| Properties.ReplayKeepsAsset | Chaincode/src/TransferCode/asset-1..go:75-101 | on a well-formed store, over any sequence of invocations a stored asset stays under its serial with the same part number, and without ownerUpdation it stays exactly as it was |
| Properties.LedgerHappyPath | Chaincode/src/TransferCode/asset-1..go:448-581 | the four invocations by the right parties take a stored OPEN contract to DELIVERED with only stage and document changed |
| Properties.WrongTransporterRefused | Chaincode/src/TransferCode/asset-1..go:484-504 | after creation and readyForShipment by the seller, inTransit by anyone but the transporter is PermissionDenied |
| Chaincode.Ledger.GetState | Chaincode/src/TransferCode/asset-1..go:205-211 | returns the stored payload, or nothing for an absent key |
| Chaincode.Ledger.PutState | Chaincode/src/TransferCode/asset-1..go:594 | the state becomes the old state with that one key overwritten by the payload |
| Chaincode.Ledger.Init | Chaincode/src/TransferCode/asset-1..go:61-72 | the state becomes Handlers.Init of the old state |
| Chaincode.Ledger.InitAsset | Chaincode/src/TransferCode/asset-1..go:122-157 | status and new state are those of Handlers.InitAsset; on failure the state is unchanged |
| Chaincode.Ledger.InitContract | Chaincode/src/TransferCode/asset-1..go:159-193 | status and new state are those of Handlers.InitContract; on failure the state is unchanged |
| Chaincode.Ledger.ReadState | Chaincode/src/TransferCode/asset-1..go:196-231 | returns Handlers.ReadState of the state |
| Chaincode.Ledger.UpdateOwner | Chaincode/src/TransferCode/asset-1..go:234-274 | status and new state are those of Handlers.UpdateOwner; on failure the state is unchanged |
| Chaincode.Ledger.UpdateContract | Chaincode/src/TransferCode/asset-1..go:277-317 | status and new state are those of Handlers.UpdateContract; on failure the state is unchanged |
| Chaincode.Ledger.GetContractObject | Chaincode/src/TransferCode/asset-1..go:603-625 | returns Handlers.GetContractObject of the state |
| Chaincode.Ledger.SaveChanges | Chaincode/src/TransferCode/asset-1..go:585-601 | the state becomes Handlers.SaveChanges of the old state |
| Chaincode.Ledger.Transfer | Chaincode/src/TransferCode/asset-1..go:448-581 | updating the loaded contract in place gives the status and new state of Handlers.Transfer; on failure the state is unchanged |
| Chaincode.Ledger.GetAllKeys | Chaincode/src/TransferCode/asset-1..go:319-353 | returns Handlers.GetAllKeys of the state |
| Chaincode.Ledger.Invoke | Chaincode/src/TransferCode/asset-1..go:75-101 | status and new state are those of Handlers.Invoke; on failure the state is unchanged |
| Chaincode.Ledger.Query | Chaincode/src/TransferCode/asset-1..go:104-120 | returns Handlers.Query of the state |

## Left out

- Concurrency and the Fabric runtime (`shim.Start`, ordering, consensus). Each invocation is one atomic step on the state. The lost-update race between two transitions on the same contract is outside this code.
- Byte-level JSON (`encoding/json`). A stored value is modelled after unmarshalling, as a `Payload`. Go's string escaping, the replacement of invalid UTF-8, duplicate member names and non-integer numbers are not modelled.
- Records.DecodeContract: reads `Stage` exactly. The source reads it through `float64` (line 622), which holds integers exactly only up to 2^53 in magnitude. Larger stages, reachable only through `updateContract`, are rounded to a nearby `float64`. Stages within about 512 of 2^63 round up to 2^63 itself, and Go's `int(...)` of a `float64` outside the `int` range gives an implementation-dependent value rather than a rounding. Neither effect is modelled.
- Errors from `GetState`/`PutState` (the storage-failure paths of every handler). The state is a map whose reads and writes cannot fail.
- Go panics: a type assertion on a missing or mistyped member, and indexing past the arguments in the four transitions. Both are modelled as errors that write nothing (`NotFound` and `InvalidArgument`). The runtime's handling of a panic is not modelled.
- Handlers.GetAllKeys: states the range scan as a set of keys, both bounds inclusive, in character order. The store's iterator, its order and the JSON array of keys are not modelled; the scan itself is foreign code.
- `fmt` logging and the exact error strings. Errors are reduced to their kind.
- The clock. `now` is a parameter.
