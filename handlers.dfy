/**
 * Every handler of asset-1..go as a function of the world state: the store
 * before the call and the arguments give the store after it, or an error. A
 * failing handler has no store to return: it writes nothing.
 */
module Handlers {
  import opened Wrappers
  import opened Atoi
  import opened Records
  import opened Lifecycle

  /** The world state: one flat namespace from keys to stored payloads. */
  type Store = map<string, Payload>

  /** The key `Init` writes its sentinel under (spelled as in the source). */
  const AssetIndexKey: string := "_assestindex"

  /** `GetState`: the stored payload, or `None` (a nil slice) for an absent key. */
  function Get(st: Store, key: string): Option<Payload> {
    if key in st then Some(st[key]) else None
  }

  /** Every key other than `key` reads the same in `st` and `st'`. */
  ghost predicate OnlyKeyChanged(st: Store, st': Store, key: string) {
    forall k :: k != key ==> Get(st', k) == Get(st, k)
  }

  /** `p` is exactly the stored form of an asset whose serial number is the integer key `k`. */
  predicate AssetUnder(k: string, p: Payload) {
    DecodeAsset(p).Success? && p == EncodeAsset(DecodeAsset(p).value)
    && DecodeAsset(p).value.Serialno == k && ParseInt(k).Some?
  }

  /** `p` is exactly the stored form of a contract whose id is `k`. */
  predicate ContractUnder(k: string, p: Payload) {
    DecodeContract(p).Success? && p == EncodeContract(DecodeContract(p).value)
    && DecodeContract(p).value.Contractid == k
  }

  /**
   * What the handlers leave under a key: the sentinel, an asset stored under
   * its own (integer) serial number, or a contract stored under its own id.
   */
  ghost predicate WellFormed(st: Store) {
    forall k :: k in st ==> st[k] == Sentinel || AssetUnder(k, st[k]) || ContractUnder(k, st[k])
  }

  // ---------------------------------------------------------------- contracts

  /** `getContractObject`: load and decode the contract stored under `id`. */
  function GetContractObject(st: Store, id: string): (r: Result<Contract, Error>)
    ensures r.Success? <==> id in st && DecodeContract(st[id]).Success?
    ensures id !in st ==> r == Failure(NotFound)
    ensures r.Failure? ==> r.error == NotFound
    ensures r.Success? ==> id in st && DecodeContract(st[id]) == r
  {
    match Get(st, id)
    case None => Failure(NotFound)
    case Some(p) => DecodeContract(p)
  }

  /** `save_changes`: write `sc` under its own id; reading it back gives `sc` again. */
  function SaveChanges(st: Store, sc: Contract): (st': Store)
    ensures GetContractObject(st', sc.Contractid) == Success(sc)
    ensures OnlyKeyChanged(st, st', sc.Contractid)
  {
    st[sc.Contractid := EncodeContract(sc)]
  }

  lemma SaveChangesWellFormed(st: Store, sc: Contract)
    requires WellFormed(st)
    ensures WellFormed(SaveChanges(st, sc))
  {
  }

  // ---------------------------------------------------------------- handlers

  /** `Init`: store the sentinel under the asset index key, whatever was there. */
  function Init(st: Store): (st': Store)
    ensures Get(st', AssetIndexKey) == Some(Sentinel)
    ensures OnlyKeyChanged(st, st', AssetIndexKey)
  {
    st[AssetIndexKey := Sentinel]
  }

  /** `initAssset`. */
  function InitAsset(st: Store, args: seq<string>): (r: Result<Store, Error>)
    ensures r.Success? <==> |args| == 3 && ParseInt(args[0]).Some? && args[0] !in st
    ensures r.Failure? ==> r.error == if |args| == 3 && ParseInt(args[0]).Some? then AlreadyExists else InvalidArgument
    ensures r.Success? ==> Get(r.value, args[0]) == Some(EncodeAsset(Asset(args[0], args[1], args[2])))
    ensures r.Success? ==> OnlyKeyChanged(st, r.value, args[0])
  {
    var a :- CreateAssetObject(args);
    if a.Serialno in st then Failure(AlreadyExists) else Success(st[args[0] := EncodeAsset(a)])
  }

  /** `initContract`: the new contract is OPEN, stamped `now`, and `args[7]` is ignored. */
  function InitContract(st: Store, args: seq<string>, now: string): (r: Result<Store, Error>)
    ensures r.Success? <==> |args| == 8 && SpellsZero(args[1]) && args[0] !in st
    ensures r.Failure? ==> r.error == if |args| == 8 && SpellsZero(args[1]) then AlreadyExists else InvalidArgument
    ensures r.Success? ==>
      GetContractObject(r.value, args[0]) ==
      Success(Contract(args[0], StageOpen, args[2], args[3], args[4], args[5], args[6], now))
    ensures r.Success? ==> OnlyKeyChanged(st, r.value, args[0])
  {
    var c :- CreateContractObject(args, now);
    if c.Contractid in st then Failure(AlreadyExists) else Success(st[args[0] := EncodeContract(c)])
  }

  /** The members `updateOwner` reads from the record it loads. */
  predicate AssetReadable(dat: map<string, Field>) {
    StrField(dat, "Serialno").Success? && StrField(dat, "Partno").Success?
  }

  /** The members `updateContract` reads from the record it loads. */
  predicate ContractReadable(dat: map<string, Field>) {
    && StrField(dat, "Contractid").Success? && StrField(dat, "Buyer").Success?
    && StrField(dat, "Transporter").Success? && StrField(dat, "Seller").Success?
    && StrField(dat, "AssetID").Success?
  }

  /**
   * `updateOwner`: reads `Serialno` and `Partno` from whatever is stored under
   * `args[0]` and writes a new asset with owner `args[1]` under that `Serialno`.
   */
  function UpdateOwner(st: Store, args: seq<string>): (r: Result<Store, Error>)
    ensures |args| != 2 ==> r == Failure(InvalidArgument)
    ensures |args| == 2 && args[0] !in st ==> r == Failure(NotFound)
    ensures r.Success? <==>
      |args| == 2 && JsonToArgs(Get(st, args[0])).Success? && AssetReadable(JsonToArgs(Get(st, args[0])).value)
    ensures r.Failure? ==> r.error == if |args| != 2 then InvalidArgument else NotFound
    ensures r.Success? ==>
      var dat := JsonToArgs(Get(st, args[0])).value;
      var a := Asset(StrField(dat, "Serialno").value, StrField(dat, "Partno").value, args[1]);
      r.value == st[a.Serialno := EncodeAsset(a)]
  {
    if |args| != 2 then Failure(InvalidArgument)
    else
      var dat :- JsonToArgs(Get(st, args[0]));
      var serial :- StrField(dat, "Serialno");
      var part :- StrField(dat, "Partno");
      var a := Asset(serial, part, args[1]);
      Success(st[serial := EncodeAsset(a)])
  }

  /**
   * `updateContract`: overwrites `Stage` with any integer and `DocumentID`, and
   * stamps `now`, with no check of stage order or of who asks.
   */
  function UpdateContract(st: Store, args: seq<string>, now: string): (r: Result<Store, Error>)
    ensures |args| != 3 ==> r == Failure(InvalidArgument)
    ensures |args| == 3 && ParseInt(args[2]).None? ==> r == Failure(InvalidArgument)
    ensures |args| == 3 && ParseInt(args[2]).Some? && args[0] !in st ==> r == Failure(NotFound)
    ensures r.Success? <==>
      && |args| == 3 && ParseInt(args[2]).Some?
      && JsonToArgs(Get(st, args[0])).Success? && ContractReadable(JsonToArgs(Get(st, args[0])).value)
    ensures r.Failure? ==>
      r.error == if |args| != 3 || ParseInt(args[2]).None? then InvalidArgument else NotFound
    ensures r.Success? ==>
      var dat := JsonToArgs(Get(st, args[0])).value;
      r.value == SaveChanges(st, Contract(
        StrField(dat, "Contractid").value, ParseInt(args[2]).value,
        StrField(dat, "Buyer").value, StrField(dat, "Transporter").value,
        StrField(dat, "Seller").value, StrField(dat, "AssetID").value, args[1], now))
  {
    if |args| != 3 then Failure(InvalidArgument)
    else
      match ParseInt(args[2])
      case None => Failure(InvalidArgument)
      case Some(stage) =>
        var dat :- JsonToArgs(Get(st, args[0]));
        var id :- StrField(dat, "Contractid");
        var buyer :- StrField(dat, "Buyer");
        var transporter :- StrField(dat, "Transporter");
        var seller :- StrField(dat, "Seller");
        var assetId :- StrField(dat, "AssetID");
        var c := Contract(id, stage, buyer, transporter, seller, assetId, args[1], now);
        Success(SaveChanges(st, c))
  }

  /** The document a transition attaches: readyForShipment's `args[3]`; the others take none. */
  function NewDocument(t: Transition, args: seq<string>): string
    requires |args| >= t.ArgCount()
  {
    if t == ReadyForShipment then args[3] else ""
  }

  /**
   * `toReadyForShipment`, `toInTransit`, `toShipmentReached` and
   * `toShipmentDelivered`: load the contract under `args[0]`, check the
   * stage/role/caller triple, advance the stage and save the contract.
   */
  function Transfer(st: Store, t: Transition, args: seq<string>): (r: Result<Store, Error>)
    ensures r.Success? <==>
      (|args| >= t.ArgCount() && GetContractObject(st, args[0]).Success?
       && Permits(t, GetContractObject(st, args[0]).value, args[1], args[2]))
    ensures r.Failure? ==>
      r.error == (if |args| < t.ArgCount() then InvalidArgument
                  else if GetContractObject(st, args[0]).Failure? then NotFound
                  else PermissionDenied)
    ensures r.Success? ==>
      var c := GetContractObject(st, args[0]).value;
      && GetContractObject(r.value, c.Contractid) == Success(c.(
           Stage := c.Stage + 1,
           DocumentID := if t == ReadyForShipment then args[3] else c.DocumentID))
      && OnlyKeyChanged(st, r.value, c.Contractid)
  {
    if |args| < t.ArgCount() then Failure(InvalidArgument)
    else
      var sc :- GetContractObject(st, args[0]);
      var next :- Advance(t, sc, args[1], args[2], NewDocument(t, args));
      Success(SaveChanges(st, next))
  }

  /** `readState` and `readContract` (the same code): the stored payload, verbatim. */
  function ReadState(st: Store, args: seq<string>): (r: Result<Option<Payload>, Error>)
    ensures r.Success? <==> |args| == 1
    ensures r.Success? ==> (r.value.Some? <==> args[0] in st)
    ensures r.Success? && args[0] in st ==> r.value.value == st[args[0]]
  {
    if |args| != 1 then Failure(InvalidArgument) else Success(Get(st, args[0]))
  }

  /** Lexicographic order on keys, character by character. */
  predicate LexLe(a: string, b: string)
    decreases |a|
  {
    |a| == 0 || (|b| > 0 && (a[0] < b[0] || (a[0] == b[0] && LexLe(a[1..], b[1..]))))
  }

  lemma {:induction false} LexLeReflexive(a: string)
    ensures LexLe(a, a)
    decreases |a|
  {
    if |a| > 0 {
      LexLeReflexive(a[1..]);
    }
  }

  lemma {:induction false} LexLeAntisymmetric(a: string, b: string)
    requires LexLe(a, b) && LexLe(b, a)
    ensures a == b
    decreases |a|
  {
    if |a| > 0 {
      LexLeAntisymmetric(a[1..], b[1..]);
      assert a == [a[0]] + a[1..] && b == [b[0]] + b[1..];
    }
  }

  /** `getAllKeys`: the keys from `args[0]` to `args[1]`, both inclusive (the order is the store's). */
  function GetAllKeys(st: Store, args: seq<string>): (r: Result<set<string>, Error>)
    ensures r.Success? <==> |args| >= 2
    ensures r.Success? ==> r.value <= st.Keys
  {
    if |args| < 2 then Failure(InvalidArgument)
    else Success(set k | k in st && LexLe(args[0], k) && LexLe(k, args[1]))
  }

  /** A range from a key to itself lists that key exactly when it is stored. */
  lemma KeysOfPointRange(st: Store, k: string)
    ensures GetAllKeys(st, [k, k]) == Success(if k in st then {k} else {})
  {
    LexLeReflexive(k);
    forall j | j in st && LexLe(k, j) && LexLe(j, k) ensures j == k {
      LexLeAntisymmetric(k, j);
    }
    assert (set j | j in st && LexLe(k, j) && LexLe(j, k)) == (if k in st then {k} else {});
  }

  // ---------------------------------------------------------------- dispatch

  /** The function names `Invoke` knows. */
  const InvokeNames: set<string> := {
    "init", "initAssset", "ownerUpdation", "initContract", "contractUpdation",
    "readyForShipment", "inTransit", "shipmentReached", "shipmentDelivered" }

  /** The transition a function name of `Invoke` runs, if it is a guarded one. */
  function TransitionNamed(fn: string): Option<Transition> {
    if fn == "readyForShipment" then Some(ReadyForShipment)
    else if fn == "inTransit" then Some(InTransit)
    else if fn == "shipmentReached" then Some(ShipmentReached)
    else if fn == "shipmentDelivered" then Some(ShipmentDelivered)
    else None
  }

  /** `Invoke`: route a function name to its handler. */
  function Invoke(st: Store, fn: string, args: seq<string>, now: string): (r: Result<Store, Error>)
    ensures r == Failure(UnknownFunction) <==> fn !in InvokeNames
  {
    if fn == "init" then Success(Init(st))
    else if fn == "initAssset" then InitAsset(st, args)
    else if fn == "ownerUpdation" then UpdateOwner(st, args)
    else if fn == "initContract" then InitContract(st, args, now)
    else if fn == "contractUpdation" then UpdateContract(st, args, now)
    else if TransitionNamed(fn).Some? then Transfer(st, TransitionNamed(fn).value, args)
    else Failure(UnknownFunction)
  }

  /** What a query returns: a stored payload (`None` for an absent key) or a set of keys. */
  datatype Reply = Value(payload: Option<Payload>) | Keys(keys: set<string>)

  const QueryNames: set<string> := {"readState", "keys", "readContract"}

  /** `Query`: route a function name to a read-only handler. */
  function Query(st: Store, fn: string, args: seq<string>): (r: Result<Reply, Error>)
    ensures r == Failure(UnknownFunction) <==> fn !in QueryNames
  {
    if fn == "readState" || fn == "readContract" then
      var v :- ReadState(st, args);
      Success(Value(v))
    else if fn == "keys" then
      var ks :- GetAllKeys(st, args);
      Success(Keys(ks))
    else Failure(UnknownFunction)
  }
}
