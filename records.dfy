/**
 * The two record kinds of the ledger, the abstract stored form of a record, and
 * the constructors and codecs of asset-1..go.
 */
module Records {
  import opened Wrappers
  import opened Atoi

  /** Contract lifecycle stages. */
  const StageOpen: int := 0
  const StageReadyForShipment: int := 1
  const StageInTransit: int := 2
  const StageShipmentReached: int := 3
  const StageShipmentDelivered: int := 4

  datatype Asset = Asset(Serialno: string, Partno: string, Owner: string)

  datatype Contract = Contract(
    Contractid: string,
    Stage: int,
    Buyer: string,
    Transporter: string,
    Seller: string,
    AssetID: string,
    DocumentID: string,
    TimeStamp: string)

  /** The kinds of failure a handler reports; the error strings are not modelled. */
  datatype Error =
    | InvalidArgument   // wrong argument count, or an argument that must be an integer is not
    | AlreadyExists     // create on an occupied key
    | NotFound          // absent key, or a stored value without the fields the handler reads
    | PermissionDenied  // the stage/role/caller triple of a guarded transition fails
    | UnknownFunction   // a function name the dispatcher does not know

  /** A top-level member of a stored JSON object, as `json.Unmarshal` types it. */
  datatype Field = Str(s: string) | Num(n: int) | OtherValue

  /**
   * The bytes stored under a key, seen through `json.Unmarshal` into a
   * `map[string]interface{}`: the JSON literal null, an object with named
   * members, or anything that does not unmarshal into a map.
   */
  datatype Payload = Null | Object(fields: map<string, Field>) | Unreadable

  /** What `Init` stores: `json.Marshal` of a nil string slice is the literal null. */
  const Sentinel: Payload := Null

  /**
   * `JSONtoArgs` applied to what `GetState` returned (`None` for an absent key).
   * An absent key is an empty input, which does not unmarshal; null unmarshals to a
   * nil map, in which every lookup misses.
   */
  function JsonToArgs(p: Option<Payload>): (r: Result<map<string, Field>, Error>)
    ensures r.Success? <==> p.Some? && !p.value.Unreadable?
    ensures r.Failure? ==> r.error == NotFound
    ensures p == Some(Null) ==> r == Success(map[])
    ensures r.Success? && p.value.Object? ==> r.value == p.value.fields
  {
    match p
    case None => Failure(NotFound)
    case Some(Unreadable) => Failure(NotFound)
    case Some(Null) => Success(map[])
    case Some(Object(fields)) => Success(fields)
  }

  /** `dat[name].(string)`; a missing or non-string member panics in the source. */
  function StrField(dat: map<string, Field>, name: string): Result<string, Error> {
    if name in dat && dat[name].Str? then Success(dat[name].s) else Failure(NotFound)
  }

  /** `int(dat[name].(float64))`; a missing or non-numeric member panics in the source. */
  function NumField(dat: map<string, Field>, name: string): Result<int, Error> {
    if name in dat && dat[name].Num? then Success(dat[name].n) else Failure(NotFound)
  }

  /** A map with every member `getContractObject` reads, each of the type it asserts. */
  predicate ContractMembers(dat: map<string, Field>) {
    && NumField(dat, "Stage").Success?
    && StrField(dat, "Contractid").Success? && StrField(dat, "Buyer").Success?
    && StrField(dat, "Transporter").Success? && StrField(dat, "Seller").Success?
    && StrField(dat, "AssetID").Success? && StrField(dat, "DocumentID").Success?
    && StrField(dat, "TimeStamp").Success?
  }

  /** The decode half of `getContractObject`: every member read by name and type. */
  function DecodeContract(p: Payload): (r: Result<Contract, Error>)
    ensures r.Success? <==> p.Object? && ContractMembers(p.fields)
    ensures !p.Object? ==> r == Failure(NotFound)
    ensures r.Failure? ==> r.error == NotFound
    ensures r.Success? ==>
      && NumField(p.fields, "Stage") == Success(r.value.Stage)
      && StrField(p.fields, "Contractid") == Success(r.value.Contractid)
      && StrField(p.fields, "Buyer") == Success(r.value.Buyer)
      && StrField(p.fields, "Transporter") == Success(r.value.Transporter)
      && StrField(p.fields, "Seller") == Success(r.value.Seller)
      && StrField(p.fields, "AssetID") == Success(r.value.AssetID)
      && StrField(p.fields, "DocumentID") == Success(r.value.DocumentID)
      && StrField(p.fields, "TimeStamp") == Success(r.value.TimeStamp)
  {
    var dat :- JsonToArgs(Some(p));
    var stage :- NumField(dat, "Stage");
    var id :- StrField(dat, "Contractid");
    var buyer :- StrField(dat, "Buyer");
    var transporter :- StrField(dat, "Transporter");
    var seller :- StrField(dat, "Seller");
    var assetId :- StrField(dat, "AssetID");
    var documentId :- StrField(dat, "DocumentID");
    var timeStamp :- StrField(dat, "TimeStamp");
    Success(Contract(id, stage, buyer, transporter, seller, assetId, documentId, timeStamp))
  }

  /** Reads an asset back from its stored form; the inverse of `EncodeAsset`. */
  function DecodeAsset(p: Payload): Result<Asset, Error> {
    var dat :- JsonToArgs(Some(p));
    var serialno :- StrField(dat, "Serialno");
    var partno :- StrField(dat, "Partno");
    var owner :- StrField(dat, "Owner");
    Success(Asset(serialno, partno, owner))
  }

  /** `ARtoJSON`: an object whose members are the struct's field names. */
  function EncodeAsset(a: Asset): (p: Payload)
    ensures DecodeAsset(p) == Success(a)
    ensures DecodeContract(p).Failure?
  {
    Object(map["Serialno" := Str(a.Serialno), "Partno" := Str(a.Partno), "Owner" := Str(a.Owner)])
  }

  /** `CTRCTtoJSON` and the encoding in `save_changes`: `Stage` is a number, the rest strings. */
  function EncodeContract(c: Contract): (p: Payload)
    ensures DecodeContract(p) == Success(c)
    ensures DecodeAsset(p).Failure?
  {
    Object(map[
      "Contractid" := Str(c.Contractid),
      "Stage" := Num(c.Stage),
      "Buyer" := Str(c.Buyer),
      "Transporter" := Str(c.Transporter),
      "Seller" := Str(c.Seller),
      "AssetID" := Str(c.AssetID),
      "DocumentID" := Str(c.DocumentID),
      "TimeStamp" := Str(c.TimeStamp)])
  }

  /** The members a handler reads from a stored contract, and the asset members it lacks. */
  lemma ContractFields(c: Contract)
    ensures var f := EncodeContract(c).fields;
      && StrField(f, "Contractid") == Success(c.Contractid)
      && StrField(f, "Buyer") == Success(c.Buyer)
      && StrField(f, "Transporter") == Success(c.Transporter)
      && StrField(f, "Seller") == Success(c.Seller)
      && StrField(f, "AssetID") == Success(c.AssetID)
      && "Serialno" !in f && "Partno" !in f
  {
  }

  /** The members a handler reads from a stored asset, and the contract members it lacks. */
  lemma AssetFields(a: Asset)
    ensures var f := EncodeAsset(a).fields;
      && StrField(f, "Serialno") == Success(a.Serialno)
      && StrField(f, "Partno") == Success(a.Partno)
      && "Contractid" !in f && "Stage" !in f
  {
  }

  /** The sentinel is neither an asset nor a contract. */
  lemma SentinelIsNoRecord()
    ensures DecodeAsset(Sentinel).Failure? && DecodeContract(Sentinel).Failure?
  {
  }

  /** Distinct contracts are stored as distinct payloads. */
  lemma EncodeContractInjective(c1: Contract, c2: Contract)
    requires EncodeContract(c1) == EncodeContract(c2)
    ensures c1 == c2
  {
  }

  /** `CreateAssetObject`: three arguments, the first (the serial number) an integer. */
  function CreateAssetObject(args: seq<string>): (r: Result<Asset, Error>)
    ensures r.Success? <==> |args| == 3 && ParseInt(args[0]).Some?
    ensures r.Success? ==> r.value == Asset(args[0], args[1], args[2])
    ensures r.Failure? ==> r.error == InvalidArgument
  {
    if |args| != 3 then Failure(InvalidArgument)
    else if ParseInt(args[0]).None? then Failure(InvalidArgument)
    else Success(Asset(args[0], args[1], args[2]))
  }

  /**
   * `CreateContractObject`: eight arguments, the second an integer equal to OPEN;
   * the eighth is not used. The contract is stamped with `now`.
   */
  function CreateContractObject(args: seq<string>, now: string): (r: Result<Contract, Error>)
    ensures r.Success? <==> |args| == 8 && SpellsZero(args[1])
    ensures r.Success? ==> r.value == Contract(args[0], StageOpen, args[2], args[3], args[4], args[5], args[6], now)
    ensures r.Failure? ==> r.error == InvalidArgument
  {
    if |args| != 8 then Failure(InvalidArgument)
    else
      ParseIntZero(args[1]);
      match ParseInt(args[1])
      case None => Failure(InvalidArgument)
      case Some(stage) =>
        if stage != StageOpen then Failure(InvalidArgument)
        else Success(Contract(args[0], StageOpen, args[2], args[3], args[4], args[5], args[6], now))
  }

  /** The eighth argument of `CreateContractObject` has no effect on the outcome. */
  lemma CreateContractIgnoresEighth(args: seq<string>, x: string, now: string)
    requires |args| == 8
    ensures CreateContractObject(args[7 := x], now) == CreateContractObject(args, now)
  {
  }
}
