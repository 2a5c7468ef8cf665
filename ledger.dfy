/**
 * The chaincode as it runs: one object whose ledger state every handler reads
 * with `GetState` and updates in place with `PutState`. Each method is proved
 * to do exactly what the matching function of `Handlers` specifies; on failure
 * the state is left as it was.
 */
module Chaincode {
  import opened Wrappers
  import opened Records
  import opened Lifecycle
  import Handlers

  /** The status a handler reports to its caller. */
  function Status(r: Result<Handlers.Store, Error>): Outcome<Error> {
    if r.Success? then Pass else Fail(r.error)
  }

  /** The state a handler leaves: the new store on success, the old one on failure. */
  function After(st: Handlers.Store, r: Result<Handlers.Store, Error>): Handlers.Store {
    if r.Success? then r.value else st
  }

  class Ledger {
    /** The world state, one flat namespace shared by assets, contracts and the sentinel. */
    var state: Handlers.Store

    constructor (initial: Handlers.Store)
      ensures state == initial
    {
      state := initial;
    }

    /** `stub.GetState`: the stored payload, or `None` for an absent key. */
    method GetState(key: string) returns (p: Option<Payload>)
      ensures p.Some? <==> key in state
      ensures p.Some? ==> p.value == state[key]
    {
      if key in state {
        p := Some(state[key]);
      } else {
        p := None;
      }
    }

    /** `stub.PutState`: overwrite one key. */
    method PutState(key: string, p: Payload)
      modifies this
      ensures state == old(state)[key := p]
    {
      state := state[key := p];
    }

    method Init()
      modifies this
      ensures state == Handlers.Init(old(state))
    {
      PutState(Handlers.AssetIndexKey, Sentinel);
    }

    method InitAsset(args: seq<string>) returns (o: Outcome<Error>)
      modifies this
      ensures o == Status(Handlers.InitAsset(old(state), args))
      ensures state == After(old(state), Handlers.InitAsset(old(state), args))
    {
      var asset := CreateAssetObject(args);
      if asset.Failure? {
        return Fail(asset.error);
      }
      var existing := GetState(asset.value.Serialno);
      if existing.Some? {
        return Fail(AlreadyExists);
      }
      PutState(args[0], EncodeAsset(asset.value));
      return Pass;
    }

    method InitContract(args: seq<string>, now: string) returns (o: Outcome<Error>)
      modifies this
      ensures o == Status(Handlers.InitContract(old(state), args, now))
      ensures state == After(old(state), Handlers.InitContract(old(state), args, now))
    {
      var contract := CreateContractObject(args, now);
      if contract.Failure? {
        return Fail(contract.error);
      }
      var existing := GetState(contract.value.Contractid);
      if existing.Some? {
        return Fail(AlreadyExists);
      }
      PutState(args[0], EncodeContract(contract.value));
      return Pass;
    }

    /** `readState` and `readContract`. */
    method ReadState(args: seq<string>) returns (r: Result<Option<Payload>, Error>)
      ensures r == Handlers.ReadState(state, args)
    {
      if |args| != 1 {
        return Failure(InvalidArgument);
      }
      var p := GetState(args[0]);
      return Success(p);
    }

    method UpdateOwner(args: seq<string>) returns (o: Outcome<Error>)
      modifies this
      ensures o == Status(Handlers.UpdateOwner(old(state), args))
      ensures state == After(old(state), Handlers.UpdateOwner(old(state), args))
    {
      if |args| != 2 {
        return Fail(InvalidArgument);
      }
      var bytes := GetState(args[0]);
      var dat := JsonToArgs(bytes);
      if dat.Failure? {
        return Fail(dat.error);
      }
      var serial := StrField(dat.value, "Serialno");
      if serial.Failure? {
        return Fail(serial.error);
      }
      var part := StrField(dat.value, "Partno");
      if part.Failure? {
        return Fail(part.error);
      }
      PutState(serial.value, EncodeAsset(Asset(serial.value, part.value, args[1])));
      return Pass;
    }

    method UpdateContract(args: seq<string>, now: string) returns (o: Outcome<Error>)
      modifies this
      ensures o == Status(Handlers.UpdateContract(old(state), args, now))
      ensures state == After(old(state), Handlers.UpdateContract(old(state), args, now))
    {
      if |args| != 3 {
        return Fail(InvalidArgument);
      }
      var stage := Atoi.ParseInt(args[2]);
      if stage.None? {
        return Fail(InvalidArgument);
      }
      var bytes := GetState(args[0]);
      var dat := JsonToArgs(bytes);
      if dat.Failure? {
        return Fail(dat.error);
      }
      var id := StrField(dat.value, "Contractid");
      var buyer := StrField(dat.value, "Buyer");
      var transporter := StrField(dat.value, "Transporter");
      var seller := StrField(dat.value, "Seller");
      var assetId := StrField(dat.value, "AssetID");
      if id.Failure? || buyer.Failure? || transporter.Failure? || seller.Failure? || assetId.Failure? {
        return Fail(NotFound);
      }
      var updated := Contract(id.value, stage.value, buyer.value, transporter.value, seller.value, assetId.value, args[1], now);
      SaveChanges(updated);
      return Pass;
    }

    /** `getContractObject`. */
    method GetContractObject(id: string) returns (r: Result<Contract, Error>)
      ensures r == Handlers.GetContractObject(state, id)
    {
      var bytes := GetState(id);
      if bytes.None? {
        return Failure(NotFound);
      }
      r := DecodeContract(bytes.value);
    }

    /** `save_changes`. */
    method SaveChanges(sc: Contract)
      modifies this
      ensures state == Handlers.SaveChanges(old(state), sc)
    {
      PutState(sc.Contractid, EncodeContract(sc));
    }

    /**
     * `toReadyForShipment`, `toInTransit`, `toShipmentReached` and
     * `toShipmentDelivered`, selected by `t`: the loaded contract is updated in
     * place and saved only when the stage, role and caller all match.
     */
    method Transfer(t: Transition, args: seq<string>) returns (o: Outcome<Error>)
      modifies this
      ensures o == Status(Handlers.Transfer(old(state), t, args))
      ensures state == After(old(state), Handlers.Transfer(old(state), t, args))
    {
      if |args| < t.ArgCount() {
        return Fail(InvalidArgument);
      }
      var loaded := GetContractObject(args[0]);
      if loaded.Failure? {
        return Fail(loaded.error);
      }
      var sc := loaded.value;
      if sc.Stage == t.From() && t.Party(sc) == args[1] && args[2] == t.Role() {
        sc := sc.(Stage := t.To());
        if t == ReadyForShipment {
          sc := sc.(DocumentID := args[3]);
        }
      } else {
        return Fail(PermissionDenied);
      }
      SaveChanges(sc);
      return Pass;
    }

    /** `getAllKeys`. */
    method GetAllKeys(args: seq<string>) returns (r: Result<set<string>, Error>)
      ensures r == Handlers.GetAllKeys(state, args)
    {
      if |args| < 2 {
        return Failure(InvalidArgument);
      }
      var keys := set k | k in state && Handlers.LexLe(args[0], k) && Handlers.LexLe(k, args[1]);
      return Success(keys);
    }

    /** `Invoke`: run the handler a function name selects. */
    method Invoke(fn: string, args: seq<string>, now: string) returns (o: Outcome<Error>)
      modifies this
      ensures o == Status(Handlers.Invoke(old(state), fn, args, now))
      ensures state == After(old(state), Handlers.Invoke(old(state), fn, args, now))
    {
      if fn == "init" {
        Init();
        o := Pass;
      } else if fn == "initAssset" {
        o := InitAsset(args);
      } else if fn == "ownerUpdation" {
        o := UpdateOwner(args);
      } else if fn == "initContract" {
        o := InitContract(args, now);
      } else if fn == "contractUpdation" {
        o := UpdateContract(args, now);
      } else if Handlers.TransitionNamed(fn).Some? {
        o := Transfer(Handlers.TransitionNamed(fn).value, args);
      } else {
        o := Fail(UnknownFunction);
      }
    }

    /** `Query`: run the read-only handler a function name selects. */
    method Query(fn: string, args: seq<string>) returns (r: Result<Handlers.Reply, Error>)
      ensures r == Handlers.Query(state, fn, args)
    {
      if fn == "readState" || fn == "readContract" {
        var v := ReadState(args);
        r := if v.Success? then Success(Handlers.Value(v.value)) else Failure(v.error);
      } else if fn == "keys" {
        var ks := GetAllKeys(args);
        r := if ks.Success? then Success(Handlers.Keys(ks.value)) else Failure(ks.error);
      } else {
        r := Failure(UnknownFunction);
      }
    }
  }
}
