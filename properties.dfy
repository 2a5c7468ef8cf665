/**
 * Properties of the ledger as a whole: what each handler does to a
 * well-formed store, that the handlers keep the store well-formed, and what
 * any sequence of invocations can do to a stored contract.
 */
module Properties {
  import opened Wrappers
  import opened Atoi
  import opened Records
  import opened Lifecycle
  import opened Handlers

  /** In a well-formed store, whatever decodes as a contract is one, stored under its own id. */
  lemma ContractInStore(st: Store, k: string)
    requires WellFormed(st)
    requires GetContractObject(st, k).Success?
    ensures st[k] == EncodeContract(GetContractObject(st, k).value)
    ensures GetContractObject(st, k).value.Contractid == k
  {
    SentinelIsNoRecord();
  }

  /**
   * A guarded transition on a well-formed store that succeeds writes the
   * loaded contract back under the key it was loaded from, with the stage one
   * higher and, for readyForShipment, the new document; nothing else changes.
   */
  lemma TransferOnLedger(st: Store, t: Transition, args: seq<string>)
    requires WellFormed(st)
    requires Transfer(st, t, args).Success?
    ensures
      var c := GetContractObject(st, args[0]).value;
      var st' := Transfer(st, t, args).value;
      && c.Contractid == args[0]
      && GetContractObject(st', args[0]) == Success(c.(
           Stage := c.Stage + 1,
           DocumentID := if t == ReadyForShipment then args[3] else c.DocumentID))
      && OnlyKeyChanged(st, st', args[0])
      && WellFormed(st')
  {
    ContractInStore(st, args[0]);
    var c := GetContractObject(st, args[0]).value;
    var next := Advance(t, c, args[1], args[2], NewDocument(t, args)).value;
    SaveChangesWellFormed(st, next);
  }

  /**
   * `updateOwner` on a well-formed store succeeds exactly on an asset; it keeps
   * the serial and part numbers, replaces the owner, and writes under the same key.
   */
  lemma UpdateOwnerOnLedger(st: Store, args: seq<string>)
    requires WellFormed(st) && |args| == 2
    ensures UpdateOwner(st, args).Success? <==> args[0] in st && DecodeAsset(st[args[0]]).Success?
    ensures UpdateOwner(st, args).Success? ==>
      && UpdateOwner(st, args).value == st[args[0] := EncodeAsset(DecodeAsset(st[args[0]]).value.(Owner := args[1]))]
      && WellFormed(UpdateOwner(st, args).value)
  {
    var k := args[0];
    if k in st {
      var p := st[k];
      if p == Sentinel {
        SentinelIsNoRecord();
      } else if ContractUnder(k, p) {
        ContractFields(DecodeContract(p).value);
      } else {
        assert AssetUnder(k, p);
        var a := DecodeAsset(p).value;
        AssetFields(a);
        var st' := st[k := EncodeAsset(a.(Owner := args[1]))];
        assert UpdateOwner(st, args) == Success(st');
        forall j | j in st' ensures st'[j] == Sentinel || AssetUnder(j, st'[j]) || ContractUnder(j, st'[j]) {
          if j == k {
            assert AssetUnder(j, st'[j]);
          }
        }
      }
    }
  }

  /**
   * `updateContract` on a well-formed store succeeds exactly on a contract and
   * an integer stage: it sets any stage, replaces the document and the time
   * stamp, and keeps id, parties and asset, under the same key.
   */
  lemma UpdateContractOnLedger(st: Store, args: seq<string>, now: string)
    requires WellFormed(st) && |args| == 3
    ensures UpdateContract(st, args, now).Success? <==>
      ParseInt(args[2]).Some? && GetContractObject(st, args[0]).Success?
    ensures UpdateContract(st, args, now).Success? ==>
      var c := GetContractObject(st, args[0]).value;
      var st' := UpdateContract(st, args, now).value;
      && GetContractObject(st', args[0]) ==
         Success(c.(Stage := ParseInt(args[2]).value, DocumentID := args[1], TimeStamp := now))
      && OnlyKeyChanged(st, st', args[0])
      && WellFormed(st')
  {
    var k := args[0];
    if k in st && ParseInt(args[2]).Some? {
      var p := st[k];
      if p == Sentinel {
        SentinelIsNoRecord();
      } else if AssetUnder(k, p) {
        AssetFields(DecodeAsset(p).value);
      } else {
        assert ContractUnder(k, p);
        var c := DecodeContract(p).value;
        ContractFields(c);
        var c' := c.(Stage := ParseInt(args[2]).value, DocumentID := args[1], TimeStamp := now);
        assert UpdateContract(st, args, now) == Success(SaveChanges(st, c'));
        SaveChangesWellFormed(st, c');
      }
    }
  }

  /** A second `initAssset` on the same serial number fails and the first record stays. */
  lemma InitAssetTwice(st: Store, args: seq<string>, args': seq<string>)
    requires InitAsset(st, args).Success?
    requires |args'| == 3 && args'[0] == args[0]
    ensures InitAsset(InitAsset(st, args).value, args') == Failure(AlreadyExists)
    ensures DecodeAsset(InitAsset(st, args).value[args[0]]) == Success(Asset(args[0], args[1], args[2]))
  {
  }

  /** Every handler that `Invoke` reaches keeps the store well-formed. */
  lemma InvokePreservesWellFormed(st: Store, fn: string, args: seq<string>, now: string)
    requires WellFormed(st)
    requires Invoke(st, fn, args, now).Success?
    ensures WellFormed(Invoke(st, fn, args, now).value)
  {
    var st' := Invoke(st, fn, args, now).value;
    if fn == "init" {
    } else if fn == "initAssset" {
      var a := Asset(args[0], args[1], args[2]);
      assert st' == st[args[0] := EncodeAsset(a)];
      assert AssetUnder(args[0], EncodeAsset(a));
    } else if fn == "ownerUpdation" {
      UpdateOwnerOnLedger(st, args);
    } else if fn == "initContract" {
      var c := Contract(args[0], StageOpen, args[2], args[3], args[4], args[5], args[6], now);
      assert st' == st[args[0] := EncodeContract(c)];
      assert ContractUnder(args[0], EncodeContract(c));
    } else if fn == "contractUpdation" {
      UpdateContractOnLedger(st, args, now);
    } else {
      TransferOnLedger(st, TransitionNamed(fn).value, args);
    }
  }

  /**
   * Apart from `contractUpdation` (and `init` on the sentinel's own key), no
   * invocation removes a stored contract, changes its id, parties, asset or
   * time stamp, or moves its stage other than one step up from below DELIVERED.
   */
  lemma InvokeKeepsContract(st: Store, fn: string, args: seq<string>, now: string, k: string)
    requires WellFormed(st)
    requires fn != "contractUpdation" && k != AssetIndexKey
    requires GetContractObject(st, k).Success?
    requires Invoke(st, fn, args, now).Success?
    ensures
      var c := GetContractObject(st, k).value;
      var after := GetContractObject(Invoke(st, fn, args, now).value, k);
      && after.Success?
      && SameParties(after.value, c)
      && (after.value == c || (c.Stage < StageShipmentDelivered && after.value.Stage == c.Stage + 1))
      && (c.Stage >= StageReadyForShipment ==> after.value.DocumentID == c.DocumentID)
  {
    var st' := Invoke(st, fn, args, now).value;
    if fn == "ownerUpdation" {
      assert st' == UpdateOwner(st, args).value;
      UpdateOwnerKeepsContract(st, args, k);
    } else if TransitionNamed(fn).Some? {
      assert st' == Transfer(st, TransitionNamed(fn).value, args).value;
      TransferKeepsContract(st, TransitionNamed(fn).value, args, k);
    } else if fn == "init" {
      assert Get(st', k) == Get(st, k);
    }
  }

  /** `updateOwner` never touches a stored contract: its record has no `Serialno`. */
  lemma UpdateOwnerKeepsContract(st: Store, args: seq<string>, k: string)
    requires WellFormed(st)
    requires GetContractObject(st, k).Success?
    requires UpdateOwner(st, args).Success?
    ensures GetContractObject(UpdateOwner(st, args).value, k) == GetContractObject(st, k)
  {
    var c := GetContractObject(st, k).value;
    ContractInStore(st, k);
    UpdateOwnerOnLedger(st, args);
    if args[0] == k {
      ContractFields(c);
    }
  }

  /** A guarded transition leaves a stored contract alone or moves it one stage up. */
  lemma TransferKeepsContract(st: Store, t: Transition, args: seq<string>, k: string)
    requires WellFormed(st)
    requires GetContractObject(st, k).Success?
    requires Transfer(st, t, args).Success?
    ensures
      var c := GetContractObject(st, k).value;
      var after := GetContractObject(Transfer(st, t, args).value, k);
      && after.Success?
      && SameParties(after.value, c)
      && (after.value == c || (c.Stage < StageShipmentDelivered && after.value.Stage == c.Stage + 1))
      && (c.Stage >= StageReadyForShipment ==> after.value.DocumentID == c.DocumentID)
  {
    var c := GetContractObject(st, k).value;
    var st' := Transfer(st, t, args).value;
    ContractInStore(st, k);
    TransferOnLedger(st, t, args);
    if args[0] == k {
      assert Permits(t, c, args[1], args[2]);
    } else {
      assert Get(st', k) == Get(st, k);
    }
  }

  /** One invocation of `Invoke`; `now` stands for the clock reading at that call. */
  datatype Call = Call(fn: string, args: seq<string>, now: string)

  /** Invocations applied one after another; a failing one leaves the store as it was. */
  function Replay(st: Store, calls: seq<Call>): Store
    decreases |calls|
  {
    if calls == [] then st
    else
      var r := Invoke(st, calls[0].fn, calls[0].args, calls[0].now);
      Replay(if r.Success? then r.value else st, calls[1..])
  }

  /** Every store reachable from a well-formed one is well-formed. */
  lemma {:induction false} ReplayWellFormed(st: Store, calls: seq<Call>)
    requires WellFormed(st)
    ensures WellFormed(Replay(st, calls))
    decreases |calls|
  {
    if calls != [] {
      var r := Invoke(st, calls[0].fn, calls[0].args, calls[0].now);
      if r.Success? {
        InvokePreservesWellFormed(st, calls[0].fn, calls[0].args, calls[0].now);
      }
      ReplayWellFormed(if r.Success? then r.value else st, calls[1..]);
    }
  }

  /**
   * Without `contractUpdation`, a stored contract stays stored, keeps its id,
   * parties, asset and time stamp, its stage never decreases and never passes
   * DELIVERED, and it rises by at most one per invocation. Once it is past
   * OPEN, its document is fixed.
   */
  lemma {:induction false} ReplayKeepsContract(st: Store, calls: seq<Call>, k: string)
    requires WellFormed(st)
    requires k != AssetIndexKey
    requires forall i :: 0 <= i < |calls| ==> calls[i].fn != "contractUpdation"
    requires GetContractObject(st, k).Success?
    requires StageOpen <= GetContractObject(st, k).value.Stage <= StageShipmentDelivered
    ensures
      var c := GetContractObject(st, k).value;
      var after := GetContractObject(Replay(st, calls), k);
      && after.Success?
      && SameParties(after.value, c)
      && c.Stage <= after.value.Stage <= StageShipmentDelivered
      && after.value.Stage <= c.Stage + |calls|
      && (c.Stage >= StageReadyForShipment ==> after.value.DocumentID == c.DocumentID)
    decreases |calls|
  {
    if calls != [] {
      var r := Invoke(st, calls[0].fn, calls[0].args, calls[0].now);
      var next := if r.Success? then r.value else st;
      if r.Success? {
        InvokePreservesWellFormed(st, calls[0].fn, calls[0].args, calls[0].now);
        InvokeKeepsContract(st, calls[0].fn, calls[0].args, calls[0].now, k);
      }
      ReplayKeepsContract(next, calls[1..], k);
    }
  }

  /**
   * No invocation removes a stored asset or turns it into anything else; only
   * `ownerUpdation` on its own key changes it, and then only its owner.
   */
  lemma InvokeKeepsAsset(st: Store, fn: string, args: seq<string>, now: string, k: string)
    requires WellFormed(st)
    requires k in st && AssetUnder(k, st[k])
    requires Invoke(st, fn, args, now).Success?
    ensures
      var st' := Invoke(st, fn, args, now).value;
      && k in st' && AssetUnder(k, st'[k])
      && (st'[k] == st[k]
          || (fn == "ownerUpdation" && st'[k] == EncodeAsset(DecodeAsset(st[k]).value.(Owner := args[1]))))
  {
    var st' := Invoke(st, fn, args, now).value;
    var a := DecodeAsset(st[k]).value;
    assert k != AssetIndexKey by {
      assert !IsDigit(AssetIndexKey[0]);
    }
    if fn == "ownerUpdation" {
      UpdateOwnerOnLedger(st, args);
      if args[0] == k {
        assert st'[k] == EncodeAsset(a.(Owner := args[1]));
      } else {
        assert Get(st', k) == Get(st, k);
      }
    } else if fn == "contractUpdation" {
      UpdateContractOnLedger(st, args, now);
      assert Get(st', k) == Get(st, k);
    } else if TransitionNamed(fn).Some? {
      assert st' == Transfer(st, TransitionNamed(fn).value, args).value;
      assert Get(st', k) == Get(st, k);
    }
  }

  /**
   * Over any sequence of invocations a stored asset stays stored under its
   * serial number with the same part number; only its owner can change, and
   * only through `ownerUpdation`.
   */
  lemma {:induction false} ReplayKeepsAsset(st: Store, calls: seq<Call>, k: string)
    requires WellFormed(st)
    requires k in st && AssetUnder(k, st[k])
    ensures
      var st' := Replay(st, calls);
      var a := DecodeAsset(st[k]).value;
      && k in st' && AssetUnder(k, st'[k])
      && DecodeAsset(st'[k]).value == a.(Owner := DecodeAsset(st'[k]).value.Owner)
    ensures (forall i :: 0 <= i < |calls| ==> calls[i].fn != "ownerUpdation") ==> Replay(st, calls)[k] == st[k]
    decreases |calls|
  {
    if calls != [] {
      var r := Invoke(st, calls[0].fn, calls[0].args, calls[0].now);
      var next := if r.Success? then r.value else st;
      if r.Success? {
        InvokePreservesWellFormed(st, calls[0].fn, calls[0].args, calls[0].now);
        InvokeKeepsAsset(st, calls[0].fn, calls[0].args, calls[0].now, k);
      }
      ReplayKeepsAsset(next, calls[1..], k);
      if forall i :: 0 <= i < |calls| ==> calls[i].fn != "ownerUpdation" {
        assert calls[0].fn != "ownerUpdation";
        assert forall i :: 0 <= i < |calls[1..]| ==> calls[1..][i].fn != "ownerUpdation" by {
          forall i | 0 <= i < |calls[1..]| ensures calls[1..][i].fn != "ownerUpdation" {
            assert calls[1..][i] == calls[i + 1];
          }
        }
      }
    }
  }

  /** What no handler changes about a contract once it exists: its id, parties and asset. */
  predicate SameIdentity(c: Contract, d: Contract) {
    && c.Contractid == d.Contractid
    && c.Buyer == d.Buyer
    && c.Transporter == d.Transporter
    && c.Seller == d.Seller
    && c.AssetID == d.AssetID
  }

  /**
   * Every invocation, `contractUpdation` included, keeps a stored contract
   * stored under its key with the same id, parties and asset.
   */
  lemma InvokeKeepsIdentity(st: Store, fn: string, args: seq<string>, now: string, k: string)
    requires WellFormed(st)
    requires k != AssetIndexKey
    requires GetContractObject(st, k).Success?
    requires Invoke(st, fn, args, now).Success?
    ensures
      var after := GetContractObject(Invoke(st, fn, args, now).value, k);
      after.Success? && SameIdentity(after.value, GetContractObject(st, k).value)
  {
    if fn == "contractUpdation" {
      var st' := Invoke(st, fn, args, now).value;
      UpdateContractOnLedger(st, args, now);
      if args[0] != k {
        assert Get(st', k) == Get(st, k);
      }
    } else {
      InvokeKeepsContract(st, fn, args, now, k);
    }
  }

  /**
   * Over any sequence of invocations, `contractUpdation` included, a stored
   * contract stays stored under its key with the same id, parties and asset.
   */
  lemma {:induction false} ReplayKeepsIdentity(st: Store, calls: seq<Call>, k: string)
    requires WellFormed(st)
    requires k != AssetIndexKey
    requires GetContractObject(st, k).Success?
    ensures
      var after := GetContractObject(Replay(st, calls), k);
      after.Success? && SameIdentity(after.value, GetContractObject(st, k).value)
    decreases |calls|
  {
    if calls != [] {
      var r := Invoke(st, calls[0].fn, calls[0].args, calls[0].now);
      var next := if r.Success? then r.value else st;
      if r.Success? {
        InvokePreservesWellFormed(st, calls[0].fn, calls[0].args, calls[0].now);
        InvokeKeepsIdentity(st, calls[0].fn, calls[0].args, calls[0].now, k);
      }
      ReplayKeepsIdentity(next, calls[1..], k);
    }
  }

  /** `contractUpdation` is not held to the lifecycle: it takes a DELIVERED contract back to OPEN. */
  lemma UpdateContractCanReopen(st: Store, k: string, doc: string, now: string)
    requires WellFormed(st)
    requires GetContractObject(st, k).Success?
    requires GetContractObject(st, k).value.Stage == StageShipmentDelivered
    ensures UpdateContract(st, [k, doc, "0"], now).Success?
    ensures GetContractObject(UpdateContract(st, [k, doc, "0"], now).value, k).value.Stage == StageOpen
  {
    ZeroSpellings();
    UpdateContractOnLedger(st, [k, doc, "0"], now);
  }

  /** A permitted guarded transition, reached through `Invoke`, on a well-formed store. */
  lemma InvokeTransition(st: Store, fn: string, args: seq<string>, now: string, c: Contract)
    requires WellFormed(st)
    requires TransitionNamed(fn).Some? && |args| >= TransitionNamed(fn).value.ArgCount()
    requires GetContractObject(st, args[0]) == Success(c)
    requires Permits(TransitionNamed(fn).value, c, args[1], args[2])
    ensures Invoke(st, fn, args, now).Success?
    ensures WellFormed(Invoke(st, fn, args, now).value)
    ensures GetContractObject(Invoke(st, fn, args, now).value, args[0]) == Success(c.(
      Stage := c.Stage + 1,
      DocumentID := if fn == "readyForShipment" then args[3] else c.DocumentID))
  {
    var t := TransitionNamed(fn).value;
    assert Invoke(st, fn, args, now) == Transfer(st, t, args);
    TransferOnLedger(st, t, args);
  }

  /**
   * The four guarded transitions, each invoked by the matching party with the
   * matching role, take a stored OPEN contract to DELIVERED; only the stage and
   * the document change.
   */
  lemma LedgerHappyPath(st: Store, k: string, doc: string, now: string)
    requires WellFormed(st)
    requires GetContractObject(st, k).Success?
    requires GetContractObject(st, k).value.Stage == StageOpen
    ensures
      var c := GetContractObject(st, k).value;
      GetContractObject(Replay(st, [
        Call("readyForShipment", [k, c.Seller, SellerRole, doc], now),
        Call("inTransit", [k, c.Transporter, TransporterRole], now),
        Call("shipmentReached", [k, c.Transporter, TransporterRole], now),
        Call("shipmentDelivered", [k, c.Buyer, BuyerRole], now)]), k)
      == Success(c.(Stage := StageShipmentDelivered, DocumentID := doc))
  {
    var c := GetContractObject(st, k).value;
    var calls := [
      Call("readyForShipment", [k, c.Seller, SellerRole, doc], now),
      Call("inTransit", [k, c.Transporter, TransporterRole], now),
      Call("shipmentReached", [k, c.Transporter, TransporterRole], now),
      Call("shipmentDelivered", [k, c.Buyer, BuyerRole], now)];
    var c1 := c.(Stage := 1, DocumentID := doc);
    InvokeTransition(st, calls[0].fn, calls[0].args, now, c);
    var st1 := Invoke(st, calls[0].fn, calls[0].args, now).value;
    InvokeTransition(st1, calls[1].fn, calls[1].args, now, c1);
    var st2 := Invoke(st1, calls[1].fn, calls[1].args, now).value;
    InvokeTransition(st2, calls[2].fn, calls[2].args, now, c1.(Stage := 2));
    var st3 := Invoke(st2, calls[2].fn, calls[2].args, now).value;
    InvokeTransition(st3, calls[3].fn, calls[3].args, now, c1.(Stage := 3));
    var st4 := Invoke(st3, calls[3].fn, calls[3].args, now).value;
    assert GetContractObject(st4, k) == Success(c1.(Stage := 4));
    assert Replay(st4, calls[4..]) == st4;
    assert Replay(st3, calls[3..]) == st4;
    assert Replay(st2, calls[2..]) == st4;
    assert Replay(st1, calls[1..]) == st4;
  }

  /**
   * A contract C1 created OPEN is made ready for shipment by its seller S with
   * document D1; a caller other than its transporter T is then refused the
   * in-transit step, and the contract stays ready for shipment.
   */
  lemma WrongTransporterRefused(x: string, now: string)
    requires x != "T"
    ensures
      var r1 := Invoke(map[], "initContract", ["C1", "0", "B", "T", "S", "A1", "D0", ""], now);
      && r1.Success?
      && var r2 := Invoke(r1.value, "readyForShipment", ["C1", "S", "seller", "D1"], now);
      && r2.Success?
      && GetContractObject(r2.value, "C1") == Success(Contract("C1", StageReadyForShipment, "B", "T", "S", "A1", "D1", now))
      && Invoke(r2.value, "inTransit", ["C1", x, "transporter"], now) == Failure(PermissionDenied)
  {
    ZeroSpellings();
    ParseIntZero("0");
    var c := Contract("C1", StageOpen, "B", "T", "S", "A1", "D0", now);
    var r1 := Invoke(map[], "initContract", ["C1", "0", "B", "T", "S", "A1", "D0", ""], now);
    assert r1 == InitContract(map[], ["C1", "0", "B", "T", "S", "A1", "D0", ""], now);
    assert GetContractObject(r1.value, "C1") == Success(c);
    assert WellFormed(map[]);
    InvokePreservesWellFormed(map[], "initContract", ["C1", "0", "B", "T", "S", "A1", "D0", ""], now);
    InvokeTransition(r1.value, "readyForShipment", ["C1", "S", "seller", "D1"], now, c);
    var r2 := Invoke(r1.value, "readyForShipment", ["C1", "S", "seller", "D1"], now);
    assert Invoke(r2.value, "inTransit", ["C1", x, "transporter"], now) == Transfer(r2.value, InTransit, ["C1", x, "transporter"]);
  }
}
