/**
 * The contract lifecycle: the four guarded transitions of asset-1..go as one
 * table, the in-place update of the loaded contract, and what any sequence of
 * guarded transitions can do to a contract.
 */
module Lifecycle {
  import opened Wrappers
  import opened Records

  /** The caller-claimed role strings; the buyer's role is "lease_company". */
  const SellerRole: string := "seller"
  const TransporterRole: string := "transporter"
  const BuyerRole: string := "lease_company"

  /** One row per guarded transition handler. */
  datatype Transition = ReadyForShipment | InTransit | ShipmentReached | ShipmentDelivered {

    /** The stage the loaded contract must be at. */
    function From(): int {
      match this
      case ReadyForShipment => StageOpen
      case InTransit => StageReadyForShipment
      case ShipmentReached => StageInTransit
      case ShipmentDelivered => StageShipmentReached
    }

    /** The stage written back on success. */
    function To(): int {
      match this
      case ReadyForShipment => StageReadyForShipment
      case InTransit => StageInTransit
      case ShipmentReached => StageShipmentReached
      case ShipmentDelivered => StageShipmentDelivered
    }

    /** The role string the caller must claim. */
    function Role(): string {
      match this
      case ReadyForShipment => SellerRole
      case InTransit => TransporterRole
      case ShipmentReached => TransporterRole
      case ShipmentDelivered => BuyerRole
    }

    /** The party of the contract the caller must be. */
    function Party(c: Contract): string {
      match this
      case ReadyForShipment => c.Seller
      case InTransit => c.Transporter
      case ShipmentReached => c.Transporter
      case ShipmentDelivered => c.Buyer
    }

    /** How many arguments the handler indexes: contract id, caller, role, and a document for the first. */
    function ArgCount(): nat {
      if this == ReadyForShipment then 4 else 3
    }
  }

  /** The three conditions a guarded transition checks together. */
  predicate Permits(t: Transition, c: Contract, caller: string, role: string) {
    c.Stage == t.From() && t.Party(c) == caller && role == t.Role()
  }

  /** Everything a guarded transition carries over from the loaded contract. */
  predicate SameParties(c: Contract, d: Contract) {
    && c.Contractid == d.Contractid
    && c.Buyer == d.Buyer
    && c.Transporter == d.Transporter
    && c.Seller == d.Seller
    && c.AssetID == d.AssetID
    && c.TimeStamp == d.TimeStamp
  }

  /**
   * The check-and-update in the middle of each `to*` handler: the loaded
   * contract `c` with its stage advanced (and, for readyForShipment, the
   * document `doc` attached), or PermissionDenied.
   */
  function Advance(t: Transition, c: Contract, caller: string, role: string, doc: string): (r: Result<Contract, Error>)
    ensures r.Success? <==> Permits(t, c, caller, role)
    ensures r.Failure? ==> r.error == PermissionDenied
    ensures r.Success? ==> r.value.Stage == c.Stage + 1 && SameParties(r.value, c)
    ensures r.Success? ==> r.value.DocumentID == if t == ReadyForShipment then doc else c.DocumentID
  {
    if Permits(t, c, caller, role) then
      var sc := c.(Stage := t.To());
      Success(if t == ReadyForShipment then sc.(DocumentID := doc) else sc)
    else
      Failure(PermissionDenied)
  }

  /** The authorisation table written out, stage by stage. */
  lemma AuthorisationTable(t: Transition, c: Contract, caller: string, role: string)
    ensures Permits(t, c, caller, role) <==>
      || (t == ReadyForShipment && c.Stage == 0 && role == "seller" && caller == c.Seller)
      || (t == InTransit && c.Stage == 1 && role == "transporter" && caller == c.Transporter)
      || (t == ShipmentReached && c.Stage == 2 && role == "transporter" && caller == c.Transporter)
      || (t == ShipmentDelivered && c.Stage == 3 && role == "lease_company" && caller == c.Buyer)
  {
  }

  /** At most one transition is enabled at any stage, and none at DELIVERED or outside 0..3. */
  lemma OneTransitionPerStage(t1: Transition, t2: Transition, c: Contract, x1: string, r1: string, x2: string, r2: string)
    requires Permits(t1, c, x1, r1) && Permits(t2, c, x2, r2)
    ensures t1 == t2
    ensures StageOpen <= c.Stage < StageShipmentDelivered
  {
  }

  /** A caller's request to a guarded transition handler. */
  datatype Request = Request(t: Transition, caller: string, role: string, doc: string)

  /** Requests applied one after another; a refused request leaves the contract as it was. */
  function Run(c: Contract, rs: seq<Request>): Contract
    decreases |rs|
  {
    if rs == [] then c
    else
      var r := Advance(rs[0].t, c, rs[0].caller, rs[0].role, rs[0].doc);
      Run(if r.Success? then r.value else c, rs[1..])
  }

  /**
   * No sequence of guarded transitions lowers the stage, skips a stage, takes it
   * past DELIVERED, or changes the parties, the asset, the id or the timestamp.
   */
  lemma {:induction false} RunMonotone(c: Contract, rs: seq<Request>)
    requires StageOpen <= c.Stage <= StageShipmentDelivered
    ensures c.Stage <= Run(c, rs).Stage <= StageShipmentDelivered
    ensures Run(c, rs).Stage <= c.Stage + |rs|
    ensures SameParties(Run(c, rs), c)
    decreases |rs|
  {
    if rs != [] {
      var r := Advance(rs[0].t, c, rs[0].caller, rs[0].role, rs[0].doc);
      var next := if r.Success? then r.value else c;
      RunMonotone(next, rs[1..]);
    }
  }

  /** DELIVERED is final: no request changes a delivered contract. */
  lemma {:induction false} DeliveredIsFinal(c: Contract, rs: seq<Request>)
    requires c.Stage == StageShipmentDelivered
    ensures Run(c, rs) == c
  {
    if rs != [] {
      DeliveredIsFinal(c, rs[1..]);
    }
  }

  /** The four transitions, each by its own party, take an OPEN contract to DELIVERED. */
  lemma HappyPath(c: Contract, doc: string)
    requires c.Stage == StageOpen
    ensures Run(c, [
      Request(ReadyForShipment, c.Seller, SellerRole, doc),
      Request(InTransit, c.Transporter, TransporterRole, ""),
      Request(ShipmentReached, c.Transporter, TransporterRole, ""),
      Request(ShipmentDelivered, c.Buyer, BuyerRole, "")]) == c.(Stage := StageShipmentDelivered, DocumentID := doc)
  {
    var rs := [
      Request(ReadyForShipment, c.Seller, SellerRole, doc),
      Request(InTransit, c.Transporter, TransporterRole, ""),
      Request(ShipmentReached, c.Transporter, TransporterRole, ""),
      Request(ShipmentDelivered, c.Buyer, BuyerRole, "")];
    var c1 := c.(Stage := 1, DocumentID := doc);
    var c2 := c1.(Stage := 2);
    var c3 := c1.(Stage := 3);
    var c4 := c1.(Stage := 4);
    assert Run(c4, rs[4..]) == c4;
    assert Run(c3, rs[3..]) == c4;
    assert Run(c2, rs[2..]) == c4;
    assert Run(c1, rs[1..]) == c4;
  }
}
