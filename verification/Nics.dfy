/** NIC drift between one Proxmox guest and the CloudStack NICs of its VM, and one pass
    that removes it.

    The collected snapshot is not refreshed during a pass, so every item is judged against
    the snapshot the pass started from while the table underneath changes. */
module Nics {
  import opened Model
  import opened Text

  /** What the mapping of a bridge and VLAN leads to in the CloudStack database. */
  datatype Target = Unmapped | Unresolved | Net(network: int)

  /** A missing MAC or address is the empty text. */
  datatype PxNic = PxNic(mac: string, ip: string, target: Target, device: int)

  datatype CsNic = CsNic(id: Id, mac: string, network: int, ip: string)

  /** One drift item; `target` is None if the mapped network does not exist. */
  datatype Item =
    | UnmappedNetwork(device: int, mac: string)
    | Missing(device: int, mac: string, target: Option<int>, ip: string)
    | NetworkMismatch(device: int, mac: string, nic: Id, network: int)
    | IpMismatch(device: int, mac: string, nic: Id, ip: string)
    | Extra(nic: Id, mac: string)

  // ---------------------------------------------------------------- detecting

  /** `cs_by_mac`: of several rows with the same MAC the last one counts. */
  function ByMac(cs: seq<CsNic>, mac: string): Option<CsNic> {
    if cs == [] then None
    else if cs[|cs| - 1].mac != "" && Upper(cs[|cs| - 1].mac) == mac then Some(cs[|cs| - 1])
    else ByMac(cs[..|cs| - 1], mac)
  }

  function Partner(p: PxNic, cs: seq<CsNic>): Option<CsNic> {
    if p.target == Unmapped then None else ByMac(cs, Upper(p.mac))
  }

  function NicItems(p: PxNic, cs: seq<CsNic>): seq<Item> {
    var mac := Upper(p.mac);
    if p.target == Unmapped then [UnmappedNetwork(p.device, mac)]
    else
      match Partner(p, cs)
      case None => [Missing(p.device, mac, if p.target.Net? then Some(p.target.network) else None, p.ip)]
      case Some(cn) =>
        (if p.target.Net? && cn.network != p.target.network
         then [NetworkMismatch(p.device, mac, cn.id, p.target.network)] else [])
        + (if p.ip != "" && cn.ip != p.ip then [IpMismatch(p.device, mac, cn.id, p.ip)] else [])
  }

  function AllNicItems(px: seq<PxNic>, cs: seq<CsNic>): seq<Item> {
    if px == [] then [] else AllNicItems(px[..|px| - 1], cs) + NicItems(px[|px| - 1], cs)
  }

  predicate Partnered(px: seq<PxNic>, cs: seq<CsNic>, id: Id) {
    exists p :: p in px && Partner(p, cs).Some? && Partner(p, cs).value.id == id
  }

  function Extras(px: seq<PxNic>, cs: seq<CsNic>, n: nat): seq<Item>
    requires n <= |cs|
  {
    if n == 0 then []
    else
      Extras(px, cs, n - 1)
      + (if Partnered(px, cs, cs[n - 1].id) then [] else [Extra(cs[n - 1].id, cs[n - 1].mac)])
  }

  function Drift(px: seq<PxNic>, cs: seq<CsNic>): seq<Item> {
    AllNicItems(px, cs) + Extras(px, cs, |cs|)
  }

  /** `detect_nic_drift` for one matched VM. */
  method DetectNicDrift(px: seq<PxNic>, cs: seq<CsNic>) returns (drift: seq<Item>)
    ensures drift == Drift(px, cs)
  {
    drift := [];
    var matchedIds: set<Id> := {};
    for n := 0 to |px|
      invariant drift == AllNicItems(px[..n], cs)
      invariant forall id :: id in matchedIds <==> Partnered(px[..n], cs, id)
    {
      var p := px[n];
      assert px[..n + 1] == px[..n] + [p];
      drift := drift + NicItems(p, cs);
      var partner := Partner(p, cs);
      if partner.Some? {
        matchedIds := matchedIds + {partner.value.id};
      }
      assert forall id :: Partnered(px[..n + 1], cs, id) <==>
        Partnered(px[..n], cs, id) || (partner.Some? && partner.value.id == id);
    }
    assert px[..|px|] == px;
    for n := 0 to |cs|
      invariant drift == AllNicItems(px, cs) + Extras(px, cs, n)
    {
      if cs[n].id !in matchedIds {
        drift := drift + [Extra(cs[n].id, cs[n].mac)];
      }
    }
  }

  lemma {:induction false} AllItemsAre(px: seq<PxNic>, cs: seq<CsNic>)
    ensures forall it :: it in AllNicItems(px, cs) <==> exists p :: p in px && it in NicItems(p, cs)
  {
    if px != [] {
      AllItemsAre(px[..|px| - 1], cs);
      assert px == px[..|px| - 1] + [px[|px| - 1]];
    }
  }

  lemma {:induction false} ExtrasAre(px: seq<PxNic>, cs: seq<CsNic>, n: nat)
    requires n <= |cs|
    ensures forall it :: it in Extras(px, cs, n) <==>
      exists i :: 0 <= i < n && !Partnered(px, cs, cs[i].id) && it == Extra(cs[i].id, cs[i].mac)
  {
    if n > 0 {
      ExtrasAre(px, cs, n - 1);
    }
  }

  lemma DriftIs(px: seq<PxNic>, cs: seq<CsNic>)
    ensures forall it :: it in Drift(px, cs) <==>
      || (exists p :: p in px && it in NicItems(p, cs))
      || (exists i :: 0 <= i < |cs| && !Partnered(px, cs, cs[i].id) && it == Extra(cs[i].id, cs[i].mac))
  {
    AllItemsAre(px, cs);
    ExtrasAre(px, cs, |cs|);
  }

  lemma {:induction false} ByMacIs(cs: seq<CsNic>, mac: string)
    ensures ByMac(cs, mac).Some? ==>
      ByMac(cs, mac).value in cs && ByMac(cs, mac).value.mac != "" && Upper(ByMac(cs, mac).value.mac) == mac
    ensures ByMac(cs, mac).None? ==> forall c :: c in cs ==> c.mac == "" || Upper(c.mac) != mac
  {
    if cs != [] {
      ByMacIs(cs[..|cs| - 1], mac);
      assert cs == cs[..|cs| - 1] + [cs[|cs| - 1]];
    }
  }

  // ------------------------------------------------------------------- writing

  datatype Row = Row(
    instance: Id, mac: string, network: int, ip: string, device: int, isDefault: bool, removed: bool)

  datatype Table = Table(rows: map<Id, Row>, next: Id)

  predicate WellKept(t: Table) {
    forall id :: id in t.rows ==> id < t.next
  }

  predicate Live(t: Table, id: Id) {
    id in t.rows && !t.rows[id].removed
  }

  function ClearDefaults(t: Table, vm: Id): map<Id, Row> {
    map id | id in t.rows ::
      if t.rows[id].instance == vm && !t.rows[id].removed then t.rows[id].(isDefault := false) else t.rows[id]
  }

  function Inserted(t: Table, vm: Id, device: int, mac: string, network: int, ip: string): Table {
    Table((if device == 0 then ClearDefaults(t, vm) else t.rows)
            [t.next := Row(vm, mac, network, ip, device, device == 0, false)],
          t.next + 1)
  }

  /** What writing one item does to the table, if it can be written. */
  function Written(t: Table, vm: Id, it: Item): Table {
    match it
    case UnmappedNetwork(_, _) => t
    case Missing(device, mac, target, ip) =>
      if target.None? || target.value == 0 then t else Inserted(t, vm, device, mac, target.value, ip)
    case NetworkMismatch(_, _, nic, network) =>
      if network != 0 && Live(t, nic) then t.(rows := t.rows[nic := t.rows[nic].(network := network)]) else t
    case IpMismatch(_, _, nic, ip) =>
      if Live(t, nic) then t.(rows := t.rows[nic := t.rows[nic].(ip := ip)]) else t
    case Extra(nic, _) =>
      if Live(t, nic) then t.(rows := t.rows[nic := t.rows[nic].(removed := true)]) else t
  }

  datatype Status = Added | Updated | Removed | NoChange | Refused

  class NicTable {
    var rows: map<Id, Row>
    var next: Id

    function Contents(): Table
      reads this
    {
      Table(rows, next)
    }

    constructor ()
      ensures Contents() == Table(map[], 0)
    {
      rows, next := map[], 0;
    }

    method InsertNic(vm: Id, device: int, mac: string, network: int, ip: string) returns (status: Status)
      modifies this
      ensures Contents() == Inserted(old(Contents()), vm, device, mac, network, ip) && status == Added
    {
      if device == 0 {
        rows := ClearDefaults(Contents(), vm);
      }
      rows := rows[next := Row(vm, mac, network, ip, device, device == 0, false)];
      next := next + 1;
      status := Added;
    }

    method UpdateNetwork(nic: Id, network: int) returns (status: Status)
      modifies this
      ensures Contents() == (if Live(old(Contents()), nic)
        then old(Contents()).(rows := old(rows)[nic := old(rows)[nic].(network := network)]) else old(Contents()))
      ensures status == if Live(old(Contents()), nic) then Updated else NoChange
    {
      if nic in rows && !rows[nic].removed {
        rows := rows[nic := rows[nic].(network := network)];
        return Updated;
      }
      return NoChange;
    }

    method UpdateIp(nic: Id, ip: string) returns (status: Status)
      modifies this
      ensures Contents() == (if Live(old(Contents()), nic)
        then old(Contents()).(rows := old(rows)[nic := old(rows)[nic].(ip := ip)]) else old(Contents()))
      ensures status == if Live(old(Contents()), nic) then Updated else NoChange
    {
      if nic in rows && !rows[nic].removed {
        rows := rows[nic := rows[nic].(ip := ip)];
        return Updated;
      }
      return NoChange;
    }

    method RemoveNic(nic: Id) returns (status: Status)
      modifies this
      ensures Contents() == (if Live(old(Contents()), nic)
        then old(Contents()).(rows := old(rows)[nic := old(rows)[nic].(removed := true)]) else old(Contents()))
      ensures status == if Live(old(Contents()), nic) then Removed else NoChange
    {
      if nic in rows && !rows[nic].removed {
        rows := rows[nic := rows[nic].(removed := true)];
        return Removed;
      }
      return NoChange;
    }
  }

  // -------------------------------------------------------------- reconciling

  /** What an item is recognised by: its kind, device, NIC id and MAC. */
  function Identity(it: Item): Item {
    match it
    case UnmappedNetwork(device, mac) => it
    case Missing(device, mac, _, _) => Missing(device, mac, None, "")
    case NetworkMismatch(device, mac, nic, _) => NetworkMismatch(device, mac, nic, 0)
    case IpMismatch(device, mac, nic, _) => IpMismatch(device, mac, nic, "")
    case Extra(_, _) => it
  }

  /** The first detected item with the identity of `it`. */
  function First(drift: seq<Item>, it: Item): Option<Item> {
    if drift == [] then None
    else if Identity(drift[0]) == Identity(it) then Some(drift[0])
    else First(drift[1..], it)
  }

  function WrittenFirst(t: Table, vm: Id, drift: seq<Item>, it: Item): Table {
    match First(drift, it)
    case None => t
    case Some(found) => Written(t, vm, found)
  }

  /** `reconcile_nic`: drift is detected anew, and only what is found there is written. */
  method ReconcileNic(table: NicTable, vm: Id, px: seq<PxNic>, cs: seq<CsNic>, it: Item) returns (status: Status)
    modifies table
    ensures table.Contents() == WrittenFirst(old(table.Contents()), vm, Drift(px, cs), it)
    ensures status in {NoChange, Refused} ==> table.Contents() == old(table.Contents())
  {
    var drift := DetectNicDrift(px, cs);
    var found := First(drift, it);
    if found.None? {
      return Refused;
    }
    match found.value
    case UnmappedNetwork(_, _) => status := Refused;
    case Missing(device, mac, target, ip) =>
      if target.None? || target.value == 0 {
        status := Refused;
      } else {
        status := table.InsertNic(vm, device, mac, target.value, ip);
      }
    case NetworkMismatch(_, _, nic, network) =>
      if network == 0 {
        status := Refused;
      } else {
        status := table.UpdateNetwork(nic, network);
      }
    case IpMismatch(_, _, nic, ip) => status := table.UpdateIp(nic, ip);
    case Extra(nic, _) => status := table.RemoveNic(nic);
  }

  /** The table after the first `n` items. */
  function WrittenAll(t: Table, vm: Id, drift: seq<Item>, n: nat): Table
    requires n <= |drift|
  {
    if n == 0 then t else WrittenFirst(WrittenAll(t, vm, drift, n - 1), vm, drift, drift[n - 1])
  }

  method ReconcileNicsAll(table: NicTable, vm: Id, px: seq<PxNic>, cs: seq<CsNic>)
    returns (updated: nat, failed: nat)
    modifies table
    ensures table.Contents() == WrittenAll(old(table.Contents()), vm, Drift(px, cs), |Drift(px, cs)|)
    ensures updated + failed <= |Drift(px, cs)|
  {
    updated, failed := 0, 0;
    var drift := DetectNicDrift(px, cs);
    ghost var t := table.Contents();
    for n := 0 to |drift|
      invariant table.Contents() == WrittenAll(t, vm, drift, n)
      invariant updated + failed <= n
    {
      if drift[n].UnmappedNetwork? {
        UnmappedWritesNothing(table.Contents(), vm, drift, drift[n]);
      } else {
        var status := ReconcileNic(table, vm, px, cs, drift[n]);
        if status in {Added, Updated, Removed} {
          updated := updated + 1;
        } else {
          failed := failed + 1;
        }
      }
    }
  }

  lemma {:induction false} FirstIs(drift: seq<Item>, it: Item)
    ensures First(drift, it).Some? ==>
      First(drift, it).value in drift && Identity(First(drift, it).value) == Identity(it)
    ensures First(drift, it).None? ==> it !in drift
  {
    if drift != [] {
      FirstIs(drift[1..], it);
      assert drift == [drift[0]] + drift[1..];
    }
  }

  lemma UnmappedWritesNothing(t: Table, vm: Id, drift: seq<Item>, it: Item)
    requires it.UnmappedNetwork?
    ensures WrittenFirst(t, vm, drift, it) == t
  {
    FirstIs(drift, it);
  }

  // ----------------------------------------------------------------- fixpoint

  /** Every guest NIC has a MAC of its own and a network that exists. */
  ghost predicate Clean(px: seq<PxNic>) {
    && (forall i :: 0 <= i < |px| ==> px[i].mac != "" && px[i].target.Net? && px[i].target.network != 0)
    && (forall i, j :: 0 <= i < j < |px| ==> Upper(px[i].mac) != Upper(px[j].mac))
  }

  predicate Mine(t: Table, vm: Id, id: Id) {
    id in t.rows && !t.rows[id].removed && t.rows[id].instance == vm
  }

  predicate Shows(c: CsNic, row: Row) {
    c.mac == row.mac && c.network == row.network && c.ip == row.ip
  }

  /** The snapshot shows exactly the live NICs of the VM, as they are. */
  ghost predicate Current(t: Table, vm: Id, cs: seq<CsNic>) {
    && (forall i, j :: 0 <= i < j < |cs| ==> cs[i].id != cs[j].id)
    && (forall c :: c in cs ==> Mine(t, vm, c.id) && Shows(c, t.rows[c.id]))
    && (forall id :: Mine(t, vm, id) ==> exists c :: c in cs && c.id == id)
  }

  predicate Agrees(p: PxNic, row: Row) {
    && row.mac != "" && Upper(row.mac) == Upper(p.mac) && p.target == Net(row.network)
    && (p.ip == "" || row.ip == p.ip)
  }

  predicate SameMac(a: Row, b: Row) {
    Upper(a.mac) == Upper(b.mac)
  }

  ghost predicate HasNic(t: Table, vm: Id, p: PxNic) {
    exists id :: Mine(t, vm, id) && Agrees(p, t.rows[id])
  }

  /** The live NICs of the VM are exactly the guest's: one each, right network, right address. */
  ghost predicate Settled(t: Table, vm: Id, px: seq<PxNic>) {
    && (forall id :: Mine(t, vm, id) ==> exists p :: p in px && Agrees(p, t.rows[id]))
    && (forall p :: p in px ==> HasNic(t, vm, p))
    && (forall a, b :: Mine(t, vm, a) && Mine(t, vm, b) && SameMac(t.rows[a], t.rows[b]) ==> a == b)
  }

  lemma SameMacSameNic(px: seq<PxNic>, p: PxNic, q: PxNic)
    requires Clean(px) && p in px && q in px && Upper(p.mac) == Upper(q.mac)
    ensures p == q
  {
  }

  /** The snapshot row of a settled NIC is found by its MAC, and agrees. */
  lemma SettledPartner(t: Table, vm: Id, px: seq<PxNic>, cs: seq<CsNic>, p: PxNic) returns (found: CsNic)
    requires Settled(t, vm, px) && Current(t, vm, cs) && p in px
    ensures ByMac(cs, Upper(p.mac)) == Some(found) && found in cs && Upper(found.mac) == Upper(p.mac)
    ensures Mine(t, vm, found.id) && Shows(found, t.rows[found.id]) && Agrees(p, t.rows[found.id])
  {
    hide Upper, ByMac;
    assert HasNic(t, vm, p);
    var id :| Mine(t, vm, id) && Agrees(p, t.rows[id]);
    var c :| c in cs && c.id == id;
    assert Shows(c, t.rows[id]);
    ByMacIs(cs, Upper(p.mac));
    found := ByMac(cs, Upper(p.mac)).value;
    assert Shows(found, t.rows[found.id]);
    assert SameMac(t.rows[found.id], t.rows[id]);
    assert found.id == id;
  }

  lemma NicSettled(t: Table, vm: Id, px: seq<PxNic>, cs: seq<CsNic>, p: PxNic)
    requires Settled(t, vm, px) && Current(t, vm, cs) && p in px
    ensures NicItems(p, cs) == [] && Partner(p, cs).Some?
    ensures Partner(p, cs).value in cs && Upper(Partner(p, cs).value.mac) == Upper(p.mac)
  {
    hide Upper, ByMac, Settled, Current;
    var found := SettledPartner(t, vm, px, cs, p);
  }

  lemma RowPartnered(t: Table, vm: Id, px: seq<PxNic>, cs: seq<CsNic>, c: CsNic)
    requires Settled(t, vm, px) && Current(t, vm, cs) && c in cs
    ensures Partnered(px, cs, c.id)
  {
    hide Upper;
    var p :| p in px && Agrees(p, t.rows[c.id]);
    NicSettled(t, vm, px, cs, p);
    hide NicItems, Partner;
    var found := Partner(p, cs).value;
    assert Shows(c, t.rows[c.id]) && Shows(found, t.rows[found.id]);
    assert SameMac(t.rows[found.id], t.rows[c.id]);
    assert found.id == c.id;
  }

  /** On a settled table a refreshed snapshot shows no drift, whatever its order. */
  lemma SettledShowsNoDrift(t: Table, vm: Id, px: seq<PxNic>, cs: seq<CsNic>)
    requires Settled(t, vm, px) && Current(t, vm, cs)
    ensures Drift(px, cs) == []
  {
    hide NicItems, Partner, Settled, Current, Drift, Partnered;
    forall p | p in px ensures NicItems(p, cs) == [] {
      NicSettled(t, vm, px, cs, p);
    }
    forall c | c in cs ensures Partnered(px, cs, c.id) {
      RowPartnered(t, vm, px, cs, c);
    }
    DriftIs(px, cs);
    NonEmptyHasItem(Drift(px, cs));
  }

  lemma NonEmptyHasItem(drift: seq<Item>)
    ensures drift != [] ==> exists it :: it in drift
  {
    if drift != [] {
      assert drift[0] in drift;
    }
  }
}
