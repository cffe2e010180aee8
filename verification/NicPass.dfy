/** One pass of `reconcile_nics_all` over a current snapshot reaches a fixpoint. */
module NicPass {
  import opened Model
  import opened Nics
  import opened Text

  // --------------------------------------------------- what items can occur

  ghost predicate Ready(t: Table, vm: Id, px: seq<PxNic>, cs: seq<CsNic>) {
    Clean(px) && WellKept(t) && Current(t, vm, cs)
  }

  /** The guest NIC an item about a partnered CloudStack NIC is for. */
  predicate For(px: seq<PxNic>, cs: seq<CsNic>, p: PxNic, nic: Id) {
    p in px && Partner(p, cs).Some? && Partner(p, cs).value.id == nic
  }

  ghost predicate Justified(px: seq<PxNic>, cs: seq<CsNic>, it: Item) {
    match it
    case UnmappedNetwork(_, _) => false
    case Missing(device, mac, target, ip) =>
      exists p :: p in px && Partner(p, cs).None? && mac == Upper(p.mac) && p.target.Net?
        && it == Missing(p.device, mac, Some(p.target.network), p.ip)
    case NetworkMismatch(device, mac, nic, network) =>
      exists p :: For(px, cs, p, nic) && mac == Upper(p.mac) && p.target == Net(network)
        && it == NetworkMismatch(p.device, mac, nic, network)
    case IpMismatch(device, mac, nic, ip) =>
      exists p :: For(px, cs, p, nic) && mac == Upper(p.mac) && p.ip == ip && ip != ""
        && it == IpMismatch(p.device, mac, nic, ip)
    case Extra(nic, mac) =>
      !Partnered(px, cs, nic) && exists c :: c in cs && c.id == nic && c.mac == mac
  }

  lemma NicItemsJustified(px: seq<PxNic>, cs: seq<CsNic>, p: PxNic, it: Item)
    requires Clean(px) && p in px && it in NicItems(p, cs)
    ensures Justified(px, cs, it)
  {
    hide Upper, ByMac;
    assert p.target.Net?;
    var mac := Upper(p.mac);
    match Partner(p, cs)
    case None =>
      assert it == Missing(p.device, mac, Some(p.target.network), p.ip);
    case Some(cn) =>
      assert For(px, cs, p, cn.id);
      assert it == NetworkMismatch(p.device, mac, cn.id, p.target.network)
        || it == IpMismatch(p.device, mac, cn.id, p.ip);
  }

  lemma DriftJustified(px: seq<PxNic>, cs: seq<CsNic>, it: Item)
    requires Clean(px) && it in Drift(px, cs)
    ensures Justified(px, cs, it)
  {
    hide NicItems, Partnered, Clean, Drift;
    DriftIs(px, cs);
    if p :| p in px && it in NicItems(p, cs) {
      NicItemsJustified(px, cs, p, it);
    }
  }

  /** Two guest NICs never share a partner. */
  lemma OneFor(px: seq<PxNic>, cs: seq<CsNic>, p: PxNic, q: PxNic, nic: Id)
    requires Clean(px) && For(px, cs, p, nic) && For(px, cs, q, nic)
    requires DistinctIds(cs)
    ensures p == q
  {
    hide Upper, Clean;
    ByMacIs(cs, Upper(p.mac));
    ByMacIs(cs, Upper(q.mac));
    var c, d := Partner(p, cs).value, Partner(q, cs).value;
    assert c == d;
    SameMacSameNic(px, p, q);
  }

  ghost predicate DistinctIds(cs: seq<CsNic>) {
    forall i, j :: 0 <= i < j < |cs| ==> cs[i].id != cs[j].id
  }

  lemma SameMismatch(px: seq<PxNic>, cs: seq<CsNic>, a: Item, b: Item)
    requires Clean(px) && DistinctIds(cs) && Justified(px, cs, a) && Justified(px, cs, b)
    ensures a.NetworkMismatch? && b.NetworkMismatch? && a.nic == b.nic ==> a == b
    ensures a.IpMismatch? && b.IpMismatch? && a.nic == b.nic ==> a == b
  {
    hide Upper, Clean, Partner;
    if a.NetworkMismatch? && b.NetworkMismatch? && a.nic == b.nic {
      var p :| For(px, cs, p, a.nic) && p.target == Net(a.network)
        && a == NetworkMismatch(p.device, Upper(p.mac), a.nic, a.network);
      var q :| For(px, cs, q, b.nic) && q.target == Net(b.network)
        && b == NetworkMismatch(q.device, Upper(q.mac), b.nic, b.network);
      OneFor(px, cs, p, q, a.nic);
    }
    if a.IpMismatch? && b.IpMismatch? && a.nic == b.nic {
      var p :| For(px, cs, p, a.nic) && p.ip == a.ip && a == IpMismatch(p.device, Upper(p.mac), a.nic, a.ip);
      var q :| For(px, cs, q, b.nic) && q.ip == b.ip && b == IpMismatch(q.device, Upper(q.mac), b.nic, b.ip);
      OneFor(px, cs, p, q, a.nic);
    }
  }

  lemma SameMissing(px: seq<PxNic>, cs: seq<CsNic>, a: Item, b: Item)
    requires Clean(px) && Justified(px, cs, a) && Justified(px, cs, b)
    requires a.Missing? && b.Missing? && a.mac == b.mac
    ensures a == b
  {
    hide Upper, Clean, Partner;
    var p :| p in px && a.mac == Upper(p.mac) && p.target.Net?
      && a == Missing(p.device, a.mac, Some(p.target.network), p.ip);
    var q :| q in px && b.mac == Upper(q.mac) && q.target.Net?
      && b == Missing(q.device, b.mac, Some(q.target.network), q.ip);
    SameMacSameNic(px, p, q);
  }

  /** Detecting anew finds each item itself: its identity is its own. */
  lemma FirstIsItself(px: seq<PxNic>, cs: seq<CsNic>, it: Item)
    requires Clean(px) && DistinctIds(cs) && it in Drift(px, cs)
    ensures First(Drift(px, cs), it) == Some(it)
  {
    hide Drift, Clean, DistinctIds, Justified, First;
    FirstIs(Drift(px, cs), it);
    var found := First(Drift(px, cs), it).value;
    DriftJustified(px, cs, it);
    DriftJustified(px, cs, found);
    if it.Missing? {
      SameMissing(px, cs, it, found);
    } else if it.NetworkMismatch? || it.IpMismatch? {
      SameMismatch(px, cs, it, found);
    }
  }

  // ------------------------------------------------------ the table in between

  /** An old row after the items of `done`: all that a pass may have changed of it. */
  ghost predicate Kept(was: Row, now: Row, id: Id, done: seq<Item>) {
    && now.instance == was.instance && now.mac == was.mac
    && (forall it :: it in done && it.NetworkMismatch? && it.nic == id ==> now.network == it.network)
    && ((forall it :: it in done && it.NetworkMismatch? ==> it.nic != id) ==> now.network == was.network)
    && (forall it :: it in done && it.IpMismatch? && it.nic == id ==> now.ip == it.ip)
    && ((forall it :: it in done && it.IpMismatch? ==> it.nic != id) ==> now.ip == was.ip)
    && (now.removed <==> was.removed || exists it :: it in done && it.Extra? && it.nic == id)
  }

  predicate MadeBy(row: Row, vm: Id, it: Item) {
    && it.Missing? && row.instance == vm && row.mac == it.mac && it.target == Some(row.network)
    && row.ip == it.ip && !row.removed
  }

  ghost predicate IsNew(t0: Table, t: Table, id: Id) {
    id in t.rows && id !in t0.rows
  }

  ghost predicate OldRows(t0: Table, t: Table, done: seq<Item>) {
    forall id :: id in t0.rows ==> id in t.rows && Kept(t0.rows[id], t.rows[id], id, done)
  }

  ghost predicate NewRows(t0: Table, t: Table, vm: Id, done: seq<Item>) {
    && (forall id :: IsNew(t0, t, id) ==> exists it :: it in done && MadeBy(t.rows[id], vm, it))
    && (forall it :: it in done && it.Missing? ==> exists id :: IsNew(t0, t, id) && MadeBy(t.rows[id], vm, it))
    && (forall a, b :: IsNew(t0, t, a) && IsNew(t0, t, b) && t.rows[a].mac == t.rows[b].mac ==> a == b)
  }

  ghost predicate Reached(t0: Table, t: Table, vm: Id, done: seq<Item>) {
    && WellKept(t) && t0.next <= t.next
    && OldRows(t0, t, done) && NewRows(t0, t, vm, done)
  }

  lemma NothingReached(t: Table, vm: Id)
    requires WellKept(t)
    ensures Reached(t, t, vm, [])
  {
  }

  lemma KeptAnyway(was: Row, now: Row, id: Id, done: seq<Item>, it: Item)
    requires Kept(was, now, id, done) && (it.UnmappedNetwork? || it.Missing? || it.nic != id)
    ensures Kept(was, now, id, done + [it])
  {
    forall x ensures x in done + [it] <==> x in done || x == it {}
  }

  lemma NewUnderOld(t0: Table, t: Table, v: Table, vm: Id, done: seq<Item>, it: Item)
    requires NewRows(t0, t, vm, done) && v.rows.Keys == t.rows.Keys && !it.Missing?
    requires forall id :: IsNew(t0, t, id) ==> v.rows[id] == t.rows[id]
    ensures NewRows(t0, v, vm, done + [it])
  {
    hide MadeBy;
    forall x ensures x in done + [it] <==> x in done || x == it {}
    forall id ensures IsNew(t0, v, id) <==> IsNew(t0, t, id) { assert id in v.rows.Keys <==> id in t.rows.Keys; }
    forall id | IsNew(t0, v, id) ensures exists x :: x in done + [it] && MadeBy(v.rows[id], vm, x) {
      var x :| x in done && MadeBy(t.rows[id], vm, x);
      assert x in done + [it];
    }
    forall x | x in done + [it] && x.Missing? ensures exists id :: IsNew(t0, v, id) && MadeBy(v.rows[id], vm, x) {
      var id :| IsNew(t0, t, id) && MadeBy(t.rows[id], vm, x);
      assert IsNew(t0, v, id);
    }
  }

  lemma OldUnderOne(t0: Table, t: Table, v: Table, done: seq<Item>, it: Item, nic: Id)
    requires OldRows(t0, t, done) && v.rows.Keys == t.rows.Keys
    requires it.UnmappedNetwork? || it.Missing? || it.nic == nic
    requires forall id :: id in t.rows && id != nic ==> v.rows[id] == t.rows[id]
    requires nic in t0.rows && nic in v.rows ==> Kept(t0.rows[nic], v.rows[nic], nic, done + [it])
    ensures OldRows(t0, v, done + [it])
  {
    hide Kept;
    forall id | id in t0.rows ensures id in v.rows && Kept(t0.rows[id], v.rows[id], id, done + [it]) {
      assert id in v.rows.Keys;
      if id != nic {
        KeptAnyway(t0.rows[id], v.rows[id], id, done, it);
      }
    }
  }

  /** Writing to one old row keeps what has been reached. */
  lemma WriteOne(t0: Table, t: Table, v: Table, vm: Id, done: seq<Item>, it: Item, nic: Id)
    requires Reached(t0, t, vm, done) && v.rows.Keys == t.rows.Keys && v.next == t.next
    requires !it.UnmappedNetwork? && !it.Missing? && it.nic == nic && nic in t0.rows
    requires forall id :: id in t.rows && id != nic ==> v.rows[id] == t.rows[id]
    requires nic in v.rows ==> Kept(t0.rows[nic], v.rows[nic], nic, done + [it])
    ensures Reached(t0, v, vm, done + [it])
  {
    hide Kept, OldRows, NewRows;
    OldUnderOne(t0, t, v, done, it, nic);
    NewUnderOld(t0, t, v, vm, done, it);
    forall id | id in v.rows ensures id < v.next { assert id in t.rows.Keys; }
  }

  lemma NetworkStep(t0: Table, t: Table, vm: Id, done: seq<Item>, it: Item)
    requires Reached(t0, t, vm, done) && it.NetworkMismatch? && it.network != 0
    requires it.nic in t0.rows && !t0.rows[it.nic].removed
    requires forall x :: x in done && x.Extra? ==> x.nic != it.nic
    requires forall x :: x in done && x.NetworkMismatch? && x.nic == it.nic ==> x.network == it.network
    ensures Reached(t0, Written(t, vm, it), vm, done + [it])
  {
    assert Kept(t0.rows[it.nic], t.rows[it.nic], it.nic, done);
    var v := Written(t, vm, it);
    forall x ensures x in done + [it] <==> x in done || x == it {}
    assert v.rows.Keys == t.rows.Keys;
    hide Reached;
    WriteOne(t0, t, v, vm, done, it, it.nic);
  }

  lemma IpStep(t0: Table, t: Table, vm: Id, done: seq<Item>, it: Item)
    requires Reached(t0, t, vm, done) && it.IpMismatch?
    requires it.nic in t0.rows && !t0.rows[it.nic].removed
    requires forall x :: x in done && x.Extra? ==> x.nic != it.nic
    requires forall x :: x in done && x.IpMismatch? && x.nic == it.nic ==> x.ip == it.ip
    ensures Reached(t0, Written(t, vm, it), vm, done + [it])
  {
    assert Kept(t0.rows[it.nic], t.rows[it.nic], it.nic, done);
    var v := Written(t, vm, it);
    forall x ensures x in done + [it] <==> x in done || x == it {}
    assert v.rows.Keys == t.rows.Keys;
    hide Reached;
    WriteOne(t0, t, v, vm, done, it, it.nic);
  }

  lemma ExtraStep(t0: Table, t: Table, vm: Id, done: seq<Item>, it: Item)
    requires Reached(t0, t, vm, done) && it.Extra? && it.nic in t0.rows
    ensures Reached(t0, Written(t, vm, it), vm, done + [it])
  {
    assert Kept(t0.rows[it.nic], t.rows[it.nic], it.nic, done);
    var v := Written(t, vm, it);
    forall x ensures x in done + [it] <==> x in done || x == it {}
    assert it in done + [it];
    assert v.rows.Keys == t.rows.Keys;
    hide Reached;
    WriteOne(t0, t, v, vm, done, it, it.nic);
  }

  lemma ClearedKeepsKept(was: Row, now: Row, id: Id, done: seq<Item>, it: Item)
    requires Kept(was, now, id, done) && it.Missing?
    ensures Kept(was, now.(isDefault := false), id, done + [it]) && Kept(was, now, id, done + [it])
  {
    forall x ensures x in done + [it] <==> x in done || x == it {}
  }

  lemma InsertOld(t0: Table, t: Table, vm: Id, done: seq<Item>, it: Item, network: int)
    requires OldRows(t0, t, done) && WellKept(t) && it.Missing?
    ensures OldRows(t0, Inserted(t, vm, it.device, it.mac, network, it.ip), done + [it])
  {
    hide Kept;
    forall id | id in t0.rows
      ensures id in Inserted(t, vm, it.device, it.mac, network, it.ip).rows
      ensures Kept(t0.rows[id], Inserted(t, vm, it.device, it.mac, network, it.ip).rows[id], id, done + [it])
    {
      ClearedKeepsKept(t0.rows[id], t.rows[id], id, done, it);
    }
  }

  lemma InsertNew(t0: Table, t: Table, vm: Id, done: seq<Item>, it: Item, network: int)
    requires NewRows(t0, t, vm, done) && WellKept(t) && WellKept(t0) && t0.next <= t.next
    requires it.Missing? && it.target == Some(network)
    requires forall x :: x in done && x.Missing? ==> x.mac != it.mac
    ensures NewRows(t0, Inserted(t, vm, it.device, it.mac, network, it.ip), vm, done + [it])
  {
    var v := Inserted(t, vm, it.device, it.mac, network, it.ip);
    forall x ensures x in done + [it] <==> x in done || x == it {}
    forall id ensures IsNew(t0, v, id) <==> IsNew(t0, t, id) || id == t.next {}
    forall id | IsNew(t0, t, id) ensures v.rows[id].(isDefault := false) == t.rows[id].(isDefault := false) {}
    assert MadeBy(v.rows[t.next], vm, it);
    hide Inserted;
    forall id | IsNew(t0, v, id) ensures exists x :: x in done + [it] && MadeBy(v.rows[id], vm, x) {
      if id == t.next {
        assert it in done + [it];
      } else {
        var x :| x in done && MadeBy(t.rows[id], vm, x);
        MadeByAnyDefault(t.rows[id], v.rows[id], vm, x);
        assert x in done + [it];
      }
    }
    forall x | x in done + [it] && x.Missing? ensures exists id :: IsNew(t0, v, id) && MadeBy(v.rows[id], vm, x) {
      if x in done {
        var id :| IsNew(t0, t, id) && MadeBy(t.rows[id], vm, x);
        MadeByAnyDefault(t.rows[id], v.rows[id], vm, x);
        assert IsNew(t0, v, id);
      } else {
        assert IsNew(t0, v, t.next);
      }
    }
    forall a, b | IsNew(t0, v, a) && IsNew(t0, v, b) && v.rows[a].mac == v.rows[b].mac ensures a == b {
      SameMacBefore(t0, t, v, vm, done, it, a, b);
    }
  }

  lemma MadeByAnyDefault(a: Row, b: Row, vm: Id, it: Item)
    requires a.(isDefault := false) == b.(isDefault := false)
    ensures MadeBy(a, vm, it) <==> MadeBy(b, vm, it)
    ensures a.mac == b.mac
  {
    assert a == b.(isDefault := a.isDefault);
  }

  lemma SameMacBefore(t0: Table, t: Table, v: Table, vm: Id, done: seq<Item>, it: Item, a: Id, b: Id)
    requires NewRows(t0, t, vm, done) && it.Missing?
    requires forall x :: x in done && x.Missing? ==> x.mac != it.mac
    requires forall id :: IsNew(t0, v, id) <==> IsNew(t0, t, id) || id == t.next
    requires forall id :: IsNew(t0, t, id) ==>
      IsNew(t0, v, id) && v.rows[id].(isDefault := false) == t.rows[id].(isDefault := false)
    requires IsNew(t0, v, a) && IsNew(t0, v, b) && v.rows[a].mac == v.rows[b].mac
    requires t.next in v.rows && v.rows[t.next].mac == it.mac && t.next !in t.rows
    ensures a == b
  {
    if a != t.next {
      MadeByAnyDefault(t.rows[a], v.rows[a], vm, it);
      var x :| x in done && MadeBy(t.rows[a], vm, x);
    }
    if b != t.next {
      MadeByAnyDefault(t.rows[b], v.rows[b], vm, it);
      var y :| y in done && MadeBy(t.rows[b], vm, y);
    }
  }

  lemma MissingStep(t0: Table, t: Table, vm: Id, done: seq<Item>, it: Item, network: int)
    requires Reached(t0, t, vm, done) && WellKept(t0)
    requires it.Missing? && it.target == Some(network) && network != 0
    requires forall x :: x in done && x.Missing? ==> x.mac != it.mac
    ensures Reached(t0, Written(t, vm, it), vm, done + [it])
  {
    hide OldRows, NewRows;
    InsertOld(t0, t, vm, done, it, network);
    InsertNew(t0, t, vm, done, it, network);
  }

  // ------------------------------------------------------------ the whole pass

  lemma ShownIsMine(t: Table, vm: Id, px: seq<PxNic>, cs: seq<CsNic>, it: Item)
    requires Ready(t, vm, px, cs) && Justified(px, cs, it) && !it.UnmappedNetwork? && !it.Missing?
    ensures Mine(t, vm, it.nic)
    ensures it.Extra? <==> !Partnered(px, cs, it.nic)
  {
    hide Upper, Clean, ByMac;
    if !it.Extra? {
      var p :| For(px, cs, p, it.nic);
      ByMacIs(cs, Upper(p.mac));
      assert Partner(p, cs).value in cs;
    }
  }

  lemma MismatchNetwork(px: seq<PxNic>, cs: seq<CsNic>, it: Item)
    requires Clean(px) && Justified(px, cs, it)
    ensures it.NetworkMismatch? ==> it.network != 0
    ensures it.Missing? ==> it.target.Some? && it.target.value != 0
  {
    hide Upper, Partner;
  }

  lemma MissingAlone(p: PxNic, cs: seq<CsNic>)
    ensures forall k :: 0 <= k < |NicItems(p, cs)| && NicItems(p, cs)[k].Missing? ==>
      NicItems(p, cs)[k].mac == Upper(p.mac) && |NicItems(p, cs)| == 1
  {
    hide Upper, ByMac;
  }

  /** Missing items name different MACs, and none occurs twice. */
  lemma {:induction false} MissingOnce(px: seq<PxNic>, cs: seq<CsNic>, i: nat, j: nat)
    requires Clean(px) && i < j < |AllNicItems(px, cs)|
    requires AllNicItems(px, cs)[i].Missing? && AllNicItems(px, cs)[j].Missing?
    ensures AllNicItems(px, cs)[i].mac != AllNicItems(px, cs)[j].mac
    decreases |px|
  {
    hide NicItems, Upper;
    var n := |px| - 1;
    var before := px[..n];
    var items := AllNicItems(before, cs);
    assert AllNicItems(px, cs) == items + NicItems(px[n], cs);
    MissingAlone(px[n], cs);
    if j < |items| {
      MissingOnce(before, cs, i, j);
    } else if i < |items| {
      AllItemsAre(before, cs);
      assert items[i] in items;
      var k :| 0 <= k < n && items[i] in NicItems(px[k], cs);
      MissingAlone(px[k], cs);
      assert Upper(px[k].mac) != Upper(px[n].mac);
    }
  }

  lemma {:induction false} ExtrasAreExtra(px: seq<PxNic>, cs: seq<CsNic>, n: nat)
    requires n <= |cs|
    ensures forall i :: 0 <= i < |Extras(px, cs, n)| ==> Extras(px, cs, n)[i].Extra?
  {
    if n > 0 {
      ExtrasAreExtra(px, cs, n - 1);
    }
  }

  lemma MissingBefore(px: seq<PxNic>, cs: seq<CsNic>, n: nat, x: Item)
    requires Clean(px) && n < |Drift(px, cs)| && Drift(px, cs)[n].Missing?
    requires x in Drift(px, cs)[..n] && x.Missing?
    ensures x.mac != Drift(px, cs)[n].mac
  {
    var i :| 0 <= i < n && Drift(px, cs)[i] == x;
    ExtrasAreExtra(px, cs, |cs|);
    MissingOnce(px, cs, i, n);
  }

  lemma OneMoreItem(t0: Table, t: Table, vm: Id, px: seq<PxNic>, cs: seq<CsNic>, n: nat)
    requires Ready(t0, vm, px, cs) && n < |Drift(px, cs)|
    requires Reached(t0, t, vm, Drift(px, cs)[..n])
    ensures Reached(t0, Written(t, vm, Drift(px, cs)[n]), vm, Drift(px, cs)[..n + 1])
  {
    hide Drift, Reached, Written, Justified, Clean, Partnered;
    var drift := Drift(px, cs);
    var done, it := drift[..n], drift[n];
    assert drift[..n + 1] == done + [it];
    assert it in drift;
    DriftJustified(px, cs, it);
    MismatchNetwork(px, cs, it);
    if it.Missing? {
      forall x | x in done && x.Missing? ensures x.mac != it.mac { MissingBefore(px, cs, n, x); }
      MissingStep(t0, t, vm, done, it, it.target.value);
    } else {
      NotUnmapped(px, cs, it);
      ShownIsMine(t0, vm, px, cs, it);
      if it.Extra? {
        ExtraStep(t0, t, vm, done, it);
      } else {
        forall x | x in done
          ensures x.Extra? ==> x.nic != it.nic
          ensures x.NetworkMismatch? && it.NetworkMismatch? && x.nic == it.nic ==> x == it
          ensures x.IpMismatch? && it.IpMismatch? && x.nic == it.nic ==> x == it
        {
          assert x in drift;
          DriftJustified(px, cs, x);
          if x.Extra? { ShownIsMine(t0, vm, px, cs, x); }
          SameMismatch(px, cs, x, it);
        }
        if it.NetworkMismatch? {
          NetworkStep(t0, t, vm, done, it);
        } else {
          IpStep(t0, t, vm, done, it);
        }
      }
    }
  }

  lemma NotUnmapped(px: seq<PxNic>, cs: seq<CsNic>, it: Item)
    requires Justified(px, cs, it)
    ensures !it.UnmappedNetwork?
  {
  }

  lemma {:induction false} AllReached(t0: Table, vm: Id, px: seq<PxNic>, cs: seq<CsNic>, n: nat)
    requires Ready(t0, vm, px, cs) && n <= |Drift(px, cs)|
    ensures Reached(t0, WrittenAll(t0, vm, Drift(px, cs), n), vm, Drift(px, cs)[..n])
    decreases n
  {
    hide Drift, Reached, Written, Clean;
    var drift := Drift(px, cs);
    if n == 0 {
      NothingReached(t0, vm);
      assert drift[..0] == [];
    } else {
      AllReached(t0, vm, px, cs, n - 1);
      assert drift[n - 1] in drift;
      FirstIsItself(px, cs, drift[n - 1]);
      OneMoreItem(t0, WrittenAll(t0, vm, drift, n - 1), vm, px, cs, n - 1);
    }
  }

  lemma PartnerFacts(t0: Table, vm: Id, px: seq<PxNic>, cs: seq<CsNic>, p: PxNic) returns (c: CsNic)
    requires Ready(t0, vm, px, cs) && p in px && Partner(p, cs).Some?
    ensures Partner(p, cs) == Some(c) && c in cs && c.mac != "" && Upper(c.mac) == Upper(p.mac)
    ensures Mine(t0, vm, c.id) && Shows(c, t0.rows[c.id]) && Partnered(px, cs, c.id) && For(px, cs, p, c.id)
  {
    hide Upper, Clean;
    ByMacIs(cs, Upper(p.mac));
    c := Partner(p, cs).value;
  }

  lemma InDrift(px: seq<PxNic>, cs: seq<CsNic>, p: PxNic, it: Item)
    requires p in px && it in NicItems(p, cs)
    ensures it in Drift(px, cs)
  {
    hide NicItems, Drift;
    DriftIs(px, cs);
  }

  /** A guest NIC that had a partner: the partner has been brought into line. */
  lemma PartnerAgrees(t0: Table, t: Table, vm: Id, px: seq<PxNic>, cs: seq<CsNic>, p: PxNic, c: CsNic)
    requires Ready(t0, vm, px, cs) && p in px && Partner(p, cs) == Some(c)
    requires OldRows(t0, t, Drift(px, cs))
    ensures Mine(t, vm, c.id) && Agrees(p, t.rows[c.id]) && c.id in t0.rows
  {
    var d := PartnerFacts(t0, vm, px, cs, p);
    assert p.target.Net?;
    hide Upper, Clean, ByMac, Drift;
    assert Kept(t0.rows[c.id], t.rows[c.id], c.id, Drift(px, cs));
    NotRemoved(px, cs, p, c);
    var mac := Upper(p.mac);
    if c.network != p.target.network {
      InDrift(px, cs, p, NetworkMismatch(p.device, mac, c.id, p.target.network));
    } else {
      NoNetworkItem(px, cs, p, c);
    }
    if p.ip != "" {
      if c.ip != p.ip {
        InDrift(px, cs, p, IpMismatch(p.device, mac, c.id, p.ip));
      } else {
        NoIpItem(px, cs, p, c);
      }
    }
  }

  lemma NotRemoved(px: seq<PxNic>, cs: seq<CsNic>, p: PxNic, c: CsNic)
    requires Clean(px) && p in px && Partner(p, cs) == Some(c)
    ensures forall it :: it in Drift(px, cs) && it.Extra? ==> it.nic != c.id
  {
    hide Drift, Clean, Partner;
    assert Partnered(px, cs, c.id);
    forall it | it in Drift(px, cs) && it.Extra? ensures it.nic != c.id {
      DriftJustified(px, cs, it);
    }
  }

  lemma NoNetworkItem(px: seq<PxNic>, cs: seq<CsNic>, p: PxNic, c: CsNic)
    requires Clean(px) && DistinctIds(cs) && p in px && Partner(p, cs) == Some(c) && p.target == Net(c.network)
    ensures forall it :: it in Drift(px, cs) && it.NetworkMismatch? ==> it.nic != c.id
  {
    hide Drift, Clean, Partner, DistinctIds, NicItems, Upper;
    forall it | it in Drift(px, cs) && it.NetworkMismatch? ensures it.nic != c.id {
      DriftIs(px, cs);
      var q :| q in px && it in NicItems(q, cs);
      NetworkItemOf(q, cs, it);
      if it.nic == c.id {
        OneFor(px, cs, p, q, c.id);
        assert false;
      }
    }
  }

  lemma NetworkItemOf(q: PxNic, cs: seq<CsNic>, it: Item)
    requires it in NicItems(q, cs)
    ensures it.NetworkMismatch? ==>
      Partner(q, cs).Some? && Partner(q, cs).value.id == it.nic && q.target.Net?
      && Partner(q, cs).value.network != q.target.network
    ensures it.IpMismatch? ==>
      Partner(q, cs).Some? && Partner(q, cs).value.id == it.nic && Partner(q, cs).value.ip != q.ip
  {
    hide Upper, Partner;
  }

  lemma NoIpItem(px: seq<PxNic>, cs: seq<CsNic>, p: PxNic, c: CsNic)
    requires Clean(px) && DistinctIds(cs) && p in px && Partner(p, cs) == Some(c) && p.ip == c.ip
    ensures forall it :: it in Drift(px, cs) && it.IpMismatch? ==> it.nic != c.id
  {
    hide Drift, Clean, Partner, DistinctIds, NicItems, Upper;
    forall it | it in Drift(px, cs) && it.IpMismatch? ensures it.nic != c.id {
      DriftIs(px, cs);
      var q :| q in px && it in NicItems(q, cs);
      NetworkItemOf(q, cs, it);
      if it.nic == c.id {
        OneFor(px, cs, p, q, c.id);
        assert false;
      }
    }
  }

  /** A guest NIC that had none: a row has been made for it. */
  lemma MissingAgrees(t0: Table, t: Table, vm: Id, px: seq<PxNic>, cs: seq<CsNic>, p: PxNic) returns (id: Id)
    requires Ready(t0, vm, px, cs) && p in px && Partner(p, cs).None?
    requires NewRows(t0, t, vm, Drift(px, cs))
    ensures IsNew(t0, t, id) && Mine(t, vm, id) && Agrees(p, t.rows[id])
  {
    assert p.target.Net? && p.mac != "";
    UpperTwice(p.mac);
    hide Upper, Clean, ByMac, Drift;
    var it := Missing(p.device, Upper(p.mac), Some(p.target.network), p.ip);
    InDrift(px, cs, p, it);
    id :| IsNew(t0, t, id) && MadeBy(t.rows[id], vm, it);
  }

  /** Every live NIC of the VM is one of these. */
  lemma RowHasNic(t0: Table, t: Table, vm: Id, px: seq<PxNic>, cs: seq<CsNic>, id: Id) returns (p: PxNic)
    requires Ready(t0, vm, px, cs) && Reached(t0, t, vm, Drift(px, cs)) && Mine(t, vm, id)
    ensures p in px && Agrees(p, t.rows[id])
    ensures if id in t0.rows then For(px, cs, p, id) else Partner(p, cs).None?
  {
    hide Upper, Drift;
    if id in t0.rows {
      assert Kept(t0.rows[id], t.rows[id], id, Drift(px, cs));
      assert Mine(t0, vm, id);
      var c :| c in cs && c.id == id;
      if !Partnered(px, cs, id) {
        ExtraInDrift(px, cs, c);
        assert false;
      }
      hide Kept, Clean;
      p :| p in px && Partner(p, cs).Some? && Partner(p, cs).value.id == id;
      PartnerAgrees(t0, t, vm, px, cs, p, Partner(p, cs).value);
    } else {
      assert IsNew(t0, t, id);
      var it :| it in Drift(px, cs) && MadeBy(t.rows[id], vm, it);
      DriftJustified(px, cs, it);
      p :| p in px && Partner(p, cs).None? && it.mac == Upper(p.mac) && p.target.Net?
        && it == Missing(p.device, it.mac, Some(p.target.network), p.ip);
      UpperTwice(p.mac);
    }
  }

  lemma ExtraInDrift(px: seq<PxNic>, cs: seq<CsNic>, c: CsNic)
    requires c in cs && !Partnered(px, cs, c.id)
    ensures Extra(c.id, c.mac) in Drift(px, cs)
  {
    hide Drift, Partnered, NicItems;
    DriftIs(px, cs);
  }

  /** After the pass the table is settled, even if the VM began with duplicate MACs or
      NICs without one, and any later snapshot of it shows no drift. */
  lemma OnePassSettles(t: Table, vm: Id, px: seq<PxNic>, cs: seq<CsNic>)
    requires Ready(t, vm, px, cs)
    ensures var after := WrittenAll(t, vm, Drift(px, cs), |Drift(px, cs)|);
      && Settled(after, vm, px)
      && forall shown :: Current(after, vm, shown) ==> Drift(px, shown) == []
  {
    hide Drift, Reached, Settled, Clean, Current, Written;
    var drift := Drift(px, cs);
    var after := WrittenAll(t, vm, drift, |drift|);
    AllReached(t, vm, px, cs, |drift|);
    assert drift[..|drift|] == drift;
    ReachedIsSettled(t, after, vm, px, cs);
    forall shown | Current(after, vm, shown) ensures Drift(px, shown) == [] {
      SettledShowsNoDrift(after, vm, px, shown);
    }
  }

  lemma ReachedIsSettled(t0: Table, t: Table, vm: Id, px: seq<PxNic>, cs: seq<CsNic>)
    requires Ready(t0, vm, px, cs) && Reached(t0, t, vm, Drift(px, cs))
    ensures Settled(t, vm, px)
  {
    assert OldRows(t0, t, Drift(px, cs)) && NewRows(t0, t, vm, Drift(px, cs));
    hide Drift, Reached, OldRows, NewRows, Ready, Agrees, SameMac, Mine;
    forall id | Mine(t, vm, id) ensures id in t.rows && exists p :: p in px && Agrees(p, t.rows[id]) {
      MineIsRow(t, vm, id);
      var p := RowHasNic(t0, t, vm, px, cs, id);
    }
    forall p | p in px ensures HasNic(t, vm, p) {
      if Partner(p, cs).Some? {
        PartnerAgrees(t0, t, vm, px, cs, p, Partner(p, cs).value);
      } else {
        var id := MissingAgrees(t0, t, vm, px, cs, p);
      }
    }
    forall a, b | Mine(t, vm, a) && Mine(t, vm, b) && a in t.rows && b in t.rows && SameMac(t.rows[a], t.rows[b])
      ensures a == b
    {
      OneRowPerMac(t0, t, vm, px, cs, a, b);
    }
    forall id | Mine(t, vm, id) ensures id in t.rows { MineIsRow(t, vm, id); }
  }

  lemma MineIsRow(t: Table, vm: Id, id: Id)
    requires Mine(t, vm, id)
    ensures id in t.rows && !t.rows[id].removed && t.rows[id].instance == vm
  {
  }

  lemma OneRowPerMac(t0: Table, t: Table, vm: Id, px: seq<PxNic>, cs: seq<CsNic>, a: Id, b: Id)
    requires Ready(t0, vm, px, cs) && Reached(t0, t, vm, Drift(px, cs))
    requires Mine(t, vm, a) && Mine(t, vm, b) && SameMac(t.rows[a], t.rows[b])
    ensures a == b
  {
    assert NewRows(t0, t, vm, Drift(px, cs)) && Clean(px);
    hide Drift, Reached, Clean, Upper, Kept, OldRows;
    var p := RowHasNic(t0, t, vm, px, cs, a);
    var q := RowHasNic(t0, t, vm, px, cs, b);
    SameMacSameNic(px, p, q);
    if a !in t0.rows && b !in t0.rows {
      var x :| x in Drift(px, cs) && MadeBy(t.rows[a], vm, x);
      var y :| y in Drift(px, cs) && MadeBy(t.rows[b], vm, y);
      MadeMac(px, cs, x);
      MadeMac(px, cs, y);
    }
  }

  /** The MAC of a missing NIC is written in capitals, so equal up to case is equal. */
  lemma MadeMac(px: seq<PxNic>, cs: seq<CsNic>, it: Item)
    requires Clean(px) && it in Drift(px, cs) && it.Missing?
    ensures Upper(it.mac) == it.mac
  {
    hide Drift, Clean, Upper;
    DriftJustified(px, cs, it);
    var p :| p in px && it.mac == Upper(p.mac);
    UpperTwice(p.mac);
  }

  // ------------------------------------------------------ which rows are lost

  /** Some item of `done` is about a NIC without a partner, this row. */
  ghost predicate Dropped(done: seq<Item>, id: Id) {
    exists i :: 0 <= i < |done| && done[i].Extra? && done[i].nic == id
  }

  lemma FirstKeepsKind(drift: seq<Item>, it: Item)
    requires First(drift, it).Some?
    ensures var found := First(drift, it).value;
      (it.Extra? ==> found == it) && (!it.Extra? ==> !found.Extra?)
  {
    hide First;
    FirstIs(drift, it);
  }

  lemma WrittenKeepsLife(t: Table, vm: Id, it: Item, id: Id)
    requires WellKept(t) && id in t.rows
    ensures var v := Written(t, vm, it);
      WellKept(v) && id in v.rows && (Live(v, id) <==> Live(t, id) && !(it.Extra? && it.nic == id))
  {
  }

  /** A row of the table is removed by the pass exactly if one of its items drops it. No
      assumption is made on the guest's NICs or on how current the snapshot is. */
  lemma {:induction false} PassRemoves(t: Table, vm: Id, drift: seq<Item>, n: nat, id: Id)
    requires WellKept(t) && id in t.rows && n <= |drift|
    ensures var v := WrittenAll(t, vm, drift, n);
      WellKept(v) && id in v.rows && (Live(v, id) <==> Live(t, id) && !Dropped(drift[..n], id))
    decreases n
  {
    hide Written, WellKept, First, Live;
    if n > 0 {
      PassRemoves(t, vm, drift, n - 1, id);
      var u, it := WrittenAll(t, vm, drift, n - 1), drift[n - 1];
      assert drift[..n] == drift[..n - 1] + [it];
      assert Dropped(drift[..n], id) <==> Dropped(drift[..n - 1], id) || (it.Extra? && it.nic == id) by {
        assert drift[..n][n - 1] == it;
        forall i | 0 <= i < n - 1 ensures drift[..n][i] == drift[..n - 1][i] {}
      }
      FirstIs(drift, it);
      assert it in drift;
      FirstKeepsKind(drift, it);
      WrittenKeepsLife(u, vm, First(drift, it).value, id);
    }
  }

  lemma NicItemsDropNothing(p: PxNic, cs: seq<CsNic>, it: Item)
    requires it in NicItems(p, cs)
    ensures !it.Extra?
  {
    hide Upper, ByMac;
  }

  lemma DroppedIff(px: seq<PxNic>, cs: seq<CsNic>, c: CsNic)
    requires c in cs
    ensures Dropped(Drift(px, cs), c.id) <==> !Partnered(px, cs, c.id)
  {
    hide Drift, Partnered, NicItems;
    DriftIs(px, cs);
    var drift := Drift(px, cs);
    if Dropped(drift, c.id) {
      var i :| 0 <= i < |drift| && drift[i].Extra? && drift[i].nic == c.id;
      assert drift[i] in drift;
      forall p | p in px && drift[i] in NicItems(p, cs) ensures false { NicItemsDropNothing(p, cs, drift[i]); }
    }
    if !Partnered(px, cs, c.id) {
      ExtraInDrift(px, cs, c);
      var i :| 0 <= i < |drift| && drift[i] == Extra(c.id, c.mac);
    }
  }

  /** After a pass, a live row of the snapshot is still live exactly if some guest NIC has it
      as its partner. */
  lemma SurvivesIff(t: Table, vm: Id, px: seq<PxNic>, cs: seq<CsNic>, c: CsNic)
    requires WellKept(t) && c in cs && Live(t, c.id)
    ensures Live(WrittenAll(t, vm, Drift(px, cs), |Drift(px, cs)|), c.id) <==> Partnered(px, cs, c.id)
  {
    hide Drift, Partnered, WrittenAll, Dropped, WellKept;
    var drift := Drift(px, cs);
    PassRemoves(t, vm, drift, |drift|, c.id);
    assert drift[..|drift|] == drift;
    DroppedIff(px, cs, c);
  }

  ghost predicate DistinctMacs(px: seq<PxNic>) {
    forall i, j :: 0 <= i < j < |px| ==> Upper(px[i].mac) != Upper(px[j].mac)
  }

  lemma PartnerOnlyOf(px: seq<PxNic>, cs: seq<CsNic>, p: PxNic, c: CsNic)
    requires p in px && DistinctMacs(px) && DistinctIds(cs) && ByMac(cs, Upper(p.mac)) == Some(c)
    ensures Partnered(px, cs, c.id) <==> p.target != Unmapped
  {
    hide Upper, ByMac;
    ByMacIs(cs, Upper(p.mac));
    if Partnered(px, cs, c.id) {
      var q :| q in px && Partner(q, cs).Some? && Partner(q, cs).value.id == c.id;
      ByMacIs(cs, Upper(q.mac));
      assert Partner(q, cs).value == c;
      assert q == p;
    } else {
      assert Partner(p, cs) == None;
    }
  }

  /** Where guest NICs have MACs of their own, the CloudStack NIC found by the MAC of one of
      them survives the pass exactly if the bridge of that one is mapped at all: an unmapped
      bridge takes the NIC down, though both have the same MAC. */
  lemma OnlyUnmappedIsLost(t: Table, vm: Id, px: seq<PxNic>, cs: seq<CsNic>, p: PxNic, c: CsNic)
    requires WellKept(t) && p in px && DistinctMacs(px) && DistinctIds(cs)
    requires ByMac(cs, Upper(p.mac)) == Some(c) && Live(t, c.id)
    ensures Live(WrittenAll(t, vm, Drift(px, cs), |Drift(px, cs)|), c.id) <==> p.target != Unmapped
  {
    hide Upper, ByMac, Drift, Partnered, WrittenAll, WellKept, DistinctMacs, DistinctIds;
    ByMacIs(cs, Upper(p.mac));
    SurvivesIff(t, vm, px, cs, c);
    PartnerOnlyOf(px, cs, p, c);
  }
}
