/** `match_vms`: which Proxmox guest is which CloudStack VM.

    The relation to be found is defined first, by what makes a pair a link; the passes
    over dictionaries and claimed sets that compute it follow. */
module Matcher {
  import opened Model
  import opened Text
  import opened HostMapping

  datatype Source = NoSource | Manual | ByHost | ByName | Legacy

  datatype Px = Px(
    cluster: string, node: string, vmid: int, name: string,
    qemu: bool, template: bool, current: bool,
    matched: bool, csUuid: Option<Id>, source: Source)

  datatype Cs = Cs(
    external: bool, vmid: Option<int>, hostName: string, state: string,
    name: string, displayName: string, instanceName: string, current: bool,
    matched: bool, pxId: Option<Id>, source: Source)

  datatype Inventory = Inventory(px: map<Id, Px>, cs: map<Id, Cs>)

  // ------------------------------------------------------------- host lookups

  predicate LeadsFrom(m: Mapping, host: string) {
    Canonical(host).Some? && Canonical(m.hostName) == Canonical(host)
  }

  predicate LeadsTo(m: Mapping, cluster: string, node: string) {
    && Canonical(cluster).Some? && Canonical(node).Some?
    && Canonical(m.cluster) == Canonical(cluster) && Canonical(m.node) == Canonical(node)
  }

  /** `_unique_mapping_for_cs_host` finds one. */
  predicate HostKnown(ms: seq<Mapping>, host: string) {
    exists m :: m in UniqueMappings(ms) && LeadsFrom(m, host)
  }

  /** `_unique_mapping_for_px` finds one. */
  predicate PlacementKnown(ms: seq<Mapping>, cluster: string, node: string) {
    exists m :: m in UniqueMappings(ms) && LeadsTo(m, cluster, node)
  }

  predicate StandsFor(ms: seq<Mapping>, host: string, cluster: string, node: string) {
    exists m :: m in UniqueMappings(ms) && LeadsFrom(m, host) && LeadsTo(m, cluster, node)
  }

  /** The host occurs in the table at all, however malformed or ambiguous the row. */
  predicate HostMentioned(ms: seq<Mapping>, host: string) {
    exists m :: m in ms && LeadsFrom(m, host)
  }

  /** A lookup never has two answers, so asking for exactly one is asking for any. */
  lemma LookupsAreUnique(ms: seq<Mapping>, a: Mapping, b: Mapping, host: string, cluster: string, node: string)
    requires a in UniqueMappings(ms) && b in UniqueMappings(ms)
    requires (LeadsFrom(a, host) && LeadsFrom(b, host)) || (LeadsTo(a, cluster, node) && LeadsTo(b, cluster, node))
    ensures a == b
  {
    FilterIsOneToOne(ms);
    var rows := UniqueMappings(ms);
    var i :| 0 <= i < |rows| && rows[i] == a;
    var j :| 0 <= j < |rows| && rows[j] == b;
    assert i != j ==> !Clash(rows[i], rows[j]);
  }

  // --------------------------------------------------------------- the relation

  /** `_relationship_mappings`: a mutual link worth keeping. */
  predicate Durable(inv: Inventory, ms: seq<Mapping>, p: Id, c: Id) {
    && p in inv.px && c in inv.cs
    && var px, cs := inv.px[p], inv.cs[c];
    && px.current && cs.current && px.matched && cs.matched
    && px.qemu && !px.template && cs.external
    && px.csUuid == Some(c) && cs.pxId == Some(p) && cs.vmid == Some(px.vmid)
    && px.source == cs.source && px.source in {Manual, ByHost}
    && HostKnown(ms, cs.hostName) && PlacementKnown(ms, px.cluster, px.node)
  }

  datatype Mode = AtHost | Doubtful | Hostless | Elsewhere

  function ModeOf(ms: seq<Mapping>, cs: Cs): Mode {
    if HostKnown(ms, cs.hostName) then AtHost
    else if HostMentioned(ms, cs.hostName) then Doubtful
    else if cs.hostName == "" && Lower(cs.state) in {"stopped", "error"} then Hostless
    else Elsewhere
  }

  predicate Eligible(px: Px) {
    && px.current && px.qemu && !px.template
    && Canonical(px.cluster).Some? && Canonical(px.node).Some?
  }

  predicate Named(px: Px, cs: Cs) {
    && px.name != ""
    && (|| (cs.name != "" && Lower(cs.name) == Lower(px.name))
        || (cs.displayName != "" && Lower(cs.displayName) == Lower(px.name))
        || (cs.instanceName != "" && Lower(cs.instanceName) == Lower(px.name)))
  }

  predicate Asks(cs: Cs) {
    cs.current && cs.external && cs.vmid.Some?
  }

  /** The guest could be the VM, by placement or, for a hostless VM, by name. */
  predicate Fits(ms: seq<Mapping>, px: Px, cs: Cs) {
    && Eligible(px) && Asks(cs) && cs.vmid == Some(px.vmid)
    && match ModeOf(ms, cs)
       case AtHost => StandsFor(ms, cs.hostName, px.cluster, px.node)
       case Hostless => Named(px, cs)
       case _ => false
  }

  ghost predicate PxTaken(inv: Inventory, ms: seq<Mapping>, p: Id) {
    exists c :: Durable(inv, ms, p, c)
  }

  ghost predicate CsTaken(inv: Inventory, ms: seq<Mapping>, c: Id) {
    exists p :: Durable(inv, ms, p, c)
  }

  ghost predicate Open(inv: Inventory, ms: seq<Mapping>, p: Id, c: Id) {
    && p in inv.px && c in inv.cs && Fits(ms, inv.px[p], inv.cs[c])
    && !PxTaken(inv, ms, p) && !CsTaken(inv, ms, c)
  }

  ghost predicate Sole(inv: Inventory, ms: seq<Mapping>, p: Id, c: Id) {
    Open(inv, ms, p, c) && forall q :: Open(inv, ms, q, c) ==> q == p
  }

  ghost predicate Auto(inv: Inventory, ms: seq<Mapping>, p: Id, c: Id) {
    Sole(inv, ms, p, c) && forall d :: Sole(inv, ms, p, d) ==> d == c
  }

  ghost predicate Linked(inv: Inventory, ms: seq<Mapping>, p: Id, c: Id) {
    Durable(inv, ms, p, c) || Auto(inv, ms, p, c)
  }

  function SourceFor(inv: Inventory, ms: seq<Mapping>, p: Id, c: Id): Source
    requires p in inv.px && c in inv.cs
  {
    if Durable(inv, ms, p, c) then inv.px[p].source
    else if ModeOf(ms, inv.cs[c]) == AtHost then ByHost else ByName
  }

  function LinkPx(px: Px, c: Id, source: Source): Px {
    px.(matched := true, csUuid := Some(c), source := source)
  }

  function LinkCs(cs: Cs, p: Id, source: Source): Cs {
    cs.(matched := true, pxId := Some(p), source := source)
  }

  function ClearPx(px: Px): Px {
    px.(matched := false, csUuid := None, source := NoSource)
  }

  function ClearCs(cs: Cs): Cs {
    cs.(matched := false, pxId := None, source := NoSource)
  }

  /** The links are a partial bijection between current guests and current External VMs
      with the same VMID. */
  lemma LinksAreOneToOne(inv: Inventory, ms: seq<Mapping>, p: Id, c: Id)
    requires Linked(inv, ms, p, c)
    ensures p in inv.px && c in inv.cs
    ensures inv.px[p].current && inv.px[p].qemu && !inv.px[p].template
    ensures inv.cs[c].current && inv.cs[c].external && inv.cs[c].vmid == Some(inv.px[p].vmid)
    ensures forall d :: Linked(inv, ms, p, d) ==> d == c
    ensures forall q :: Linked(inv, ms, q, c) ==> q == p
  {
  }

  /** What a match leaves behind: every row as it was, but for the three link columns,
      and those say exactly which link the row is part of. */
  ghost predicate Relinked(was: Inventory, ms: seq<Mapping>, now: Inventory) {
    && now.px.Keys == was.px.Keys && now.cs.Keys == was.cs.Keys
    && (forall p, c :: Linked(was, ms, p, c) ==>
          && p in was.px && c in was.cs
          && now.px[p] == LinkPx(was.px[p], c, SourceFor(was, ms, p, c))
          && now.cs[c] == LinkCs(was.cs[c], p, SourceFor(was, ms, p, c)))
    && (forall p :: p in was.px && !(exists c :: Linked(was, ms, p, c)) ==> now.px[p] == ClearPx(was.px[p]))
    && (forall c :: c in was.cs && !(exists p :: Linked(was, ms, p, c)) ==> now.cs[c] == ClearCs(was.cs[c]))
  }

  lemma RelinkedIsOne(was: Inventory, ms: seq<Mapping>, a: Inventory, b: Inventory)
    requires Relinked(was, ms, a) && Relinked(was, ms, b)
    ensures a == b
  {
    hide Linked, LinkPx, LinkCs, ClearPx, ClearCs, SourceFor;
    forall p | p in was.px ensures a.px[p] == b.px[p] {
      PxIsOne(was, ms, a, b, p);
    }
    forall c | c in was.cs ensures a.cs[c] == b.cs[c] {
      CsIsOne(was, ms, a, b, c);
    }
  }

  lemma PxIsOne(was: Inventory, ms: seq<Mapping>, a: Inventory, b: Inventory, p: Id)
    requires Relinked(was, ms, a) && Relinked(was, ms, b) && p in was.px
    ensures p in a.px && p in b.px && a.px[p] == b.px[p]
  {
    hide Linked, LinkPx, LinkCs, ClearPx, ClearCs, SourceFor;
    assert p in a.px.Keys && p in b.px.Keys;
    if c :| Linked(was, ms, p, c) {
    }
  }

  lemma CsIsOne(was: Inventory, ms: seq<Mapping>, a: Inventory, b: Inventory, c: Id)
    requires Relinked(was, ms, a) && Relinked(was, ms, b) && c in was.cs
    ensures c in a.cs && c in b.cs && a.cs[c] == b.cs[c]
  {
    hide Linked, LinkPx, LinkCs, ClearPx, ClearCs, SourceFor;
    assert c in a.cs.Keys && c in b.cs.Keys;
    if p :| Linked(was, ms, p, c) {
    }
  }

  // ----------------------------------------------------------- order independence

  lemma {:induction false} AloneAsSet(rows: seq<Mapping>, m: Mapping)
    requires forall i, j :: 0 <= i < j < |rows| ==> rows[i].id != rows[j].id
    ensures m in UniqueMappings(rows) <==>
      m in rows && Complete(m) && forall n :: n in rows && n != m ==> !Clash(m, n)
  {
    FilterIsOneToOne(rows);
    if m in rows {
      var i :| 0 <= i < |rows| && rows[i] == m;
      assert Alone(rows, i) <==> Complete(m) && forall n :: n in rows && n != m ==> !Clash(m, n);
    }
  }

  ghost predicate SameRows(a: seq<Mapping>, b: seq<Mapping>) {
    && (forall m :: m in a <==> m in b)
    && (forall i, j :: 0 <= i < j < |a| ==> a[i].id != a[j].id)
    && (forall i, j :: 0 <= i < j < |b| ==> b[i].id != b[j].id)
  }

  /** The order in which the mapping table is read makes no difference to any link. */
  lemma OrderOfMappings(inv: Inventory, a: seq<Mapping>, b: seq<Mapping>)
    requires SameRows(a, b)
    ensures forall p, c :: Durable(inv, a, p, c) <==> Durable(inv, b, p, c)
    ensures forall p, c :: Linked(inv, a, p, c) <==> Linked(inv, b, p, c)
    ensures forall p, c :: p in inv.px && c in inv.cs ==> SourceFor(inv, a, p, c) == SourceFor(inv, b, p, c)
  {
    forall m ensures m in UniqueMappings(a) <==> m in UniqueMappings(b) {
      AloneAsSet(a, m);
      AloneAsSet(b, m);
    }
    SameTests(a, b);
    hide HostKnown, PlacementKnown, StandsFor, HostMentioned;
    assert forall p, c :: Durable(inv, a, p, c) <==> Durable(inv, b, p, c);
    assert forall cs :: ModeOf(a, cs) == ModeOf(b, cs);
    assert forall px, cs :: Fits(a, px, cs) <==> Fits(b, px, cs);
    hide Durable, Fits;
    assert forall p :: PxTaken(inv, a, p) <==> PxTaken(inv, b, p);
    assert forall c :: CsTaken(inv, a, c) <==> CsTaken(inv, b, c);
    assert forall p, c :: Open(inv, a, p, c) <==> Open(inv, b, p, c);
    hide Open;
    assert forall p, c :: Sole(inv, a, p, c) <==> Sole(inv, b, p, c);
  }

  /** So neither the order of the mapping rows nor that of the guests and VMs has any
      influence on the rows a match leaves behind. */
  lemma MatchIsDetermined(was: Inventory, a: seq<Mapping>, b: seq<Mapping>, x: Inventory, y: Inventory)
    requires SameRows(a, b) && Relinked(was, a, x) && Relinked(was, b, y)
    ensures x == y
  {
    OrderOfMappings(was, a, b);
    hide Linked, SourceFor, LinkPx, LinkCs, ClearPx, ClearCs, SameRows;
    assert Relinked(was, a, y);
    RelinkedIsOne(was, a, x, y);
  }

  lemma SameTests(a: seq<Mapping>, b: seq<Mapping>)
    requires forall m :: m in a <==> m in b
    requires forall m :: m in UniqueMappings(a) <==> m in UniqueMappings(b)
    ensures forall host :: HostKnown(a, host) <==> HostKnown(b, host)
    ensures forall cluster, node :: PlacementKnown(a, cluster, node) <==> PlacementKnown(b, cluster, node)
    ensures forall host, cluster, node :: StandsFor(a, host, cluster, node) <==> StandsFor(b, host, cluster, node)
    ensures forall host :: HostMentioned(a, host) <==> HostMentioned(b, host)
  {
  }

  // --------------------------------------------------------- matching once more

  /** Established for good: set by hand, or found by placement. */
  ghost predicate Lasting(inv: Inventory, ms: seq<Mapping>, p: Id, c: Id) {
    && Linked(inv, ms, p, c) && p in inv.px && c in inv.cs
    && SourceFor(inv, ms, p, c) in {Manual, ByHost}
  }

  /** Links set by hand or found by placement survive the next match of the same rows. */
  lemma LastingIsDurable(was: Inventory, ms: seq<Mapping>, now: Inventory, p: Id, c: Id)
    requires Relinked(was, ms, now) && Lasting(was, ms, p, c)
    ensures Durable(now, ms, p, c) && Linked(now, ms, p, c)
    ensures SourceFor(now, ms, p, c) == SourceFor(was, ms, p, c)
  {
    if !Durable(was, ms, p, c) {
      var m :| m in UniqueMappings(ms) && LeadsFrom(m, was.cs[c].hostName)
        && LeadsTo(m, was.px[p].cluster, was.px[p].node);
      assert HostKnown(ms, was.cs[c].hostName) && PlacementKnown(ms, was.px[p].cluster, was.px[p].node);
    }
  }

  /** And nothing else becomes durable: the next match keeps these links and no others
      without looking for candidates again. */
  lemma DurableWasLasting(was: Inventory, ms: seq<Mapping>, now: Inventory, p: Id, c: Id)
    requires Relinked(was, ms, now) && Durable(now, ms, p, c)
    ensures Lasting(was, ms, p, c)
  {
    if d :| Linked(was, ms, p, d) {
    }
  }

  /** A durable link outlives a move of the guest to another node, and of the VM to
      another host, exactly as long as both ends stay known to the mapping table. */
  lemma MovedLinkStays(inv: Inventory, ms: seq<Mapping>, p: Id, c: Id, cluster: string, node: string,
                       hostName: string, after: seq<Mapping>)
    requires Durable(inv, ms, p, c)
    ensures var moved := Inventory(inv.px[p := inv.px[p].(cluster := cluster, node := node)],
                                   inv.cs[c := inv.cs[c].(hostName := hostName)]);
      && (Durable(moved, after, p, c) <==>
            HostKnown(after, hostName) && PlacementKnown(after, cluster, node))
      && (Durable(moved, after, p, c) ==> forall d :: Linked(moved, after, p, d) <==> d == c)
  {
  }

  /** With the guests that were linked for good set aside, `d` is left with `p` alone. */
  ghost predicate LeftWith(was: Inventory, ms: seq<Mapping>, p: Id, d: Id) {
    && Open(was, ms, p, d)
    && !(exists q :: Lasting(was, ms, q, d))
    && forall q :: Open(was, ms, q, d) && q != p ==> exists e :: Lasting(was, ms, q, e)
  }

  lemma OpenAgain(was: Inventory, ms: seq<Mapping>, now: Inventory, p: Id, c: Id)
    requires Relinked(was, ms, now)
    ensures Open(now, ms, p, c) <==>
      && Open(was, ms, p, c)
      && !(exists d :: Lasting(was, ms, p, d)) && !(exists q :: Lasting(was, ms, q, c))
  {
    TakenAgain(was, ms, now, p, c);
    TakenIsLasting(was, ms, p, c);
    FitsAgain(was, ms, now, p, c);
    hide PxTaken, CsTaken, Lasting, Fits;
  }

  lemma TakenIsLasting(inv: Inventory, ms: seq<Mapping>, p: Id, c: Id)
    ensures PxTaken(inv, ms, p) ==> exists d :: Lasting(inv, ms, p, d)
    ensures CsTaken(inv, ms, c) ==> exists q :: Lasting(inv, ms, q, c)
  {
    if d :| Durable(inv, ms, p, d) {
      assert Lasting(inv, ms, p, d);
    }
    if q :| Durable(inv, ms, q, c) {
      assert Lasting(inv, ms, q, c);
    }
  }

  lemma FitsAgain(was: Inventory, ms: seq<Mapping>, now: Inventory, p: Id, c: Id)
    requires Relinked(was, ms, now)
    ensures p in now.px <==> p in was.px
    ensures c in now.cs <==> c in was.cs
    ensures p in was.px && c in was.cs ==>
      (Fits(ms, now.px[p], now.cs[c]) <==> Fits(ms, was.px[p], was.cs[c]))
  {
    hide Fits, Linked;
    assert p in now.px.Keys <==> p in was.px.Keys;
    assert c in now.cs.Keys <==> c in was.cs.Keys;
    if p in was.px && c in was.cs {
      SameButLinks(was, ms, now, p, c);
      FitsWithoutLinks(ms, was.px[p], was.cs[c]);
      FitsWithoutLinks(ms, now.px[p], now.cs[c]);
    }
  }

  lemma FitsWithoutLinks(ms: seq<Mapping>, px: Px, cs: Cs)
    ensures Fits(ms, ClearPx(px), ClearCs(cs)) <==> Fits(ms, px, cs)
  {
    hide HostKnown, HostMentioned, StandsFor, Lower, Canonical;
  }

  lemma SameButLinks(was: Inventory, ms: seq<Mapping>, now: Inventory, p: Id, c: Id)
    requires Relinked(was, ms, now) && p in was.px && c in was.cs
    ensures ClearPx(now.px[p]) == ClearPx(was.px[p]) && ClearCs(now.cs[c]) == ClearCs(was.cs[c])
  {
    if d :| Linked(was, ms, p, d) {
    }
    if q :| Linked(was, ms, q, c) {
    }
  }

  lemma TakenAgain(was: Inventory, ms: seq<Mapping>, now: Inventory, p: Id, c: Id)
    requires Relinked(was, ms, now)
    ensures PxTaken(now, ms, p) <==> exists d :: Lasting(was, ms, p, d)
    ensures CsTaken(now, ms, c) <==> exists q :: Lasting(was, ms, q, c)
  {
    forall d ensures Durable(now, ms, p, d) <==> Lasting(was, ms, p, d) {
      if Durable(now, ms, p, d) { DurableWasLasting(was, ms, now, p, d); }
      if Lasting(was, ms, p, d) { LastingIsDurable(was, ms, now, p, d); }
    }
    forall q ensures Durable(now, ms, q, c) <==> Lasting(was, ms, q, c) {
      if Durable(now, ms, q, c) { DurableWasLasting(was, ms, now, q, c); }
      if Lasting(was, ms, q, c) { LastingIsDurable(was, ms, now, q, c); }
    }
  }

  lemma ByNameIsAuto(was: Inventory, ms: seq<Mapping>, now: Inventory, p: Id, c: Id)
    requires Relinked(was, ms, now) && Linked(was, ms, p, c) && !Lasting(was, ms, p, c)
    ensures Auto(was, ms, p, c) && !Durable(now, ms, p, c)
    ensures !(exists d :: Lasting(was, ms, p, d)) && !(exists q :: Lasting(was, ms, q, c))
  {
    LinksAreOneToOne(was, ms, p, c);
    assert !Durable(now, ms, p, c) by {
      if Durable(now, ms, p, c) { DurableWasLasting(was, ms, now, p, c); }
    }
  }

  lemma SoleAgain(was: Inventory, ms: seq<Mapping>, now: Inventory, p: Id, d: Id)
    requires Relinked(was, ms, now) && !(exists e :: Lasting(was, ms, p, e))
    ensures Sole(now, ms, p, d) <==> LeftWith(was, ms, p, d)
  {
    hide Lasting, Open, Relinked;
    forall q
      ensures Open(now, ms, q, d) <==>
        (Open(was, ms, q, d)
         && !(exists e :: Lasting(was, ms, q, e)) && !(exists r :: Lasting(was, ms, r, d)))
    {
      OpenAgain(was, ms, now, q, d);
    }
  }

  /** A link found by name survives the next match of the same rows exactly when, with the
      lasting links set aside, no other VM is left with the same guest alone. */
  lemma ByNameKeptIff(was: Inventory, ms: seq<Mapping>, now: Inventory, p: Id, c: Id)
    requires Relinked(was, ms, now) && Linked(was, ms, p, c) && !Lasting(was, ms, p, c)
    ensures Linked(now, ms, p, c) <==> forall d :: LeftWith(was, ms, p, d) ==> d == c
  {
    hide Linked, Lasting, Open, Relinked, Durable;
    ByNameIsAuto(was, ms, now, p, c);
    forall d ensures Sole(now, ms, p, d) <==> LeftWith(was, ms, p, d) {
      SoleAgain(was, ms, now, p, d);
    }
    AutoLeftWith(was, ms, p, c);
    hide Sole, LeftWith;
    LinkedIs(now, ms, p, c);
  }

  lemma AutoLeftWith(was: Inventory, ms: seq<Mapping>, p: Id, c: Id)
    requires Auto(was, ms, p, c) && !(exists q :: Lasting(was, ms, q, c))
    ensures LeftWith(was, ms, p, c)
  {
    hide Open, Lasting;
  }

  lemma LinkedIs(inv: Inventory, ms: seq<Mapping>, p: Id, c: Id)
    ensures Linked(inv, ms, p, c) <==> Durable(inv, ms, p, c) || Auto(inv, ms, p, c)
  {
  }

  // ------------------------------------------ a name link that does not survive

  const M := Mapping(0, "k", "n", "h", "i")

  /** Guest 2 sits on the mapped host and is found there by VM 3. VM 1 and VM 2 are hostless
      and stopped: VM 1 names guest 1, VM 2 names both guests. */
  const EXAMPLE := Inventory(
    map[1 := Px("other", "o", 5, "a", true, false, true, false, None, NoSource),
        2 := Px("k", "n", 5, "b", true, false, true, false, None, NoSource)],
    map[1 := Cs(true, Some(5), "", "stopped", "a", "", "", true, false, None, NoSource),
        2 := Cs(true, Some(5), "", "stopped", "a", "b", "", true, false, None, NoSource),
        3 := Cs(true, Some(5), "h", "running", "", "", "", true, false, None, NoSource)])

  lemma ExampleMapping()
    ensures UniqueMappings([M]) == [M] && Complete(M)
    ensures Canonical("h") == Some("h") && Canonical("k") == Some("k") && Canonical("n") == Some("n")
    ensures Canonical("other") == Some("other") && Canonical("o") == Some("o") && Canonical("").None?
    ensures Lower("stopped") == "stopped" && Lower("a") == "a" && Lower("b") == "b"
  {
    assert Alone([M], 0);
    assert AloneUpTo([M], 0) == [];
    assert UniqueMappings([M]) == [] + [M];
    assert Lower("h") == "h" && Lower("k") == "k" && Lower("n") == "n" && Lower("o") == "o";
    assert Lower("other") == "other" && Lower("stopped") == "stopped";
    assert Lower("a") == "a" && Lower("b") == "b";
  }

  lemma ExampleModes()
    ensures ModeOf([M], EXAMPLE.cs[1]) == Hostless && ModeOf([M], EXAMPLE.cs[2]) == Hostless
    ensures ModeOf([M], EXAMPLE.cs[3]) == AtHost
    ensures StandsFor([M], "h", "k", "n") && !StandsFor([M], "h", "other", "o")
  {
    ExampleMapping();
    hide Lower, Canonical, UniqueMappings;
    assert M in UniqueMappings([M]) && LeadsFrom(M, "h") && LeadsTo(M, "k", "n");
  }

  lemma ExampleFits()
    ensures forall p, c :: Open(EXAMPLE, [M], p, c) <==> (p, c) in {(1, 1), (1, 2), (2, 2), (2, 3)}
    ensures forall p, c :: !Durable(EXAMPLE, [M], p, c)
  {
    ExampleMapping();
    ExampleModes();
    hide Lower, Canonical, ModeOf, StandsFor;
  }

  lemma ExampleSoles()
    ensures forall p, c :: Sole(EXAMPLE, [M], p, c) <==> (p, c) in {(1, 1), (2, 3)}
    ensures forall p, c :: Auto(EXAMPLE, [M], p, c) <==> (p, c) in {(1, 1), (2, 3)}
  {
    ExampleFits();
    hide Open, Durable;
    assert Open(EXAMPLE, [M], 1, 2) && Open(EXAMPLE, [M], 2, 2);
    forall p, c ensures Sole(EXAMPLE, [M], p, c) <==> (p, c) in {(1, 1), (2, 3)} {}
    hide Sole;
  }

  lemma ExampleLinks()
    ensures Linked(EXAMPLE, [M], 1, 1) && !Lasting(EXAMPLE, [M], 1, 1) && LeftWith(EXAMPLE, [M], 1, 2)
  {
    ExampleFits();
    ExampleSoles();
    ExampleModes();
    hide Open, Durable, ModeOf, Auto;
    forall p, c ensures Lasting(EXAMPLE, [M], p, c) <==> (p, c) == (2, 3) {}
    hide Lasting;
    assert Lasting(EXAMPLE, [M], 2, 3);
  }

  /** Linked by name at first; linked no longer after the next match of the same rows. */
  lemma ByNameLost(now: Inventory)
    requires Relinked(EXAMPLE, [M], now)
    ensures Linked(EXAMPLE, [M], 1, 1) && !Linked(now, [M], 1, 1)
  {
    hide Linked, Lasting, LeftWith, Relinked;
    ExampleLinks();
    ByNameKeptIff(EXAMPLE, [M], now, 1, 1);
  }
}
