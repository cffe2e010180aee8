/** The automatic half of `match_vms`, and the whole pass. */
module MatchVms {
  import opened Model
  import opened Text
  import opened HostMapping
  import opened Matcher
  import opened MatchPasses
  import opened Sorting

  // ------------------------------------------------- the candidates of one VM

  method LookupHost(ms: seq<Mapping>, host: string) returns (found: Option<Mapping>)
    ensures found.None? <==> !HostKnown(ms, host)
    ensures found.Some? ==> found.value in UniqueMappings(ms) && LeadsFrom(found.value, host)
  {
    var rows := GloballyUniqueHostMappings(ms);
    for i := 0 to |rows|
      invariant forall j :: 0 <= j < i ==> !LeadsFrom(rows[j], host)
    {
      if LeadsFrom(rows[i], host) {
        return Some(rows[i]);
      }
    }
    return None;
  }

  /** The mapping a lookup finds decides alone what the host stands for. */
  lemma FoundStandsFor(ms: seq<Mapping>, m: Mapping, host: string, cluster: string, node: string)
    requires m in UniqueMappings(ms) && LeadsFrom(m, host)
    ensures StandsFor(ms, host, cluster, node) <==> LeadsTo(m, cluster, node)
    ensures Complete(m)
  {
    FilterIsOneToOne(ms);
    if StandsFor(ms, host, cluster, node) {
      var n :| n in UniqueMappings(ms) && LeadsFrom(n, host) && LeadsTo(n, cluster, node);
      LookupsAreUnique(ms, m, n, host, cluster, node);
    }
  }

  predicate AtNode(inv: Inventory, m: Mapping, taken: set<Id>, p: Id) {
    p in inv.px && Canonical(inv.px[p].node) == Canonical(m.node) && p !in taken
  }

  predicate HasName(inv: Inventory, cs: Cs, taken: set<Id>, p: Id) {
    p in inv.px && Named(inv.px[p], cs) && p !in taken
  }

  ghost predicate FreeCandidates(inv: Inventory, ms: seq<Mapping>, cs: Cs, taken: set<Id>, list: seq<Id>) {
    Distinct(list) && forall p :: p in list <==> p in inv.px && Fits(ms, inv.px[p], cs) && p !in taken
  }

  lemma PlacedFits(inv: Inventory, ms: seq<Mapping>, m: Mapping, cs: Cs, p: Id)
    requires p in inv.px && Asks(cs) && m in UniqueMappings(ms) && LeadsFrom(m, cs.hostName)
    ensures Canonical(m.cluster).Some?
    ensures Fits(ms, inv.px[p], cs) <==>
      && PlaceKey(inv, p) == Some((Canonical(m.cluster).value, cs.vmid.value))
      && Canonical(inv.px[p].node) == Canonical(m.node)
  {
    FoundStandsFor(ms, m, cs.hostName, inv.px[p].cluster, inv.px[p].node);
    assert HostKnown(ms, cs.hostName);
    hide HostKnown, StandsFor;
  }

  lemma NamedFits(inv: Inventory, ms: seq<Mapping>, cs: Cs, p: Id)
    requires p in inv.px && Asks(cs) && ModeOf(ms, cs) == Hostless
    ensures Fits(ms, inv.px[p], cs) <==> VmidKey(inv, p) == Some(cs.vmid.value) && Named(inv.px[p], cs)
  {
    hide ModeOf, Named;
  }

  lemma NothingFits(ms: seq<Mapping>, px: Px, cs: Cs)
    requires ModeOf(ms, cs) in {Doubtful, Elsewhere}
    ensures !Fits(ms, px, cs)
  {
    hide ModeOf;
  }

  method CandidatesFor(inv: Inventory, ms: seq<Mapping>, cs: Cs, pxRows: seq<Id>, taken: set<Id>,
                       byPlace: map<(string, int), seq<Id>>, byVmid: map<int, seq<Id>>)
    returns (mode: Mode, list: seq<Id>)
    requires Asks(cs) && Lists(pxRows, CurrentPx(inv))
    requires IndexedBy(byPlace, pxRows, |pxRows|, p => PlaceKey(inv, p))
    requires IndexedBy(byVmid, pxRows, |pxRows|, p => VmidKey(inv, p))
    ensures mode == ModeOf(ms, cs)
    ensures FreeCandidates(inv, ms, cs, taken, list)
  {
    hide HostKnown, HostMentioned, Fits, Named, Canonical, Lower, PlaceKey, VmidKey;
    var host := LookupHost(ms, cs.hostName);
    if host.Some? {
      var m := host.value;
      mode := AtHost;
      list := AtPlace(inv, ms, m, cs, pxRows, taken, byPlace);
    } else if HostMentioned(ms, cs.hostName) {
      mode, list := Doubtful, [];
      forall p | p in inv.px ensures !Fits(ms, inv.px[p], cs) { NothingFits(ms, inv.px[p], cs); }
    } else if cs.hostName == "" && Lower(cs.state) in {"stopped", "error"} {
      mode := Hostless;
      list := ByItsName(inv, ms, cs, pxRows, taken, byVmid);
    } else {
      mode, list := Elsewhere, [];
      forall p | p in inv.px ensures !Fits(ms, inv.px[p], cs) { NothingFits(ms, inv.px[p], cs); }
    }
  }

  method AtPlace(inv: Inventory, ms: seq<Mapping>, m: Mapping, cs: Cs, pxRows: seq<Id>, taken: set<Id>,
                 byPlace: map<(string, int), seq<Id>>)
    returns (list: seq<Id>)
    requires Asks(cs) && Lists(pxRows, CurrentPx(inv))
    requires IndexedBy(byPlace, pxRows, |pxRows|, p => PlaceKey(inv, p))
    requires m in UniqueMappings(ms) && LeadsFrom(m, cs.hostName)
    ensures FreeCandidates(inv, ms, cs, taken, list)
  {
    hide Fits, LeadsFrom;
    FoundStandsFor(ms, m, cs.hostName, "", "");
    var key := (Canonical(m.cluster).value, cs.vmid.value);
    hide PlaceKey, Canonical, IndexedBy;
    var bucket := Get(byPlace, key);
    list := Keep(bucket, (p: Id) => AtNode(inv, m, taken, p));
    KeepIs(bucket, (p: Id) => AtNode(inv, m, taken, p));
    BucketIs(byPlace, pxRows, p => PlaceKey(inv, p), key, 0);
    KeepDistinct(bucket, (p: Id) => AtNode(inv, m, taken, p));
    forall p ensures p in list <==> p in inv.px && Fits(ms, inv.px[p], cs) && p !in taken {
      BucketIs(byPlace, pxRows, p => PlaceKey(inv, p), key, p);
      KeyedIsCurrent(inv, p);
      if p in inv.px {
        PlacedFits(inv, ms, m, cs, p);
      }
    }
  }

  lemma KeyedIsCurrent(inv: Inventory, p: Id)
    ensures PlaceKey(inv, p).Some? || VmidKey(inv, p).Some? ==> p in CurrentPx(inv)
  {
  }

  /** Whom a dictionary lists under a key. */
  lemma BucketIs<K(!new)>(index: map<K, seq<Id>>, rows: seq<Id>, keyOf: Id -> Option<K>, key: K, p: Id)
    requires IndexedBy(index, rows, |rows|, keyOf)
    ensures p in Get(index, key) <==> p in rows && keyOf(p) == Some(key)
    ensures Distinct(Get(index, key))
  {
    assert rows[..|rows|] == rows;
  }

  method ByItsName(inv: Inventory, ms: seq<Mapping>, cs: Cs, pxRows: seq<Id>, taken: set<Id>,
                   byVmid: map<int, seq<Id>>)
    returns (list: seq<Id>)
    requires Asks(cs) && Lists(pxRows, CurrentPx(inv)) && ModeOf(ms, cs) == Hostless
    requires IndexedBy(byVmid, pxRows, |pxRows|, p => VmidKey(inv, p))
    ensures FreeCandidates(inv, ms, cs, taken, list)
  {
    hide Fits, Named, ModeOf, VmidKey, IndexedBy;
    var bucket := Get(byVmid, cs.vmid.value);
    list := Keep(bucket, (p: Id) => HasName(inv, cs, taken, p));
    KeepIs(bucket, (p: Id) => HasName(inv, cs, taken, p));
    BucketIs(byVmid, pxRows, p => VmidKey(inv, p), cs.vmid.value, 0);
    KeepDistinct(bucket, (p: Id) => HasName(inv, cs, taken, p));
    forall p ensures p in list <==> p in inv.px && Fits(ms, inv.px[p], cs) && p !in taken {
      BucketIs(byVmid, pxRows, p => VmidKey(inv, p), cs.vmid.value, p);
      KeyedIsCurrent(inv, p);
      if p in inv.px {
        NamedFits(inv, ms, cs, p);
      }
    }
  }

  // ------------------------------------------------------ one guest for a VM

  ghost predicate Crowded(inv: Inventory, ms: seq<Mapping>, c: Id) {
    exists p, q :: p != q && Open(inv, ms, p, c) && Open(inv, ms, q, c)
  }

  /** The VM asks for a guest, and either its host or its candidates are ambiguous. */
  ghost predicate Puzzled(inv: Inventory, ms: seq<Mapping>, c: Id) {
    && c in inv.cs && Asks(inv.cs[c]) && !CsTaken(inv, ms, c)
    && (ModeOf(ms, inv.cs[c]) == Doubtful || Crowded(inv, ms, c))
  }

  /** The VM found a guest that another VM found too. */
  ghost predicate Contested(inv: Inventory, ms: seq<Mapping>, c: Id) {
    exists p :: Sole(inv, ms, p, c) && !Auto(inv, ms, p, c)
  }

  ghost predicate TakenSets(inv: Inventory, ms: seq<Mapping>, takenPx: set<Id>, takenCs: set<Id>) {
    && (forall p :: p in takenPx <==> PxTaken(inv, ms, p))
    && (forall c :: c in takenCs <==> CsTaken(inv, ms, c))
  }

  lemma ListIsOpen(inv: Inventory, ms: seq<Mapping>, c: Id, takenPx: set<Id>, takenCs: set<Id>, list: seq<Id>)
    requires TakenSets(inv, ms, takenPx, takenCs) && c in inv.cs && c !in takenCs
    requires FreeCandidates(inv, ms, inv.cs[c], takenPx, list)
    ensures forall p :: p in list <==> Open(inv, ms, p, c)
  {
    hide Fits, PxTaken, CsTaken;
  }

  /** The length of the candidate list decides. */
  lemma ListDecides(inv: Inventory, ms: seq<Mapping>, c: Id, list: seq<Id>)
    requires Distinct(list) && forall p :: p in list <==> Open(inv, ms, p, c)
    ensures forall p: Id :: Sole(inv, ms, p, c) <==> list == [p]
    ensures Crowded(inv, ms, c) <==> |list| > 1
  {
    hide Open;
    assert |list| >= 1 ==> list[0] in list;
    assert |list| >= 2 ==> list[1] in list && list[0] != list[1];
    assert |list| == 1 ==> list == [list[0]];
    forall p: Id ensures Sole(inv, ms, p, c) <==> list == [p] {
      if list == [p] {
        assert forall q :: q in list <==> q == p;
      }
    }
    if Crowded(inv, ms, c) {
      var p, q :| p != q && Open(inv, ms, p, c) && Open(inv, ms, q, c);
      assert p in list && q in list;
    }
  }

  lemma OpenAsks(inv: Inventory, ms: seq<Mapping>, p: Id, c: Id)
    ensures Open(inv, ms, p, c) ==>
      && p in inv.px && c in inv.cs && Asks(inv.cs[c]) && !CsTaken(inv, ms, c) && !PxTaken(inv, ms, p)
      && !Durable(inv, ms, p, c)
  {
  }

  predicate Has(pairs: seq<Pair>, p: Id, c: Id) {
    exists i :: 0 <= i < |pairs| && pairs[i].px == p && pairs[i].cs == c
  }

  /** The pairs of the first `n` rows that are each other's sole choice from the VM's side. */
  ghost predicate SolePairs(inv: Inventory, ms: seq<Mapping>, rows: seq<Id>, n: nat, auto: seq<Pair>)
    requires n <= |rows|
  {
    && (forall i :: 0 <= i < |auto| ==>
          && auto[i].cs in rows[..n] && Sole(inv, ms, auto[i].px, auto[i].cs)
          && auto[i].px in inv.px && auto[i].cs in inv.cs
          && auto[i].source == SourceFor(inv, ms, auto[i].px, auto[i].cs))
    && (forall p, c :: c in rows[..n] && Sole(inv, ms, p, c) ==> Has(auto, p, c))
    && (forall i, j :: 0 <= i < j < |auto| ==> auto[i].cs != auto[j].cs)
  }

  lemma SoleOneMore(inv: Inventory, ms: seq<Mapping>, rows: seq<Id>, n: nat, auto: seq<Pair>, p: Id, source: Source)
    requires n < |rows| && Distinct(rows) && SolePairs(inv, ms, rows, n, auto)
    requires p in inv.px && rows[n] in inv.cs && Sole(inv, ms, p, rows[n])
    requires source == SourceFor(inv, ms, p, rows[n])
    ensures SolePairs(inv, ms, rows, n + 1, auto + [Pair(p, rows[n], source)])
  {
    hide SourceFor, Open;
    var c := rows[n];
    var more := auto + [Pair(p, c, source)];
    assert rows[..n + 1] == rows[..n] + [c] && c !in rows[..n];
    forall q, d | d in rows[..n + 1] && Sole(inv, ms, q, d) ensures Has(more, q, d) {
      if d == c {
        assert more[|auto|].px == q;
      } else {
        var i :| 0 <= i < |auto| && auto[i].px == q && auto[i].cs == d;
        assert more[i] == auto[i];
      }
    }
  }

  lemma SoleNoMore(inv: Inventory, ms: seq<Mapping>, rows: seq<Id>, n: nat, auto: seq<Pair>)
    requires n < |rows| && SolePairs(inv, ms, rows, n, auto)
    requires forall p :: !Sole(inv, ms, p, rows[n])
    ensures SolePairs(inv, ms, rows, n + 1, auto)
  {
    hide SourceFor, Open;
    assert rows[..n + 1] == rows[..n] + [rows[n]];
  }

  /** One VM: its sole candidate if it has one, and whether it is puzzled. */
  method Choose(inv: Inventory, ms: seq<Mapping>, c: Id, pxRows: seq<Id>, takenPx: set<Id>, ghost takenCs: set<Id>,
                byPlace: map<(string, int), seq<Id>>, byVmid: map<int, seq<Id>>)
    returns (choice: Option<Pair>, puzzled: bool)
    requires c in inv.cs && c !in takenCs && Lists(pxRows, CurrentPx(inv))
    requires TakenSets(inv, ms, takenPx, takenCs)
    requires IndexedBy(byPlace, pxRows, |pxRows|, p => PlaceKey(inv, p))
    requires IndexedBy(byVmid, pxRows, |pxRows|, p => VmidKey(inv, p))
    ensures choice.Some? ==>
      && choice.value.cs == c && Sole(inv, ms, choice.value.px, c)
      && choice.value.px in inv.px && choice.value.source == SourceFor(inv, ms, choice.value.px, c)
    ensures choice.None? ==> forall p :: !Sole(inv, ms, p, c)
    ensures puzzled <==> Puzzled(inv, ms, c)
  {
    hide Open, Sole, Crowded, IndexedBy, PlaceKey, VmidKey, FreeCandidates, ModeOf, Durable, CsTaken;
    var cs := inv.cs[c];
    if !cs.current || !cs.external || cs.vmid.None? {
      forall p ensures !Sole(inv, ms, p, c) { SoleIsOpen(inv, ms, p, c); }
      return None, false;
    }
    var mode, list := CandidatesFor(inv, ms, cs, pxRows, takenPx, byPlace, byVmid);
    ListIsOpen(inv, ms, c, takenPx, takenCs, list);
    assert Distinct(list) by { FreeIsDistinct(inv, ms, cs, takenPx, list); }
    ListDecides(inv, ms, c, list);
    assert !CsTaken(inv, ms, c);
    if mode == Doubtful {
      forall p ensures !Sole(inv, ms, p, c) { DoubtfulIsClosed(inv, ms, p, c); }
      return None, true;
    }
    if |list| == 1 {
      assert list == [list[0]];
      SoleIsOpen(inv, ms, list[0], c);
      return Some(Pair(list[0], c, if mode == AtHost then ByHost else ByName)), false;
    }
    return None, |list| > 1;
  }

  lemma FreeIsDistinct(inv: Inventory, ms: seq<Mapping>, cs: Cs, taken: set<Id>, list: seq<Id>)
    requires FreeCandidates(inv, ms, cs, taken, list)
    ensures Distinct(list)
  {
  }

  lemma SoleIsOpen(inv: Inventory, ms: seq<Mapping>, p: Id, c: Id)
    ensures Sole(inv, ms, p, c) ==>
      && p in inv.px && c in inv.cs && Asks(inv.cs[c]) && !CsTaken(inv, ms, c) && !PxTaken(inv, ms, p)
      && !Durable(inv, ms, p, c)
  {
    hide Open;
    OpenAsks(inv, ms, p, c);
  }

  lemma DoubtfulIsClosed(inv: Inventory, ms: seq<Mapping>, p: Id, c: Id)
    requires c in inv.cs && ModeOf(ms, inv.cs[c]) == Doubtful
    ensures !Sole(inv, ms, p, c)
  {
    if p in inv.px {
      NothingFits(ms, inv.px[p], inv.cs[c]);
    }
  }

  method FindSole(inv: Inventory, ms: seq<Mapping>, pxRows: seq<Id>, csRows: seq<Id>,
                  takenPx: set<Id>, takenCs: set<Id>)
    returns (auto: seq<Pair>, ambiguous: nat, ghost puzzled: set<Id>)
    requires Lists(pxRows, CurrentPx(inv)) && Lists(csRows, CurrentCs(inv))
    requires TakenSets(inv, ms, takenPx, takenCs)
    ensures SolePairs(inv, ms, csRows, |csRows|, auto)
    ensures ambiguous == |puzzled|
    ensures forall c :: c in puzzled <==> c in csRows && Puzzled(inv, ms, c)
  {
    hide Sole, IndexedBy, SolePairs, Puzzled, CsTaken, SourceFor, PxTaken;
    var byPlace, byVmid := IndexPx(inv, pxRows);
    auto, ambiguous, puzzled := [], 0, {};
    SoleNone(inv, ms, csRows);
    for n := 0 to |csRows|
      invariant SolePairs(inv, ms, csRows, n, auto)
      invariant ambiguous == |puzzled|
      invariant forall c :: c in puzzled <==> c in csRows[..n] && Puzzled(inv, ms, c)
    {
      var c := csRows[n];
      assert csRows[..n + 1] == csRows[..n] + [c];
      assert c in CurrentCs(inv);
      assert c !in puzzled;
      if c in takenCs {
        TakenIsClosed(inv, ms, c);
        SoleNoMore(inv, ms, csRows, n, auto);
      } else {
        var choice, doubt := Choose(inv, ms, c, pxRows, takenPx, takenCs, byPlace, byVmid);
        if choice.Some? {
          SoleOneMore(inv, ms, csRows, n, auto, choice.value.px, choice.value.source);
          auto := auto + [choice.value];
        } else {
          SoleNoMore(inv, ms, csRows, n, auto);
        }
        if doubt {
          ambiguous := ambiguous + 1;
          puzzled := puzzled + {c};
        }
      }
    }
    assert csRows[..|csRows|] == csRows;
  }

  lemma SoleNone(inv: Inventory, ms: seq<Mapping>, rows: seq<Id>)
    ensures SolePairs(inv, ms, rows, 0, [])
  {
  }

  lemma TakenIsClosed(inv: Inventory, ms: seq<Mapping>, c: Id)
    requires CsTaken(inv, ms, c)
    ensures !Puzzled(inv, ms, c) && forall p :: !Sole(inv, ms, p, c)
  {
  }

  // ------------------------------------------------------- one VM for a guest

  /** The pairs of one guest: an entry of `candidates_by_px`. */
  function Rivals(auto: seq<Pair>, n: nat, p: Id): seq<Pair>
    requires n <= |auto|
  {
    if n == 0 then []
    else Rivals(auto, n - 1, p) + (if auto[n - 1].px == p then [auto[n - 1]] else [])
  }

  function RivalCs(auto: seq<Pair>, n: nat, p: Id): set<Id>
    requires n <= |auto|
  {
    set i | 0 <= i < n && auto[i].px == p :: auto[i].cs
  }

  ghost predicate DistinctCs(auto: seq<Pair>) {
    forall i, j :: 0 <= i < j < |auto| ==> auto[i].cs != auto[j].cs
  }

  lemma RivalCsOneMore(auto: seq<Pair>, n: nat, p: Id)
    requires 0 < n <= |auto| && DistinctCs(auto)
    ensures |RivalCs(auto, n, p)| == |RivalCs(auto, n - 1, p)| + (if auto[n - 1].px == p then 1 else 0)
  {
    var x := auto[n - 1];
    if x.px == p {
      assert RivalCs(auto, n, p) == RivalCs(auto, n - 1, p) + {x.cs};
      assert x.cs !in RivalCs(auto, n - 1, p);
    } else {
      assert RivalCs(auto, n, p) == RivalCs(auto, n - 1, p);
    }
  }

  lemma {:induction false} RivalsAre(auto: seq<Pair>, n: nat, p: Id)
    requires n <= |auto| && DistinctCs(auto)
    ensures |Rivals(auto, n, p)| == |RivalCs(auto, n, p)|
    ensures forall x :: x in Rivals(auto, n, p) <==> exists i :: 0 <= i < n && auto[i] == x && x.px == p
  {
    hide RivalCs, DistinctCs;
    if n > 0 {
      RivalsAre(auto, n - 1, p);
      RivalCsOneMore(auto, n, p);
    } else {
      assert RivalCs(auto, 0, p) == {} by { NoRivals(auto, p); }
    }
  }

  lemma NoRivals(auto: seq<Pair>, p: Id)
    ensures RivalCs(auto, 0, p) == {}
  {
  }

  /** The guest has one pair only, with this VM. */
  predicate Settled(auto: seq<Pair>, p: Id, c: Id) {
    |Rivals(auto, |auto|, p)| == 1 && Rivals(auto, |auto|, p)[0].cs == c
  }

  lemma SettledIsAuto(inv: Inventory, ms: seq<Mapping>, rows: seq<Id>, auto: seq<Pair>, p: Id, c: Id)
    requires Lists(rows, CurrentCs(inv)) && SolePairs(inv, ms, rows, |rows|, auto)
    ensures Settled(auto, p, c) <==> Auto(inv, ms, p, c)
    ensures Has(auto, p, c) <==> Sole(inv, ms, p, c)
    ensures DistinctCs(auto)
  {
    hide Open, SourceFor;
    assert rows[..|rows|] == rows;
    forall d ensures Has(auto, p, d) <==> Sole(inv, ms, p, d) {
      if Sole(inv, ms, p, d) {
        SoleIsOpen(inv, ms, p, d);
        assert d in CurrentCs(inv);
      }
    }
    var r := Rivals(auto, |auto|, p);
    RivalsAre(auto, |auto|, p);
    RivalsHave(auto, p);
    if |r| == 1 {
      assert r[0] in r;
      forall d | Has(auto, p, d) ensures d == r[0].cs {}
    } else if Auto(inv, ms, p, c) {
      assert Has(auto, p, c);
      assert |r| >= 2;
      assert r[0] in r && r[1] in r;
      RivalsDiffer(auto, |auto|, p);
    }
  }

  lemma RivalsHave(auto: seq<Pair>, p: Id)
    requires forall x :: x in Rivals(auto, |auto|, p) <==> exists i :: 0 <= i < |auto| && auto[i] == x && x.px == p
    ensures forall c :: Has(auto, p, c) <==> exists x :: x in Rivals(auto, |auto|, p) && x.cs == c
  {
    forall c | Has(auto, p, c) ensures exists x :: x in Rivals(auto, |auto|, p) && x.cs == c {
      var i :| 0 <= i < |auto| && auto[i].px == p && auto[i].cs == c;
      assert auto[i] in Rivals(auto, |auto|, p);
    }
  }

  lemma {:induction false} RivalsDiffer(auto: seq<Pair>, n: nat, p: Id)
    requires n <= |auto| && DistinctCs(auto)
    ensures DistinctCs(Rivals(auto, n, p))
  {
    if n > 0 {
      RivalsDiffer(auto, n - 1, p);
      RivalsAre(auto, n - 1, p);
      var before := Rivals(auto, n - 1, p);
      forall i | 0 <= i < |before| ensures before[i].cs != auto[n - 1].cs {
        assert before[i] in before;
      }
    }
  }

  // ----------------------------------------------------------- the whole pass

  /** The contested VMs among the guests dealt with so far. */
  ghost function ContestedCs(auto: seq<Pair>, done: set<Id>): set<Id> {
    set i | 0 <= i < |auto| && auto[i].px in done && |Rivals(auto, |auto|, auto[i].px)| != 1 :: auto[i].cs
  }

  lemma ContestedAdds(auto: seq<Pair>, done: set<Id>, p: Id)
    requires DistinctCs(auto) && p !in done && |Rivals(auto, |auto|, p)| != 1
    ensures ContestedCs(auto, done + {p}) == ContestedCs(auto, done) + RivalCs(auto, |auto|, p)
    ensures ContestedCs(auto, done) !! RivalCs(auto, |auto|, p)
  {
    hide Rivals;
  }

  lemma ContestedKeeps(auto: seq<Pair>, done: set<Id>, p: Id)
    requires |Rivals(auto, |auto|, p)| == 1
    ensures ContestedCs(auto, done + {p}) == ContestedCs(auto, done)
  {
    hide Rivals;
  }

  lemma ContestedOneMore(auto: seq<Pair>, done: set<Id>, p: Id)
    requires DistinctCs(auto) && p !in done
    ensures |ContestedCs(auto, done + {p})| == |ContestedCs(auto, done)|
      + (if |Rivals(auto, |auto|, p)| != 1 then |Rivals(auto, |auto|, p)| else 0)
  {
    hide Rivals, ContestedCs, RivalCs, DistinctCs;
    RivalsAre(auto, |auto|, p);
    if |Rivals(auto, |auto|, p)| != 1 {
      ContestedAdds(auto, done, p);
    } else {
      ContestedKeeps(auto, done, p);
    }
  }

  /** The links after the guests in `done` have been dealt with. */
  ghost predicate AutoLinks(auto: seq<Pair>, done: set<Id>, fwd0: map<Id, Id>, bwd0: map<Id, Id>,
                            fwd: map<Id, Id>, bwd: map<Id, Id>)
  {
    && (forall p :: p in fwd <==> p in fwd0 || (p in done && |Rivals(auto, |auto|, p)| == 1))
    && (forall p :: p in fwd0 ==> fwd[p] == fwd0[p])
    && (forall p :: p in fwd && p !in fwd0 ==> Settled(auto, p, fwd[p]))
    && (forall c :: c in bwd ==> c in bwd0 || exists p :: p in done && Settled(auto, p, c))
  }

  ghost predicate FreshPairs(inv: Inventory, ms: seq<Mapping>, auto: seq<Pair>, fwd0: map<Id, Id>, bwd0: map<Id, Id>) {
    && DistinctCs(auto)
    && forall i :: 0 <= i < |auto| ==>
         && auto[i].px in inv.px && auto[i].cs in inv.cs
         && auto[i].px !in fwd0 && auto[i].cs !in bwd0
         && auto[i].source == SourceFor(inv, ms, auto[i].px, auto[i].cs)
  }

  /** A guest with one pair only: the pair is a fresh one, and may be applied. */
  lemma OnlyRival(inv: Inventory, ms: seq<Mapping>, auto: seq<Pair>, done: set<Id>, p: Id,
                  fwd0: map<Id, Id>, bwd0: map<Id, Id>, fwd: map<Id, Id>, bwd: map<Id, Id>)
    requires FreshPairs(inv, ms, auto, fwd0, bwd0) && AutoLinks(auto, done, fwd0, bwd0, fwd, bwd)
    requires p !in done && |Rivals(auto, |auto|, p)| == 1
    ensures var x := Rivals(auto, |auto|, p)[0];
      && x.px == p && p in inv.px && x.cs in inv.cs && x.source == SourceFor(inv, ms, p, x.cs)
      && p !in fwd && x.cs !in bwd
      && AutoLinks(auto, done + {p}, fwd0, bwd0, fwd[p := x.cs], bwd[x.cs := p])
  {
    hide SourceFor, Rivals;
    RivalsAre(auto, |auto|, p);
    var x := Rivals(auto, |auto|, p)[0];
    assert x in Rivals(auto, |auto|, p);
    assert p !in fwd;
    assert Settled(auto, p, x.cs);
    var k :| 0 <= k < |auto| && auto[k] == x;
    forall q | Settled(auto, q, x.cs) ensures q == p {
      SettledOwner(auto, q, k);
    }
  }

  lemma SettledOwner(auto: seq<Pair>, q: Id, k: nat)
    requires DistinctCs(auto) && k < |auto| && Settled(auto, q, auto[k].cs)
    ensures auto[k].px == q
  {
    hide Rivals;
    RivalsAre(auto, |auto|, q);
    assert Rivals(auto, |auto|, q)[0] in Rivals(auto, |auto|, q);
  }

  lemma NoMoreRivals(auto: seq<Pair>, done: set<Id>, p: Id,
                     fwd0: map<Id, Id>, bwd0: map<Id, Id>, fwd: map<Id, Id>, bwd: map<Id, Id>)
    requires AutoLinks(auto, done, fwd0, bwd0, fwd, bwd) && |Rivals(auto, |auto|, p)| != 1
    ensures AutoLinks(auto, done + {p}, fwd0, bwd0, fwd, bwd)
  {
    hide Rivals;
    forall c | c in bwd && c !in bwd0 ensures exists q :: q in done + {p} && Settled(auto, q, c) {
      var q :| q in done && Settled(auto, q, c);
      assert q in done + {p};
    }
  }

  method ApplyAuto(engine: Engine, ghost was: Inventory, ghost ms: seq<Mapping>, auto: seq<Pair>,
                   ghost fwd0: map<Id, Id>, ghost bwd0: map<Id, Id>)
    returns (automatic: nat, ambiguous: nat, ghost fwd: map<Id, Id>, ghost bwd: map<Id, Id>, ghost all: set<Id>)
    requires Applied(was, ms, engine.Rows(), fwd0, bwd0) && FreshPairs(was, ms, auto, fwd0, bwd0)
    modifies engine
    ensures Applied(was, ms, engine.Rows(), fwd, bwd)
    ensures AutoLinks(auto, all, fwd0, bwd0, fwd, bwd)
    ensures forall i :: 0 <= i < |auto| ==> auto[i].px in all
    ensures |fwd| == |fwd0| + automatic && ambiguous == |ContestedCs(auto, all)|
  {
    hide Applied, AutoLinks, FreshPairs, SourceFor, Rivals, ContestedCs;
    var todo := set i | 0 <= i < |auto| :: auto[i].px;
    automatic, ambiguous, fwd, bwd, all := 0, 0, fwd0, bwd0, {};
    NothingContested(auto, fwd0, bwd0);
    while todo != {}
      invariant Applied(was, ms, engine.Rows(), fwd, bwd) && AutoLinks(auto, all, fwd0, bwd0, fwd, bwd)
      invariant all !! todo && forall i :: 0 <= i < |auto| ==> auto[i].px in all + todo
      invariant |fwd| == |fwd0| + automatic && ambiguous == |ContestedCs(auto, all)|
      decreases todo
    {
      var p :| p in todo;
      todo := todo - {p};
      var rivals := Rivals(auto, |auto|, p);
      assert DistinctCs(auto) by { FreshAreDistinct(was, ms, auto, fwd0, bwd0); }
      ContestedOneMore(auto, all, p);
      if |rivals| != 1 {
        NoMoreRivals(auto, all, p, fwd0, bwd0, fwd, bwd);
        ambiguous := ambiguous + |rivals|;
      } else {
        OnlyRival(was, ms, auto, all, p, fwd0, bwd0, fwd, bwd);
        OneMoreKey(fwd, p, rivals[0].cs);
        engine.ApplyMatch(was, ms, fwd, bwd, p, rivals[0].cs, rivals[0].source);
        fwd, bwd := fwd[p := rivals[0].cs], bwd[rivals[0].cs := p];
        automatic := automatic + 1;
      }
      all := all + {p};
    }
  }

  lemma FreshAreDistinct(inv: Inventory, ms: seq<Mapping>, auto: seq<Pair>, fwd0: map<Id, Id>, bwd0: map<Id, Id>)
    requires FreshPairs(inv, ms, auto, fwd0, bwd0)
    ensures DistinctCs(auto)
  {
  }

  lemma NothingContested(auto: seq<Pair>, fwd0: map<Id, Id>, bwd0: map<Id, Id>)
    ensures ContestedCs(auto, {}) == {} && AutoLinks(auto, {}, fwd0, bwd0, fwd0, bwd0)
  {
  }

  ghost function LinkedPx(inv: Inventory, ms: seq<Mapping>): set<Id> {
    set p | p in inv.px && exists c :: Linked(inv, ms, p, c)
  }

  ghost function LinkedCs(inv: Inventory, ms: seq<Mapping>): set<Id> {
    set c | c in inv.cs && exists p :: Linked(inv, ms, p, c)
  }

  ghost function Guests(inv: Inventory): set<Id> {
    set p | p in inv.px && inv.px[p].current && inv.px[p].qemu && !inv.px[p].template
  }

  ghost function ExternalVms(inv: Inventory): set<Id> {
    set c | c in inv.cs && inv.cs[c].current && inv.cs[c].external
  }

  ghost function AmbiguousCs(inv: Inventory, ms: seq<Mapping>): set<Id> {
    set c | c in inv.cs && (Puzzled(inv, ms, c) || Contested(inv, ms, c))
  }

  ghost function ManualPx(inv: Inventory, ms: seq<Mapping>): set<Id> {
    set p | p in inv.px && inv.px[p].source == Manual && PxTaken(inv, ms, p)
  }

  /** `fwd` and `bwd` are exactly the links. */
  ghost predicate AllLinks(inv: Inventory, ms: seq<Mapping>, fwd: map<Id, Id>, bwd: map<Id, Id>) {
    && (forall p, c :: Linked(inv, ms, p, c) <==> p in fwd && fwd[p] == c)
    && (forall p, c :: Linked(inv, ms, p, c) <==> c in bwd && bwd[c] == p)
  }

  lemma AppliedAll(inv: Inventory, ms: seq<Mapping>, now: Inventory, fwd: map<Id, Id>, bwd: map<Id, Id>)
    requires Applied(inv, ms, now, fwd, bwd) && AllLinks(inv, ms, fwd, bwd)
    ensures Relinked(inv, ms, now)
    ensures fwd.Keys == LinkedPx(inv, ms) && bwd.Keys == LinkedCs(inv, ms)
    ensures forall p :: p in inv.px ==> p in now.px && (now.px[p].matched <==> p in fwd)
    ensures forall c :: c in inv.cs ==> c in now.cs && (now.cs[c].matched <==> c in bwd)
  {
    hide Linked, SourceFor;
    assert forall p :: p in inv.px ==> p in now.px.Keys;
    assert forall c :: c in inv.cs ==> c in now.cs.Keys;
    forall p, c | Linked(inv, ms, p, c)
      ensures p in inv.px && c in inv.cs
        && now.px[p] == LinkPx(inv.px[p], c, SourceFor(inv, ms, p, c))
        && now.cs[c] == LinkCs(inv.cs[c], p, SourceFor(inv, ms, p, c))
    {
      assert now.px[p] == PxUnder(inv, ms, fwd, p) && now.cs[c] == CsUnder(inv, ms, bwd, c);
    }
    forall p | p in fwd ensures p in LinkedPx(inv, ms) { assert Linked(inv, ms, p, fwd[p]); }
    forall c | c in bwd ensures c in LinkedCs(inv, ms) { assert Linked(inv, ms, bwd[c], c); }
    forall p | p in inv.px && !(exists c :: Linked(inv, ms, p, c)) ensures now.px[p] == ClearPx(inv.px[p]) {
      assert now.px[p] == PxUnder(inv, ms, fwd, p);
    }
    forall c | c in inv.cs && !(exists p :: Linked(inv, ms, p, c)) ensures now.cs[c] == ClearCs(inv.cs[c]) {
      assert now.cs[c] == CsUnder(inv, ms, bwd, c);
    }
  }

  /** The durable pairs and the settled pairs together are all the links. */
  lemma TogetherAllLinks(inv: Inventory, ms: seq<Mapping>, rows: seq<Id>, auto: seq<Pair>,
                         fwd0: map<Id, Id>, bwd0: map<Id, Id>, done: set<Id>, fwd: map<Id, Id>, bwd: map<Id, Id>)
    requires forall p, c :: Durable(inv, ms, p, c) <==> p in fwd0 && fwd0[p] == c
    requires forall p, c :: Durable(inv, ms, p, c) <==> c in bwd0 && bwd0[c] == p
    requires Lists(rows, CurrentCs(inv)) && SolePairs(inv, ms, rows, |rows|, auto)
    requires AutoLinks(auto, done, fwd0, bwd0, fwd, bwd) && forall i :: 0 <= i < |auto| ==> auto[i].px in done
    requires Paired(inv, fwd, bwd)
    ensures AllLinks(inv, ms, fwd, bwd)
  {
    hide SolePairs, Durable, Rivals, Auto, Linked, AutoLinks, Paired;
    forall p, c ensures Linked(inv, ms, p, c) <==> p in fwd && fwd[p] == c {
      LinkedIs(inv, ms, p, c);
      AutoIsLinked(inv, ms, rows, auto, fwd0, bwd0, done, fwd, bwd, p, c);
    }
    PairedBothWays(inv, fwd, bwd);
  }

  lemma PairedBothWays(inv: Inventory, fwd: map<Id, Id>, bwd: map<Id, Id>)
    requires Paired(inv, fwd, bwd)
    ensures forall p, c :: (p in fwd && fwd[p] == c) <==> (c in bwd && bwd[c] == p)
  {
  }

  lemma AutoIsLinked(inv: Inventory, ms: seq<Mapping>, rows: seq<Id>, auto: seq<Pair>,
                     fwd0: map<Id, Id>, bwd0: map<Id, Id>, done: set<Id>, fwd: map<Id, Id>, bwd: map<Id, Id>,
                     p: Id, c: Id)
    requires forall p, c :: Durable(inv, ms, p, c) <==> p in fwd0 && fwd0[p] == c
    requires Lists(rows, CurrentCs(inv)) && SolePairs(inv, ms, rows, |rows|, auto)
    requires AutoLinks(auto, done, fwd0, bwd0, fwd, bwd) && forall i :: 0 <= i < |auto| ==> auto[i].px in done
    ensures (p in fwd && fwd[p] == c) <==> Durable(inv, ms, p, c) || Auto(inv, ms, p, c)
  {
    hide SolePairs, Durable, Rivals, Auto;
    SettledIsAuto(inv, ms, rows, auto, p, c);
    AutoIsOpen(inv, ms, p, c);
    if Auto(inv, ms, p, c) {
      HasIsDone(auto, p, c, done);
      DurableIfLinked(inv, ms, fwd0, p);
      assert p in fwd;
    } else if p in fwd && p in fwd0 {
      assert Durable(inv, ms, p, fwd0[p]);
    }
  }

  lemma DurableIfLinked(inv: Inventory, ms: seq<Mapping>, fwd: map<Id, Id>, p: Id)
    requires forall p, c :: Durable(inv, ms, p, c) <==> p in fwd && fwd[p] == c
    ensures p in fwd ==> exists d :: Durable(inv, ms, p, d)
  {
    hide Durable;
    if p in fwd {
      assert Durable(inv, ms, p, fwd[p]);
    }
  }

  lemma AutoIsOpen(inv: Inventory, ms: seq<Mapping>, p: Id, c: Id)
    ensures Auto(inv, ms, p, c) ==> Sole(inv, ms, p, c) && forall d :: !Durable(inv, ms, p, d)
  {
    SoleIsOpen(inv, ms, p, c);
  }

  lemma HasIsDone(auto: seq<Pair>, p: Id, c: Id, done: set<Id>)
    requires Has(auto, p, c) && forall i :: 0 <= i < |auto| ==> auto[i].px in done
    ensures p in done
  {
  }

  /** Every eligible row is matched or counted as unmatched. */
  lemma RestIsUnmatched(linked: set<Id>, eligible: set<Id>)
    requires linked <= eligible
    ensures |linked| + |eligible - linked| == |eligible|
  {
    assert linked + (eligible - linked) == eligible;
  }

  /** The unmatched ones among the first `n` rows. */
  ghost function Counted(rows: seq<Id>, n: nat, wanted: set<Id>): set<Id>
    requires n <= |rows|
  {
    set p | p in rows[..n] && p in wanted
  }

  lemma CountOneMore(rows: seq<Id>, n: nat, wanted: set<Id>)
    requires n < |rows| && Distinct(rows)
    ensures |Counted(rows, n + 1, wanted)| == |Counted(rows, n, wanted)| + (if rows[n] in wanted then 1 else 0)
  {
    assert rows[..n + 1] == rows[..n] + [rows[n]] && rows[n] !in rows[..n];
    if rows[n] in wanted {
      assert Counted(rows, n + 1, wanted) == Counted(rows, n, wanted) + {rows[n]};
    } else {
      assert Counted(rows, n + 1, wanted) == Counted(rows, n, wanted);
    }
  }

  lemma CountAll(rows: seq<Id>, wanted: set<Id>)
    requires forall p :: p in wanted ==> p in rows
    ensures Counted(rows, |rows|, wanted) == wanted && Counted(rows, 0, wanted) == {}
  {
    assert rows[..|rows|] == rows;
  }

  method CountUnmatchedPx(rows: seq<Id>, px: map<Id, Px>, ghost linked: set<Id>) returns (unmatched: nat)
    requires Distinct(rows) && forall p :: p in rows <==> p in px && px[p].current
    requires forall p :: p in px ==> (px[p].matched <==> p in linked)
    ensures unmatched == |Guests(Inventory(px, map[])) - linked|
  {
    hide Counted, Distinct;
    unmatched := 0;
    ghost var wanted := Guests(Inventory(px, map[])) - linked;
    CountAll(rows, wanted);
    for n := 0 to |rows|
      invariant unmatched == |Counted(rows, n, wanted)|
    {
      var p := rows[n];
      assert p in rows;
      CountOneMore(rows, n, wanted);
      if px[p].qemu && !px[p].template && !px[p].matched {
        unmatched := unmatched + 1;
      }
    }
  }

  method CountUnmatchedCs(rows: seq<Id>, cs: map<Id, Cs>, ghost linked: set<Id>) returns (unmatched: nat)
    requires Distinct(rows) && forall c :: c in rows <==> c in cs && cs[c].current
    requires forall c :: c in cs ==> (cs[c].matched <==> c in linked)
    ensures unmatched == |ExternalVms(Inventory(map[], cs)) - linked|
  {
    hide Counted, Distinct;
    unmatched := 0;
    ghost var wanted := ExternalVms(Inventory(map[], cs)) - linked;
    CountAll(rows, wanted);
    for n := 0 to |rows|
      invariant unmatched == |Counted(rows, n, wanted)|
    {
      var c := rows[n];
      assert c in rows;
      CountOneMore(rows, n, wanted);
      if cs[c].external && !cs[c].matched {
        unmatched := unmatched + 1;
      }
    }
  }

  ghost predicate DurableLinks(inv: Inventory, ms: seq<Mapping>, fwd: map<Id, Id>, bwd: map<Id, Id>) {
    && (forall p, c :: Durable(inv, ms, p, c) <==> p in fwd && fwd[p] == c)
    && (forall p, c :: Durable(inv, ms, p, c) <==> c in bwd && bwd[c] == p)
  }

  lemma PairsAreDurable(inv: Inventory, ms: seq<Mapping>, pairs: seq<Pair>, fwd: map<Id, Id>, bwd: map<Id, Id>)
    requires DurablePairs(inv, ms, pairs) && LinksOf(pairs, |pairs|, fwd, bwd) && Paired(inv, fwd, bwd)
    requires forall p, c :: Durable(inv, ms, p, c) ==>
      exists i :: 0 <= i < |pairs| && pairs[i].px == p && pairs[i].cs == c
    ensures DurableLinks(inv, ms, fwd, bwd)
  {
    hide Durable, Paired;
    forall p, c ensures Durable(inv, ms, p, c) <==> p in fwd && fwd[p] == c {
      if p in fwd {
        var i :| 0 <= i < |pairs| && pairs[i].px == p;
        assert Durable(inv, ms, pairs[i].px, pairs[i].cs);
      }
    }
    PairedBothWays(inv, fwd, bwd);
  }

  lemma TakenByDurable(inv: Inventory, ms: seq<Mapping>, fwd: map<Id, Id>, bwd: map<Id, Id>)
    requires DurableLinks(inv, ms, fwd, bwd)
    ensures TakenSets(inv, ms, fwd.Keys, bwd.Keys)
  {
    hide Durable;
    forall p ensures p in fwd.Keys <==> PxTaken(inv, ms, p) {
      if p in fwd { assert Durable(inv, ms, p, fwd[p]); }
    }
    forall c ensures c in bwd.Keys <==> CsTaken(inv, ms, c) {
      if c in bwd { assert Durable(inv, ms, bwd[c], c); }
    }
  }

  lemma SoleAreFresh(inv: Inventory, ms: seq<Mapping>, rows: seq<Id>, auto: seq<Pair>,
                     fwd: map<Id, Id>, bwd: map<Id, Id>)
    requires SolePairs(inv, ms, rows, |rows|, auto) && TakenSets(inv, ms, fwd.Keys, bwd.Keys)
    ensures FreshPairs(inv, ms, auto, fwd, bwd)
  {
    hide Sole, SourceFor, PxTaken, CsTaken;
    forall i | 0 <= i < |auto| ensures auto[i].px !in fwd && auto[i].cs !in bwd {
      SoleIsOpen(inv, ms, auto[i].px, auto[i].cs);
      assert auto[i].px !in fwd.Keys && auto[i].cs !in bwd.Keys;
    }
  }

  lemma ContestedAre(inv: Inventory, ms: seq<Mapping>, rows: seq<Id>, auto: seq<Pair>, all: set<Id>, c: Id)
    requires Lists(rows, CurrentCs(inv)) && SolePairs(inv, ms, rows, |rows|, auto)
    requires forall i :: 0 <= i < |auto| ==> auto[i].px in all
    ensures c in ContestedCs(auto, all) <==> Contested(inv, ms, c)
  {
    hide SolePairs, Sole, Auto, Rivals;
    forall p ensures Has(auto, p, c) <==> Sole(inv, ms, p, c) {
      SettledIsAuto(inv, ms, rows, auto, p, c);
    }
    assert DistinctCs(auto) by { SettledIsAuto(inv, ms, rows, auto, 0, 0); }
    forall i | 0 <= i < |auto| && auto[i].cs == c
      ensures Auto(inv, ms, auto[i].px, c) <==> |Rivals(auto, |auto|, auto[i].px)| == 1
    {
      OwnRival(auto, i);
      SettledIsAuto(inv, ms, rows, auto, auto[i].px, c);
    }
    if Contested(inv, ms, c) {
      var p :| Sole(inv, ms, p, c) && !Auto(inv, ms, p, c);
      assert Has(auto, p, c);
      var i :| 0 <= i < |auto| && auto[i].px == p && auto[i].cs == c;
      assert auto[i].cs in ContestedCs(auto, all);
    }
    if c in ContestedCs(auto, all) {
      var i :| 0 <= i < |auto| && auto[i].px in all && |Rivals(auto, |auto|, auto[i].px)| != 1 && auto[i].cs == c;
      assert Has(auto, auto[i].px, c);
    }
  }

  lemma OwnRival(auto: seq<Pair>, i: nat)
    requires DistinctCs(auto) && i < |auto|
    ensures Settled(auto, auto[i].px, auto[i].cs) <==> |Rivals(auto, |auto|, auto[i].px)| == 1
  {
    hide Rivals;
    RivalsAre(auto, |auto|, auto[i].px);
    assert auto[i] in Rivals(auto, |auto|, auto[i].px);
  }

  lemma AmbiguousSplits(inv: Inventory, ms: seq<Mapping>, rows: seq<Id>, auto: seq<Pair>,
                        all: set<Id>, puzzled: set<Id>)
    requires Lists(rows, CurrentCs(inv)) && SolePairs(inv, ms, rows, |rows|, auto)
    requires forall i :: 0 <= i < |auto| ==> auto[i].px in all
    requires forall c :: c in puzzled <==> c in rows && Puzzled(inv, ms, c)
    ensures |AmbiguousCs(inv, ms)| == |puzzled| + |ContestedCs(auto, all)|
  {
    hide SolePairs, ContestedCs;
    forall c ensures c in ContestedCs(auto, all) <==> Contested(inv, ms, c) {
      ContestedAre(inv, ms, rows, auto, all, c);
    }
    forall c ensures !(Puzzled(inv, ms, c) && Contested(inv, ms, c))
        && (Puzzled(inv, ms, c) || Contested(inv, ms, c) ==> c in inv.cs)
        && (Puzzled(inv, ms, c) ==> c in CurrentCs(inv)) {
      PuzzledOrContested(inv, ms, c);
    }
    hide Puzzled, Contested;
    assert AmbiguousCs(inv, ms) == puzzled + ContestedCs(auto, all);
    assert puzzled !! ContestedCs(auto, all);
  }

  lemma PuzzledOrContested(inv: Inventory, ms: seq<Mapping>, c: Id)
    ensures !(Puzzled(inv, ms, c) && Contested(inv, ms, c))
    ensures Puzzled(inv, ms, c) || Contested(inv, ms, c) ==> c in inv.cs
    ensures Puzzled(inv, ms, c) ==> c in CurrentCs(inv)
  {
    hide Open, CsTaken, ModeOf;
    if Contested(inv, ms, c) {
      var p :| Sole(inv, ms, p, c) && !Auto(inv, ms, p, c);
      SoleIsOpen(inv, ms, p, c);
      if ModeOf(ms, inv.cs[c]) == Doubtful {
        DoubtfulIsClosed(inv, ms, p, c);
      }
    }
  }

  lemma ManualAre(inv: Inventory, ms: seq<Mapping>, fwd: map<Id, Id>, bwd: map<Id, Id>)
    requires TakenSets(inv, ms, fwd.Keys, bwd.Keys)
    ensures ByHand(inv, fwd) == ManualPx(inv, ms)
  {
    hide PxTaken, CsTaken;
    assert forall p :: p in fwd <==> p in fwd.Keys;
  }

  lemma {:induction false} ImageCount(a: set<Id>, b: set<Id>, f: map<Id, Id>)
    requires forall p :: p in a ==> p in f && f[p] in b
    requires forall p, q :: p in a && q in a && f[p] == f[q] ==> p == q
    requires forall c :: c in b ==> exists p :: p in a && f[p] == c
    ensures |a| == |b|
    decreases a
  {
    if p :| p in a {
      ImageCount(a - {p}, b - {f[p]}, f);
    } else {
      assert b == {};
    }
  }

  lemma SameCount(fwd: map<Id, Id>, bwd: map<Id, Id>)
    requires forall p, c :: (p in fwd && fwd[p] == c) <==> (c in bwd && bwd[c] == p)
    ensures |fwd.Keys| == |bwd.Keys|
  {
    forall c | c in bwd.Keys ensures exists p :: p in fwd.Keys && fwd[p] == c {
      assert bwd[c] in fwd.Keys && fwd[bwd[c]] == c;
    }
    forall p, q | p in fwd.Keys && q in fwd.Keys && fwd[p] == fwd[q] ensures p == q {
      assert bwd[fwd[p]] == p && bwd[fwd[q]] == q;
    }
    forall p | p in fwd.Keys ensures fwd[p] in bwd.Keys {}
    ImageCount(fwd.Keys, bwd.Keys, fwd);
  }

  /** What the first half of the pass leaves: the durable links, applied and counted. */
  ghost predicate DurableDone(inv: Inventory, ms: seq<Mapping>, now: Inventory, fwd: map<Id, Id>, bwd: map<Id, Id>,
                              takenPx: set<Id>, takenCs: set<Id>)
  {
    && Applied(inv, ms, now, fwd, bwd) && DurableLinks(inv, ms, fwd, bwd)
    && takenPx == fwd.Keys && takenCs == bwd.Keys
  }

  method LinkDurable(engine: Engine, ms: seq<Mapping>, pxRows: seq<Id>)
    returns (manual: nat, byHost: nat, claimedPx: set<Id>, claimedCs: set<Id>,
             ghost fwd: map<Id, Id>, ghost bwd: map<Id, Id>)
    requires Lists(pxRows, CurrentPx(engine.Rows()))
    modifies engine
    ensures DurableDone(old(engine.Rows()), ms, engine.Rows(), fwd, bwd, claimedPx, claimedCs)
    ensures manual + byHost == |fwd| && manual == |ManualPx(old(engine.Rows()), ms)|
  {
    hide Applied, Durable, DurablePairs, LinksOf, TakenSets, DurableLinks, ManualPx, ByHand, Paired, Lists;
    var inv := engine.Rows();
    var pairs := FindDurable(inv, ms, pxRows);
    engine.Reset(ms);
    manual, byHost, fwd, bwd := engine.ApplyDurable(inv, ms, pairs);
    AppliedIsPaired(inv, ms, engine.Rows(), fwd, bwd);
    PairsAreDurable(inv, ms, pairs, fwd, bwd);
    TakenByDurable(inv, ms, fwd, bwd);
    ManualAre(inv, ms, fwd, bwd);
    PairedBothWays(inv, fwd, bwd);
    ClaimedKeys(pairs, fwd, bwd);
    claimedPx := set i | 0 <= i < |pairs| :: pairs[i].px;
    claimedCs := set i | 0 <= i < |pairs| :: pairs[i].cs;
  }

  /** The second half: the pairs that choose each other, among the rows not yet claimed.
      `inv` are the rows before the first half, which touches no column read here. */
  method LinkAuto(engine: Engine, inv: Inventory, ms: seq<Mapping>, pxRows: seq<Id>, csRows: seq<Id>,
                  claimedPx: set<Id>, claimedCs: set<Id>, ghost fwd0: map<Id, Id>, ghost bwd0: map<Id, Id>)
    returns (found: nat, ambiguous: nat, ghost fwd: map<Id, Id>, ghost bwd: map<Id, Id>)
    requires Lists(pxRows, CurrentPx(inv)) && Lists(csRows, CurrentCs(inv))
    requires DurableDone(inv, ms, engine.Rows(), fwd0, bwd0, claimedPx, claimedCs)
    modifies engine
    ensures Applied(inv, ms, engine.Rows(), fwd, bwd) && AllLinks(inv, ms, fwd, bwd)
    ensures |fwd| == |fwd0| + found && ambiguous == |AmbiguousCs(inv, ms)|
  {
    hide Applied, Durable, SolePairs, AutoLinks, FreshPairs, TakenSets, DurableLinks,
         Puzzled, AmbiguousCs, ContestedCs, AllLinks, Paired, Lists;
    TakenByDurable(inv, ms, fwd0, bwd0);
    var auto, puzzles;
    ghost var puzzled;
    auto, puzzles, puzzled := FindSole(inv, ms, pxRows, csRows, claimedPx, claimedCs);
    SoleAreFresh(inv, ms, csRows, auto, fwd0, bwd0);
    var contested;
    ghost var all;
    found, contested, fwd, bwd, all := ApplyAuto(engine, inv, ms, auto, fwd0, bwd0);
    AmbiguousSplits(inv, ms, csRows, auto, all, puzzled);
    AppliedIsPaired(inv, ms, engine.Rows(), fwd, bwd);
    DurableBothWays(inv, ms, fwd0, bwd0);
    TogetherAllLinks(inv, ms, csRows, auto, fwd0, bwd0, all, fwd, bwd);
    ambiguous := puzzles + contested;
  }

  lemma EligibleLinks(inv: Inventory, ms: seq<Mapping>)
    ensures LinkedPx(inv, ms) <= Guests(inv) && LinkedCs(inv, ms) <= ExternalVms(inv)
  {
    forall p, c | Linked(inv, ms, p, c) ensures p in Guests(inv) && c in ExternalVms(inv) {
      LinksAreOneToOne(inv, ms, p, c);
    }
  }

  /** Linking changes nothing that the counters of unmatched rows look at. */
  lemma SameEligible(was: Inventory, ms: seq<Mapping>, now: Inventory)
    requires Relinked(was, ms, now)
    ensures Guests(Inventory(now.px, map[])) == Guests(was) && ExternalVms(Inventory(map[], now.cs)) == ExternalVms(was)
    ensures CurrentPx(now) == CurrentPx(was) && CurrentCs(now) == CurrentCs(was)
  {
    hide Linked;
    forall p ensures p in now.px <==> p in was.px { assert p in now.px.Keys <==> p in was.px.Keys; }
    forall c ensures c in now.cs <==> c in was.cs { assert c in now.cs.Keys <==> c in was.cs.Keys; }
    forall p | p in was.px ensures ClearPx(now.px[p]) == ClearPx(was.px[p]) { PxButLinks(was, ms, now, p); }
    forall c | c in was.cs ensures ClearCs(now.cs[c]) == ClearCs(was.cs[c]) { CsButLinks(was, ms, now, c); }
    hide Relinked;
    assert forall p :: p in was.px ==> now.px[p].current == was.px[p].current by { ClearKeeps(was, now); }
    ClearKeeps(was, now);
  }

  lemma ClearKeeps(was: Inventory, now: Inventory)
    requires forall p :: p in was.px ==> p in now.px && ClearPx(now.px[p]) == ClearPx(was.px[p])
    requires forall c :: c in was.cs ==> c in now.cs && ClearCs(now.cs[c]) == ClearCs(was.cs[c])
    ensures forall p :: p in was.px ==>
      && now.px[p].current == was.px[p].current && now.px[p].qemu == was.px[p].qemu
      && now.px[p].template == was.px[p].template
    ensures forall c :: c in was.cs ==>
      now.cs[c].current == was.cs[c].current && now.cs[c].external == was.cs[c].external
  {
    forall p | p in was.px
      ensures now.px[p].current == was.px[p].current && now.px[p].qemu == was.px[p].qemu
        && now.px[p].template == was.px[p].template
    {
      assert ClearPx(now.px[p]).current == ClearPx(was.px[p]).current;
    }
    forall c | c in was.cs
      ensures now.cs[c].current == was.cs[c].current && now.cs[c].external == was.cs[c].external
    {
      assert ClearCs(now.cs[c]).current == ClearCs(was.cs[c]).current;
    }
  }

  lemma PxButLinks(was: Inventory, ms: seq<Mapping>, now: Inventory, p: Id)
    requires Relinked(was, ms, now) && p in was.px
    ensures p in now.px.Keys && ClearPx(now.px[p]) == ClearPx(was.px[p])
  {
    hide Linked;
    if c :| Linked(was, ms, p, c) {
    }
  }

  lemma CsButLinks(was: Inventory, ms: seq<Mapping>, now: Inventory, c: Id)
    requires Relinked(was, ms, now) && c in was.cs
    ensures c in now.cs.Keys && ClearCs(now.cs[c]) == ClearCs(was.cs[c])
  {
    hide Linked;
    if p :| Linked(was, ms, p, c) {
    }
  }

  /** `match_vms`. The rows may come in any order: the links left behind are exactly those
      of the relation, and every counter is the size of a set that order cannot change. */
  method MatchAll(engine: Engine, ms: seq<Mapping>, pxRows: seq<Id>, csRows: seq<Id>) returns (stats: Stats)
    requires Lists(pxRows, CurrentPx(engine.Rows())) && Lists(csRows, CurrentCs(engine.Rows()))
    modifies engine
    ensures Relinked(old(engine.Rows()), ms, engine.Rows())
    ensures stats.matched == stats.manual + stats.automatic
    ensures stats.matched == |LinkedPx(old(engine.Rows()), ms)| == |LinkedCs(old(engine.Rows()), ms)|
    ensures stats.manual == |ManualPx(old(engine.Rows()), ms)|
    ensures stats.matched + stats.unmatchedPx == |Guests(old(engine.Rows()))|
    ensures stats.matched + stats.unmatchedCs == |ExternalVms(old(engine.Rows()))|
    ensures stats.ambiguous == |AmbiguousCs(old(engine.Rows()), ms)|
  {
    hide Applied, Relinked, AllLinks, DurableDone, LinkedPx, LinkedCs, ManualPx, AmbiguousCs, Guests, ExternalVms,
         CurrentPx, CurrentCs;
    var inv := engine.Rows();
    var manual, byHost, claimedPx, claimedCs;
    ghost var fwd0, bwd0;
    manual, byHost, claimedPx, claimedCs, fwd0, bwd0 := LinkDurable(engine, ms, pxRows);
    var found, ambiguous;
    ghost var fwd, bwd;
    found, ambiguous, fwd, bwd := LinkAuto(engine, inv, ms, pxRows, csRows, claimedPx, claimedCs, fwd0, bwd0);
    AppliedAll(inv, ms, engine.Rows(), fwd, bwd);
    LinkCount(inv, ms, fwd, bwd);
    SameEligible(inv, ms, engine.Rows());
    EligibleLinks(inv, ms);
    RestIsUnmatched(LinkedPx(inv, ms), Guests(inv));
    RestIsUnmatched(LinkedCs(inv, ms), ExternalVms(inv));
    RowsAreCurrent(engine.Rows());
    MatchedAreLinked(inv, ms, engine.Rows());
    var unmatchedPx := CountUnmatchedPx(pxRows, engine.px, LinkedPx(inv, ms));
    var unmatchedCs := CountUnmatchedCs(csRows, engine.cs, LinkedCs(inv, ms));
    stats := Stats(manual + byHost + found, manual, byHost + found, unmatchedPx, unmatchedCs, ambiguous);
  }

  lemma MatchedAreLinked(was: Inventory, ms: seq<Mapping>, now: Inventory)
    requires Relinked(was, ms, now)
    ensures forall p :: p in now.px ==> (now.px[p].matched <==> p in LinkedPx(was, ms))
    ensures forall c :: c in now.cs ==> (now.cs[c].matched <==> c in LinkedCs(was, ms))
  {
    hide Linked;
    forall p | p in now.px.Keys ensures now.px[p].matched <==> p in LinkedPx(was, ms) {
      if c :| Linked(was, ms, p, c) {
        assert p in LinkedPx(was, ms);
      }
    }
    forall c | c in now.cs.Keys ensures now.cs[c].matched <==> c in LinkedCs(was, ms) {
      if p :| Linked(was, ms, p, c) {
        assert c in LinkedCs(was, ms);
      }
    }
  }

  lemma RowsAreCurrent(inv: Inventory)
    ensures forall p :: p in CurrentPx(inv) <==> p in inv.px && inv.px[p].current
    ensures forall c :: c in CurrentCs(inv) <==> c in inv.cs && inv.cs[c].current
  {
  }

  lemma LinkCount(inv: Inventory, ms: seq<Mapping>, fwd: map<Id, Id>, bwd: map<Id, Id>)
    requires AllLinks(inv, ms, fwd, bwd) && fwd.Keys == LinkedPx(inv, ms) && bwd.Keys == LinkedCs(inv, ms)
    ensures |fwd| == |LinkedPx(inv, ms)| == |LinkedCs(inv, ms)|
  {
    hide Linked;
    forall p, c ensures (p in fwd && fwd[p] == c) <==> (c in bwd && bwd[c] == p) {
      assert Linked(inv, ms, p, c) <==> (p in fwd && fwd[p] == c);
    }
    SameCount(fwd, bwd);
    assert |fwd| == |fwd.Keys|;
  }

  lemma AppliedIsPaired(inv: Inventory, ms: seq<Mapping>, now: Inventory, fwd: map<Id, Id>, bwd: map<Id, Id>)
    requires Applied(inv, ms, now, fwd, bwd)
    ensures Paired(inv, fwd, bwd)
  {
  }

  lemma DurableBothWays(inv: Inventory, ms: seq<Mapping>, fwd: map<Id, Id>, bwd: map<Id, Id>)
    requires DurableLinks(inv, ms, fwd, bwd)
    ensures forall p, c :: Durable(inv, ms, p, c) <==> p in fwd && fwd[p] == c
    ensures forall p, c :: Durable(inv, ms, p, c) <==> c in bwd && bwd[c] == p
  {
    hide Durable;
  }

  lemma ClaimedKeys(pairs: seq<Pair>, fwd: map<Id, Id>, bwd: map<Id, Id>)
    requires LinksOf(pairs, |pairs|, fwd, bwd)
    requires forall p, c :: (p in fwd && fwd[p] == c) <==> (c in bwd && bwd[c] == p)
    ensures (set i | 0 <= i < |pairs| :: pairs[i].px) == fwd.Keys
    ensures (set i | 0 <= i < |pairs| :: pairs[i].cs) == bwd.Keys
  {
    forall i | 0 <= i < |pairs| ensures pairs[i].cs in bwd {
      assert pairs[i].px in fwd && fwd[pairs[i].px] == pairs[i].cs;
    }
  }
}
