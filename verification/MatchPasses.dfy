/** The passes of `match_vms` over dictionaries and claimed sets, in any row order. */
module MatchPasses {
  import opened Model
  import opened HostMapping
  import opened Matcher
  import opened Sorting

  datatype Pair = Pair(px: Id, cs: Id, source: Source)

  datatype Stats = Stats(
    matched: nat, manual: nat, automatic: nat, unmatchedPx: nat, unmatchedCs: nat, ambiguous: nat)

  /** The rows a query returns: all of them, once each, in some order. */
  ghost predicate Lists(rows: seq<Id>, keys: set<Id>) {
    (forall k :: k in rows <==> k in keys) && Distinct(rows)
  }

  ghost function CurrentPx(inv: Inventory): set<Id> {
    set p | p in inv.px && inv.px[p].current
  }

  ghost function CurrentCs(inv: Inventory): set<Id> {
    set c | c in inv.cs && inv.cs[c].current
  }

  // -------------------------------------------------------- the durable links

  ghost predicate DistinctPairs(pairs: seq<Pair>) {
    forall i, j :: 0 <= i < j < |pairs| ==> pairs[i].px != pairs[j].px && pairs[i].cs != pairs[j].cs
  }

  ghost predicate DurablePairs(inv: Inventory, ms: seq<Mapping>, pairs: seq<Pair>) {
    forall i :: 0 <= i < |pairs| ==>
      && Durable(inv, ms, pairs[i].px, pairs[i].cs)
      && pairs[i].source == inv.px[pairs[i].px].source
  }

  method FindDurable(inv: Inventory, ms: seq<Mapping>, pxRows: seq<Id>) returns (pairs: seq<Pair>)
    requires Lists(pxRows, CurrentPx(inv))
    ensures DurablePairs(inv, ms, pairs) && DistinctPairs(pairs)
    ensures forall p, c :: Durable(inv, ms, p, c) ==>
      exists i :: 0 <= i < |pairs| && pairs[i].px == p && pairs[i].cs == c
  {
    pairs := [];
    for n := 0 to |pxRows|
      invariant DurablePairs(inv, ms, pairs) && DistinctPairs(pairs)
      invariant forall i :: 0 <= i < |pairs| ==> pairs[i].px in pxRows[..n]
      invariant forall p, c :: p in pxRows[..n] && Durable(inv, ms, p, c) ==>
        exists i :: 0 <= i < |pairs| && pairs[i].px == p && pairs[i].cs == c
    {
      var p := pxRows[n];
      assert p in CurrentPx(inv);
      var px := inv.px[p];
      ghost var before := pairs;
      assert pxRows[..n + 1] == pxRows[..n] + [p];
      if px.csUuid.Some? && Durable(inv, ms, p, px.csUuid.value) {
        pairs := pairs + [Pair(p, px.csUuid.value, px.source)];
        assert pairs[|before|].px == p && pairs[|before|].cs == px.csUuid.value;
      }
      assert forall i :: 0 <= i < |before| ==> pairs[i] == before[i];
    }
    assert pxRows[..|pxRows|] == pxRows;
  }

  // ----------------------------------------------------------------- the rows

  ghost function PxUnder(was: Inventory, ms: seq<Mapping>, fwd: map<Id, Id>, p: Id): Px
    requires p in was.px && (p in fwd ==> fwd[p] in was.cs)
  {
    if p in fwd then LinkPx(was.px[p], fwd[p], SourceFor(was, ms, p, fwd[p])) else ClearPx(was.px[p])
  }

  ghost function CsUnder(was: Inventory, ms: seq<Mapping>, bwd: map<Id, Id>, c: Id): Cs
    requires c in was.cs && (c in bwd ==> bwd[c] in was.px)
  {
    if c in bwd then LinkCs(was.cs[c], bwd[c], SourceFor(was, ms, bwd[c], c)) else ClearCs(was.cs[c])
  }

  /** Links both ways, between existing rows. */
  ghost predicate Paired(was: Inventory, fwd: map<Id, Id>, bwd: map<Id, Id>) {
    && (forall p :: p in fwd ==> p in was.px && fwd[p] in was.cs && fwd[p] in bwd && bwd[fwd[p]] == p)
    && (forall c :: c in bwd ==> c in was.cs && bwd[c] in was.px && bwd[c] in fwd && fwd[bwd[c]] == c)
  }

  /** The rows while links are being applied: cleared, but for the links so far. */
  ghost predicate Applied(was: Inventory, ms: seq<Mapping>, now: Inventory, fwd: map<Id, Id>, bwd: map<Id, Id>) {
    Paired(was, fwd, bwd) && PxApplied(was, ms, now.px, fwd) && CsApplied(was, ms, now.cs, bwd)
  }

  lemma PairedOneMore(was: Inventory, fwd: map<Id, Id>, bwd: map<Id, Id>, p: Id, c: Id)
    requires Paired(was, fwd, bwd) && p in was.px && c in was.cs && p !in fwd && c !in bwd
    ensures Paired(was, fwd[p := c], bwd[c := p])
  {
  }

  ghost predicate PxApplied(was: Inventory, ms: seq<Mapping>, px: map<Id, Px>, fwd: map<Id, Id>) {
    && px.Keys == was.px.Keys
    && forall p :: p in was.px ==> (p in fwd ==> fwd[p] in was.cs) && px[p] == PxUnder(was, ms, fwd, p)
  }

  ghost predicate CsApplied(was: Inventory, ms: seq<Mapping>, cs: map<Id, Cs>, bwd: map<Id, Id>) {
    && cs.Keys == was.cs.Keys
    && forall c :: c in was.cs ==> (c in bwd ==> bwd[c] in was.px) && cs[c] == CsUnder(was, ms, bwd, c)
  }

  lemma PxOneMore(was: Inventory, ms: seq<Mapping>, px: map<Id, Px>, fwd: map<Id, Id>, p: Id, c: Id, source: Source)
    requires PxApplied(was, ms, px, fwd) && p in was.px && c in was.cs && p !in fwd
    requires source == SourceFor(was, ms, p, c)
    ensures p in px.Keys && PxApplied(was, ms, px[p := LinkPx(px[p], c, source)], fwd[p := c])
  {
    hide SourceFor;
    assert px[p] == ClearPx(was.px[p]);
  }

  lemma CsOneMore(was: Inventory, ms: seq<Mapping>, cs: map<Id, Cs>, bwd: map<Id, Id>, p: Id, c: Id, source: Source)
    requires CsApplied(was, ms, cs, bwd) && p in was.px && c in was.cs && c !in bwd
    requires source == SourceFor(was, ms, p, c)
    ensures c in cs.Keys && CsApplied(was, ms, cs[c := LinkCs(cs[c], p, source)], bwd[c := p])
  {
    hide SourceFor;
    assert cs[c] == ClearCs(was.cs[c]);
  }

  class Engine {
    var px: map<Id, Px>
    var cs: map<Id, Cs>

    function Rows(): Inventory
      reads this
    {
      Inventory(px, cs)
    }

    constructor (px: map<Id, Px>, cs: map<Id, Cs>)
      ensures Rows() == Inventory(px, cs)
    {
      this.px, this.cs := px, cs;
    }

    method Reset(ghost ms: seq<Mapping>)
      modifies this
      ensures Applied(old(Rows()), ms, Rows(), map[], map[])
    {
      px := map p | p in px :: ClearPx(px[p]);
      cs := map c | c in cs :: ClearCs(cs[c]);
    }

    method ApplyMatch(ghost was: Inventory, ghost ms: seq<Mapping>, ghost fwd: map<Id, Id>, ghost bwd: map<Id, Id>,
                      p: Id, c: Id, source: Source)
      requires Applied(was, ms, Rows(), fwd, bwd)
      requires p in was.px && c in was.cs && p !in fwd && c !in bwd && source == SourceFor(was, ms, p, c)
      modifies this
      ensures Applied(was, ms, Rows(), fwd[p := c], bwd[c := p])
    {
      hide SourceFor, Paired, PxApplied, CsApplied;
      PairedOneMore(was, fwd, bwd, p, c);
      PxOneMore(was, ms, px, fwd, p, c, source);
      CsOneMore(was, ms, cs, bwd, p, c, source);
      px := px[p := LinkPx(px[p], c, source)];
      cs := cs[c := LinkCs(cs[c], p, source)];
    }

    /** Two durable links never share a VM, so the branch for several claimants of one VM
        is never taken, and every durable link is applied. */
    method ApplyDurable(ghost was: Inventory, ms: seq<Mapping>, pairs: seq<Pair>)
      returns (manual: nat, automatic: nat, ghost fwd: map<Id, Id>, ghost bwd: map<Id, Id>)
      requires Applied(was, ms, Rows(), map[], map[])
      requires DurablePairs(was, ms, pairs) && DistinctPairs(pairs)
      modifies this
      ensures Applied(was, ms, Rows(), fwd, bwd) && LinksOf(pairs, |pairs|, fwd, bwd)
      ensures manual + automatic == |fwd| && manual == |ByHand(was, fwd)|
    {
      hide SourceFor, Applied, Durable, ByHand, DurablePairs, LinksOf, DistinctPairs, Claimants;
      NoLinks(pairs);
      manual, automatic, fwd, bwd := 0, 0, map[], map[];
      NoneByHand(was);
      for n := 0 to |pairs|
        invariant Applied(was, ms, Rows(), fwd, bwd) && LinksOf(pairs, n, fwd, bwd)
        invariant manual + automatic == |fwd| && manual == |ByHand(was, fwd)|
      {
        var p, c, source := pairs[n].px, pairs[n].cs, pairs[n].source;
        OneClaimant(pairs, |pairs|, n);
        OneMoreLink(pairs, n, fwd, bwd);
        if |Claimants(pairs, |pairs|, c)| != 1 {
          assert false;
          return;
        }
        DurableSource(was, ms, pairs, n);
        ApplyMatch(was, ms, fwd, bwd, p, c, source);
        CountOneMore(was, fwd, p, c);
        fwd, bwd := fwd[p := c], bwd[c := p];
        if source == Manual {
          manual := manual + 1;
        } else {
          automatic := automatic + 1;
        }
      }
    }
  }

  /** The links of the first `n` pairs. */
  ghost predicate LinksOf(pairs: seq<Pair>, n: nat, fwd: map<Id, Id>, bwd: map<Id, Id>)
    requires n <= |pairs|
  {
    && (forall p :: p in fwd ==> exists i :: 0 <= i < n && pairs[i].px == p)
    && (forall c :: c in bwd ==> exists i :: 0 <= i < n && pairs[i].cs == c)
    && (forall i :: 0 <= i < n ==> pairs[i].px in fwd && fwd[pairs[i].px] == pairs[i].cs)
  }

  lemma NoLinks(pairs: seq<Pair>)
    ensures LinksOf(pairs, 0, map[], map[])
  {
  }

  lemma OneMoreLink(pairs: seq<Pair>, n: nat, fwd: map<Id, Id>, bwd: map<Id, Id>)
    requires DistinctPairs(pairs) && n < |pairs| && LinksOf(pairs, n, fwd, bwd)
    ensures pairs[n].px !in fwd && pairs[n].cs !in bwd
    ensures LinksOf(pairs, n + 1, fwd[pairs[n].px := pairs[n].cs], bwd[pairs[n].cs := pairs[n].px])
  {
  }

  /** The linked guests whose link was made by hand. */
  ghost function ByHand(was: Inventory, fwd: map<Id, Id>): set<Id> {
    set p | p in fwd && p in was.px && was.px[p].source == Manual
  }

  lemma OneMoreKey(fwd: map<Id, Id>, p: Id, c: Id)
    requires p !in fwd
    ensures fwd[p := c].Keys == fwd.Keys + {p} && |fwd[p := c]| == |fwd| + 1
  {
    assert fwd[p := c].Keys == fwd.Keys + {p};
    assert |fwd[p := c].Keys| == |fwd[p := c]| && |fwd.Keys| == |fwd|;
  }

  lemma NoneByHand(was: Inventory)
    ensures ByHand(was, map[]) == {}
  {
  }

  lemma OneMoreByHand(was: Inventory, fwd: map<Id, Id>, p: Id, c: Id)
    requires p in was.px && p !in fwd
    ensures ByHand(was, fwd[p := c]) ==
      ByHand(was, fwd) + (if was.px[p].source == Manual then {p} else {})
  {
  }

  lemma NotByHand(was: Inventory, fwd: map<Id, Id>, p: Id)
    requires p !in fwd
    ensures p !in ByHand(was, fwd)
  {
  }

  lemma CountOneMore(was: Inventory, fwd: map<Id, Id>, p: Id, c: Id)
    requires p in was.px && p !in fwd
    ensures |fwd[p := c]| == |fwd| + 1
    ensures |ByHand(was, fwd[p := c])| == |ByHand(was, fwd)| + (if was.px[p].source == Manual then 1 else 0)
  {
    hide ByHand;
    OneMoreKey(fwd, p, c);
    OneMoreByHand(was, fwd, p, c);
    NotByHand(was, fwd, p);
  }

  lemma DurableSource(was: Inventory, ms: seq<Mapping>, pairs: seq<Pair>, n: nat)
    requires DurablePairs(was, ms, pairs) && n < |pairs|
    ensures pairs[n].px in was.px && pairs[n].cs in was.cs
    ensures pairs[n].source == was.px[pairs[n].px].source == SourceFor(was, ms, pairs[n].px, pairs[n].cs)
  {
  }

  /** The pairs of one VM: an entry of the dictionary of claimants. */
  function Claimants(pairs: seq<Pair>, n: nat, c: Id): seq<Pair>
    requires n <= |pairs|
  {
    if n == 0 then []
    else Claimants(pairs, n - 1, c) + (if pairs[n - 1].cs == c then [pairs[n - 1]] else [])
  }

  lemma {:induction false} OneClaimant(pairs: seq<Pair>, n: nat, k: nat)
    requires DistinctPairs(pairs) && n <= |pairs| && k < |pairs|
    ensures |Claimants(pairs, n, pairs[k].cs)| == if k < n then 1 else 0
  {
    if n > 0 {
      OneClaimant(pairs, n - 1, k);
    }
  }

  // -------------------------------------------------------------- candidates

  function Get<K>(index: map<K, seq<Id>>, key: K): seq<Id> {
    if key in index then index[key] else []
  }

  /** The lists of the first `n` rows by key; rows without a key are in none. */
  ghost predicate IndexedBy<K(!new)>(index: map<K, seq<Id>>, rows: seq<Id>, n: nat, keyOf: Id -> Option<K>)
    requires n <= |rows|
  {
    && (forall key, p :: p in Get(index, key) <==> p in rows[..n] && keyOf(p) == Some(key))
    && (forall key :: Distinct(Get(index, key)))
  }

  function Put<K>(index: map<K, seq<Id>>, key: Option<K>, p: Id): map<K, seq<Id>> {
    if key.None? then index else index[key.value := Get(index, key.value) + [p]]
  }

  lemma PutKeepsIndex<K(!new)>(index: map<K, seq<Id>>, rows: seq<Id>, n: nat, keyOf: Id -> Option<K>)
    requires n < |rows| && Distinct(rows) && IndexedBy(index, rows, n, keyOf)
    ensures IndexedBy(Put(index, keyOf(rows[n]), rows[n]), rows, n + 1, keyOf)
  {
    var p := rows[n];
    assert rows[..n + 1] == rows[..n] + [p] && p !in rows[..n];
    var v := Put(index, keyOf(p), p);
    forall key ensures Get(v, key) == Get(index, key) + (if keyOf(p) == Some(key) then [p] else []) {}
  }

  function PlaceKey(inv: Inventory, p: Id): Option<(string, int)> {
    if p in inv.px && Eligible(inv.px[p])
    then Some((Canonical(inv.px[p].cluster).value, inv.px[p].vmid)) else None
  }

  function VmidKey(inv: Inventory, p: Id): Option<int> {
    if p in inv.px && Eligible(inv.px[p]) then Some(inv.px[p].vmid) else None
  }

  method IndexPx(inv: Inventory, rows: seq<Id>)
    returns (byPlace: map<(string, int), seq<Id>>, byVmid: map<int, seq<Id>>)
    requires Distinct(rows)
    ensures IndexedBy(byPlace, rows, |rows|, p => PlaceKey(inv, p))
    ensures IndexedBy(byVmid, rows, |rows|, p => VmidKey(inv, p))
  {
    hide PlaceKey, VmidKey, IndexedBy;
    byPlace, byVmid := map[], map[];
    EmptyIndex(rows, p => PlaceKey(inv, p));
    EmptyIndex(rows, p => VmidKey(inv, p));
    for n := 0 to |rows|
      invariant IndexedBy(byPlace, rows, n, p => PlaceKey(inv, p))
      invariant IndexedBy(byVmid, rows, n, p => VmidKey(inv, p))
    {
      var p := rows[n];
      PutKeepsIndex(byPlace, rows, n, p => PlaceKey(inv, p));
      PutKeepsIndex(byVmid, rows, n, p => VmidKey(inv, p));
      byPlace := Put(byPlace, PlaceKey(inv, p), p);
      byVmid := Put(byVmid, VmidKey(inv, p), p);
    }
  }

  lemma EmptyIndex<K(!new)>(rows: seq<Id>, keyOf: Id -> Option<K>)
    ensures IndexedBy(map[], rows, 0, keyOf)
  {
  }
}
