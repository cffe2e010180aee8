/** `bound_status_map`: the instance name of every live identity of a cluster, by VMID text. */
module StatusMap {
  import opened Model
  import opened Invariant
  import opened Text

  /** The claim is live in this cluster and has an instance name to show. */
  predicate Shown(w: World, cluster: string, c: Id) {
    && c in w.claims && w.claims[c].guest.cluster == cluster
    && w.claims[c].state in {Bound, Managed, Operating, Retiring}
    && w.claims[c].instance.Some? && w.claims[c].instance.value != ""
  }

  predicate Names(w: World, cluster: string, c: Id, vmid: string, instance: string) {
    && Shown(w, cluster, c) && IntText(w.claims[c].guest.vmid) == vmid
    && w.claims[c].instance == Some(instance)
  }

  /** In every reachable state two shown claims have different keys. */
  lemma KeysDiffer(w: World, cluster: string, c: Id, d: Id)
    requires Distinct(w) && Shown(w, cluster, c) && Shown(w, cluster, d)
    requires IntText(w.claims[c].guest.vmid) == IntText(w.claims[d].guest.vmid)
    ensures c == d
  {
    IntTextInjective(w.claims[c].guest.vmid, w.claims[d].guest.vmid);
    assert c == d || Conflicting(w.claims[c], w.claims[d]);
  }

  /** Nothing is overwritten on the way: the right entry for every shown claim, and every
      entry for a shown claim. */
  method BoundStatusMap(w: World, cluster: string, rows: seq<Id>) returns (shown: map<string, string>)
    requires Distinct(w) && forall c :: Shown(w, cluster, c) ==> c in rows
    ensures forall vmid :: vmid in shown ==> exists c :: Names(w, cluster, c, vmid, shown[vmid])
    ensures forall c :: Shown(w, cluster, c) ==>
      IntText(w.claims[c].guest.vmid) in shown
      && shown[IntText(w.claims[c].guest.vmid)] == w.claims[c].instance.value
  {
    hide IntText, Distinct;
    shown := map[];
    for n := 0 to |rows|
      invariant forall vmid :: vmid in shown ==> exists c :: Names(w, cluster, c, vmid, shown[vmid])
      invariant forall c :: c in rows[..n] && Shown(w, cluster, c) ==>
        Names(w, cluster, c, IntText(w.claims[c].guest.vmid), w.claims[c].instance.value)
        && IntText(w.claims[c].guest.vmid) in shown
        && shown[IntText(w.claims[c].guest.vmid)] == w.claims[c].instance.value
    {
      var c := rows[n];
      assert rows[..n + 1] == rows[..n] + [c];
      if Shown(w, cluster, c) {
        var vmid := IntText(w.claims[c].guest.vmid);
        forall d | Shown(w, cluster, d) && IntText(w.claims[d].guest.vmid) == vmid ensures d == c {
          KeysDiffer(w, cluster, c, d);
        }
        shown := shown[vmid := w.claims[c].instance.value];
        assert Names(w, cluster, c, vmid, w.claims[c].instance.value);
      }
    }
    assert rows[..|rows|] == rows;
  }
}
