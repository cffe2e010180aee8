/** Host mappings: which Proxmox placement a CloudStack host stands for. */
module HostMapping {
  import opened Model
  import opened Text

  /** A row of the table; a missing column is the empty text. */
  datatype Mapping = Mapping(id: Id, cluster: string, node: string, hostName: string, hostId: string)

  /** `_canonical_mapping_value` */
  function Canonical(s: string): Option<string> {
    if Normalized(s) then Some(Lower(s)) else None
  }

  predicate Complete(m: Mapping) {
    Normalized(m.cluster) && Normalized(m.node) && Normalized(m.hostName) && Normalized(m.hostId)
  }

  predicate SamePlacement(a: Mapping, b: Mapping) {
    Canonical(a.cluster) == Canonical(b.cluster) && Canonical(a.node) == Canonical(b.node)
  }

  predicate SameHostName(a: Mapping, b: Mapping) {
    Canonical(a.hostName) == Canonical(b.hostName)
  }

  predicate SameHostId(a: Mapping, b: Mapping) {
    Canonical(a.hostId) == Canonical(b.hostId)
  }

  predicate Clash(a: Mapping, b: Mapping) {
    SamePlacement(a, b) || SameHostName(a, b) || SameHostId(a, b)
  }

  // --------------------------------------------------- the one-to-one filter

  function CountIf(rows: seq<Mapping>, p: Mapping -> bool): nat {
    if rows == [] then 0
    else CountIf(rows[..|rows| - 1], p) + (if p(rows[|rows| - 1]) then 1 else 0)
  }

  lemma {:induction false} CountIsZero(rows: seq<Mapping>, p: Mapping -> bool)
    ensures CountIf(rows, p) == 0 <==> forall j :: 0 <= j < |rows| ==> !p(rows[j])
  {
    if rows != [] {
      CountIsZero(rows[..|rows| - 1], p);
    }
  }

  /** A row that counts is counted alone exactly when no other row counts. */
  lemma {:induction false} CountIsOne(rows: seq<Mapping>, p: Mapping -> bool, i: nat)
    requires i < |rows| && p(rows[i])
    ensures CountIf(rows, p) == 1 <==> forall j :: 0 <= j < |rows| && j != i ==> !p(rows[j])
  {
    var n := |rows| - 1;
    var before := rows[..n];
    if i == n {
      CountIsZero(before, p);
    } else {
      CountIsOne(before, p, i);
      CountIsZero(before, p);
      assert before[i] == rows[i];
    }
  }

  /** Row `i` is complete and shares its placement, host name and host id with no other. */
  predicate Alone(rows: seq<Mapping>, i: int)
    requires 0 <= i < |rows|
  {
    Complete(rows[i]) && forall j :: 0 <= j < |rows| && j != i ==> !Clash(rows[i], rows[j])
  }

  function AloneUpTo(rows: seq<Mapping>, n: nat): seq<Mapping>
    requires n <= |rows|
  {
    if n == 0 then []
    else AloneUpTo(rows, n - 1) + (if Alone(rows, n - 1) then [rows[n - 1]] else [])
  }

  /** What `_globally_unique_host_mappings` returns: the rows alone in the whole table. */
  function UniqueMappings(rows: seq<Mapping>): seq<Mapping> {
    AloneUpTo(rows, |rows|)
  }

  method GloballyUniqueHostMappings(rows: seq<Mapping>) returns (unique: seq<Mapping>)
    ensures unique == UniqueMappings(rows)
  {
    unique := [];
    for n := 0 to |rows|
      invariant unique == AloneUpTo(rows, n)
    {
      var row := rows[n];
      if Complete(row) {
        var pxRows := CountIf(rows, m => SamePlacement(row, m));
        var hostRows := CountIf(rows, m => SameHostName(row, m));
        var hostIdRows := CountIf(rows, m => SameHostId(row, m));
        CountIsOne(rows, m => SamePlacement(row, m), n);
        CountIsOne(rows, m => SameHostName(row, m), n);
        CountIsOne(rows, m => SameHostId(row, m), n);
        if pxRows == hostRows == hostIdRows == 1 {
          assert Alone(rows, n);
          unique := unique + [row];
        }
      }
    }
  }

  ghost predicate OneToOne(rows: seq<Mapping>) {
    && (forall i :: 0 <= i < |rows| ==> Complete(rows[i]))
    && (forall i, j :: 0 <= i < |rows| && 0 <= j < |rows| && i != j ==> !Clash(rows[i], rows[j]))
  }

  lemma {:induction false} AloneRows(rows: seq<Mapping>, n: nat)
    requires n <= |rows|
    ensures OneToOne(AloneUpTo(rows, n))
    ensures forall m :: m in AloneUpTo(rows, n) <==> exists i :: 0 <= i < n && rows[i] == m && Alone(rows, i)
    decreases n
  {
    if n > 0 {
      AloneRows(rows, n - 1);
      var before := AloneUpTo(rows, n - 1);
      if Alone(rows, n - 1) {
        forall k | 0 <= k < |before|
          ensures !Clash(before[k], rows[n - 1]) && !Clash(rows[n - 1], before[k])
        {
          assert before[k] in before;
        }
      }
    }
  }

  /** Whatever is in the table, the filter's result relates placements, host names and
      host ids one to one, and it drops no row that clashes with none. */
  lemma FilterIsOneToOne(rows: seq<Mapping>)
    ensures OneToOne(UniqueMappings(rows))
    ensures forall m :: m in UniqueMappings(rows) <==>
      exists i :: 0 <= i < |rows| && rows[i] == m && Alone(rows, i)
  {
    AloneRows(rows, |rows|);
  }

  lemma {:induction false} AllAlone(rows: seq<Mapping>, n: nat)
    requires n <= |rows| && OneToOne(rows)
    ensures AloneUpTo(rows, n) == rows[..n]
    decreases n
  {
    if n > 0 {
      AllAlone(rows, n - 1);
      assert rows[..n] == rows[..n - 1] + [rows[n - 1]];
    }
  }

  /** It keeps the whole table exactly when the table is one to one already. */
  lemma FilterKeepsAll(rows: seq<Mapping>)
    ensures UniqueMappings(rows) == rows <==> OneToOne(rows)
  {
    FilterIsOneToOne(rows);
    if OneToOne(rows) {
      AllAlone(rows, |rows|);
      assert rows[..|rows|] == rows;
    }
  }

  // -------------------------------------------------------------- the table

  datatype Response = Created(id: Id) | Updated(id: Id) | Deleted | Unprocessable | Conflict | Missing

  predicate SameHost(a: Mapping, b: Mapping) {
    SameHostId(a, b) || SameHostName(a, b)
  }

  predicate SharesAll(a: Mapping, b: Mapping) {
    SamePlacement(a, b) && SameHostName(a, b) && SameHostId(a, b)
  }

  /** Every row that shares anything with `m` shares everything with it. */
  predicate Agrees(rows: seq<Mapping>, m: Mapping) {
    forall i :: 0 <= i < |rows| && Clash(rows[i], m) ==> SharesAll(rows[i], m)
  }

  ghost predicate Replaces(was: seq<Mapping>, now: seq<Mapping>, m: Mapping, id: Id) {
    exists i :: 0 <= i < |was| && was[i].id == id && SharesAll(was[i], m) && now == was[i := m.(id := id)]
  }

  lemma Verdict(rows: seq<Mapping>, m: Mapping, existing: Option<nat>, taken: bool)
    requires OneToOne(rows)
    requires existing.Some? ==> existing.value < |rows| && SamePlacement(rows[existing.value], m)
    requires existing.None? ==> forall i :: 0 <= i < |rows| ==> !SamePlacement(rows[i], m)
    requires taken <==> exists j: nat :: j < |rows| && Some(j) != existing && SameHost(rows[j], m)
    ensures Agrees(rows, m) <==>
      && !taken
      && (existing.Some? ==> SameHostName(rows[existing.value], m) && SameHostId(rows[existing.value], m))
    ensures Agrees(rows, m) ==>
      if existing.Some? then SharesAll(rows[existing.value], m)
      else forall i :: 0 <= i < |rows| ==> !Clash(rows[i], m) && !Clash(m, rows[i])
  {
    if taken {
      var j: nat :| j < |rows| && Some(j) != existing && SameHost(rows[j], m);
      assert Clash(rows[j], m);
      assert !SamePlacement(rows[j], m) by {
        if existing.Some? { assert !Clash(rows[j], rows[existing.value]); }
      }
    }
    if existing.Some? {
      forall i | 0 <= i < |rows| && i != existing.value ensures !SamePlacement(rows[i], m) {
        assert !Clash(rows[i], rows[existing.value]);
      }
    }
  }

  class HostTable {
    var rows: seq<Mapping>
    var nextId: Id

    ghost predicate Valid()
      reads this
    {
      && OneToOne(rows)
      && (forall i :: 0 <= i < |rows| ==> rows[i].id < nextId)
      && (forall i, j :: 0 <= i < j < |rows| ==> rows[i].id != rows[j].id)
    }

    constructor ()
      ensures Valid() && rows == []
    {
      rows, nextId := [], 0;
    }

    method FindPlacement(m: Mapping) returns (found: Option<nat>)
      requires Valid() && Complete(m)
      ensures found.Some? ==> found.value < |rows| && SamePlacement(rows[found.value], m)
      ensures found.None? ==> forall i :: 0 <= i < |rows| ==> !SamePlacement(rows[i], m)
    {
      for i := 0 to |rows|
        invariant forall j :: 0 <= j < i ==> !SamePlacement(rows[j], m)
      {
        if SamePlacement(rows[i], m) {
          return Some(i);
        }
      }
      return None;
    }

    /** Whether a row other than `existing` has the host name or the host id. */
    method HostIsTaken(m: Mapping, existing: Option<nat>) returns (taken: bool)
      ensures taken <==> exists j: nat :: j < |rows| && Some(j) != existing && SameHost(rows[j], m)
    {
      for i := 0 to |rows|
        invariant forall j: nat :: j < i && Some(j) != existing ==> !SameHost(rows[j], m)
      {
        if Some(i as nat) != existing && SameHost(rows[i], m) {
          return true;
        }
      }
      return false;
    }

    /** Accepted exactly when every row that shares anything with the request shares
        everything with it; then the request's text replaces that row, or is added. */
    method CreateHostMapping(cluster: string, node: string, hostName: string, hostId: string)
      returns (response: Response)
      requires Valid()
      modifies this
      ensures Valid()
      ensures var m := Mapping(old(nextId), cluster, node, hostName, hostId);
        && (response == Unprocessable <==> !Complete(m))
        && (response.Created? || response.Updated? <==> Complete(m) && Agrees(old(rows), m))
        && match response
           case Created(id) => id == m.id && rows == old(rows) + [m]
           case Updated(id) => Replaces(old(rows), rows, m, id)
           case _ => rows == old(rows)
    {
      hide Canonical, Normalized;
      var m := Mapping(nextId, cluster, node, hostName, hostId);
      if !Complete(m) {
        return Unprocessable;
      }
      var existing := FindPlacement(m);
      var taken := HostIsTaken(m, existing);
      Verdict(rows, m, existing, taken);
      if taken || (existing.Some? && (!SameHostName(rows[existing.value], m)
                                      || !SameHostId(rows[existing.value], m))) {
        return Conflict;
      }
      if existing.Some? {
        var k := existing.value;
        ghost var was := rows;
        rows := rows[k := m.(id := rows[k].id)];
        SharingKeepsOneToOne(was, k, rows[k]);
        assert Replaces(was, rows, m, was[k].id);
        return Updated(rows[k].id);
      }
      rows, nextId := rows + [m], nextId + 1;
      return Created(m.id);
    }

    method DeleteHostMapping(id: Id) returns (response: Response)
      requires Valid()
      modifies this
      ensures Valid()
      ensures response == (if exists i :: 0 <= i < |old(rows)| && old(rows)[i].id == id then Deleted else Missing)
      ensures forall m :: m in rows <==> m in old(rows) && m.id != id
      ensures |rows| == |old(rows)| - (if response == Deleted then 1 else 0)
    {
      for i := 0 to |rows|
        invariant rows == old(rows) && forall j :: 0 <= j < i ==> rows[j].id != id
      {
        if rows[i].id == id {
          rows := rows[..i] + rows[i + 1..];
          return Deleted;
        }
      }
      return Missing;
    }
  }

  lemma SharingKeepsOneToOne(rows: seq<Mapping>, k: nat, m: Mapping)
    requires OneToOne(rows) && k < |rows| && Complete(m)
    requires SharesAll(rows[k], m.(id := rows[k].id))
    ensures OneToOne(rows[k := m])
  {
    var now := rows[k := m];
    forall i, j | 0 <= i < |now| && 0 <= j < |now| && i != j ensures !Clash(now[i], now[j]) {
      assert !Clash(rows[i], rows[j]);
    }
  }
}
