/** The NICs of a live VM against the NICs of its plan, as `_vm_matches_plan` compares them. */
module VmNics {
  import opened Model
  import opened Networks
  import opened Sorting
  import opened Text

  /** The device as the API gives it: a number, a text or something else. */
  datatype RawDevice = Number(n: int) | Numeral(s: string) | Other

  datatype ObservedNic = ObservedNic(device: RawDevice, network: string, mac: string, ip: Option<string>)

  function DeviceId(raw: RawDevice): Option<nat> {
    match raw
    case Number(n) => if n >= 0 then Some(n) else None
    case Numeral(s) => ParseDecimal(s)
    case Other => None
  }

  datatype Key = Key(device: int, network: string, mac: string)

  function ExpectedKey(p: PlanNic): Key {
    Key(p.device, p.networkId, Upper(p.mac))
  }

  function ObservedKey(o: ObservedNic): Key {
    Key(if DeviceId(o.device).Some? then DeviceId(o.device).value else -1, o.network, Upper(o.mac))
  }

  /** The address rule of each allocation mode. */
  predicate IpRule(p: PlanNic, ip: Option<string>, g: Grammar) {
    match p.allocation
    case ByCloudStack => if p.ip.None? then ip.Some? && g.ipv4(ip.value) else ip == p.ip
    case ByDhcp => p.ip.None? && ip in {None, Some("")}
    case External => ip in {None, Some(""), p.ip}
  }

  /** Same device, network and MAC, and an address the plan allows. */
  predicate Same(o: ObservedNic, p: PlanNic, g: Grammar) {
    ObservedKey(o) == ExpectedKey(p) && IpRule(p, o.ip, g)
  }

  ghost predicate DistinctExpected(expected: seq<PlanNic>) {
    forall i, j :: 0 <= i < j < |expected| ==> ExpectedKey(expected[i]) != ExpectedKey(expected[j])
  }

  ghost predicate DistinctObserved(observed: seq<ObservedNic>) {
    forall i, j :: 0 <= i < j < |observed| ==> ObservedKey(observed[i]) != ObservedKey(observed[j])
  }

  /** Every NIC on either side has a counterpart on the other, and none is ambiguous. */
  ghost predicate Matched(observed: seq<ObservedNic>, expected: seq<PlanNic>, g: Grammar) {
    && (forall o :: o in observed ==> DeviceId(o.device).Some?)
    && DistinctExpected(expected) && DistinctObserved(observed)
    && (forall o :: o in observed ==> exists p :: p in expected && Same(o, p, g))
    && (forall p :: p in expected ==> exists o :: o in observed && Same(o, p, g))
  }

  // ------------------------------------------------------------ the comparison

  ghost predicate ExpectedMap(expected: seq<PlanNic>, n: nat, index: map<Key, PlanNic>)
    requires n <= |expected|
  {
    && (forall k :: k in index ==> index[k] in expected[..n] && ExpectedKey(index[k]) == k)
    && (forall i :: 0 <= i < n ==> ExpectedKey(expected[i]) in index)
  }

  method IndexExpected(expected: seq<PlanNic>) returns (index: map<Key, PlanNic>)
    ensures ExpectedMap(expected, |expected|, index)
    ensures |index| == |expected| <==> DistinctExpected(expected)
  {
    hide ExpectedKey, ExpectedMap, DistinctExpected;
    index := map[];
    ghost var repeated := false;
    NothingExpected(expected);
    for n := 0 to |expected|
      invariant ExpectedMap(expected, n, index)
      invariant |index| <= n && (repeated <==> |index| < n)
      invariant repeated <==> !DistinctExpected(expected[..n])
    {
      var p := expected[n];
      RepeatedExpected(expected, n, index);
      ExpectedOneMore(expected, n, index);
      repeated := repeated || ExpectedKey(p) in index;
      OneMoreEntry(index, ExpectedKey(p), p);
      index := index[ExpectedKey(p) := p];
    }
    assert expected[..|expected|] == expected;
  }

  lemma NothingExpected(expected: seq<PlanNic>)
    ensures ExpectedMap(expected, 0, map[]) && DistinctExpected(expected[..0])
  {
  }

  lemma ExpectedOneMore(expected: seq<PlanNic>, n: nat, index: map<Key, PlanNic>)
    requires n < |expected| && ExpectedMap(expected, n, index)
    ensures ExpectedMap(expected, n + 1, index[ExpectedKey(expected[n]) := expected[n]])
  {
    hide ExpectedKey;
    assert expected[..n + 1] == expected[..n] + [expected[n]];
  }

  lemma OneMoreEntry(index: map<Key, PlanNic>, k: Key, p: PlanNic)
    ensures |index[k := p]| == |index| + (if k in index then 0 else 1)
  {
    assert index[k := p].Keys == index.Keys + {k};
    assert |index[k := p].Keys| == |index[k := p]| && |index.Keys| == |index|;
    assert k in index ==> index.Keys + {k} == index.Keys;
  }

  lemma RepeatedExpected(expected: seq<PlanNic>, n: nat, index: map<Key, PlanNic>)
    requires n < |expected| && ExpectedMap(expected, n, index)
    ensures DistinctExpected(expected[..n + 1]) <==>
      DistinctExpected(expected[..n]) && ExpectedKey(expected[n]) !in index
  {
    hide ExpectedKey;
    var before, after := expected[..n], expected[..n + 1];
    assert forall i :: 0 <= i < n ==> after[i] == before[i] == expected[i];
    if ExpectedKey(expected[n]) in index {
      var q := index[ExpectedKey(expected[n])];
      var i :| 0 <= i < n && before[i] == q;
      assert ExpectedKey(after[i]) == ExpectedKey(after[n]);
    }
    if DistinctExpected(after) {
      forall i, j | 0 <= i < j < n ensures ExpectedKey(before[i]) != ExpectedKey(before[j]) {
        assert ExpectedKey(after[i]) != ExpectedKey(after[j]);
      }
    }
  }

  ghost predicate ObservedMap(observed: seq<ObservedNic>, n: nat, actual: map<Key, Option<string>>)
    requires n <= |observed|
  {
    && (forall k :: k in actual ==>
          exists i :: 0 <= i < n && ObservedKey(observed[i]) == k && observed[i].ip == actual[k])
    && (forall i :: 0 <= i < n ==>
          ObservedKey(observed[i]) in actual && actual[ObservedKey(observed[i])] == observed[i].ip)
  }

  lemma ObservedOneMore(observed: seq<ObservedNic>, n: nat, actual: map<Key, Option<string>>)
    requires n < |observed| && ObservedMap(observed, n, actual) && ObservedKey(observed[n]) !in actual
    ensures ObservedMap(observed, n + 1, actual[ObservedKey(observed[n]) := observed[n].ip])
    ensures forall i :: 0 <= i < n ==> ObservedKey(observed[i]) != ObservedKey(observed[n])
  {
    hide ObservedKey;
    var o := observed[n];
    var more := actual[ObservedKey(o) := o.ip];
    forall k | k in more
      ensures exists i :: 0 <= i < n + 1 && ObservedKey(observed[i]) == k && observed[i].ip == more[k]
    {
      if k == ObservedKey(o) {
        assert ObservedKey(observed[n]) == k;
      } else {
        var i :| 0 <= i < n && ObservedKey(observed[i]) == k && observed[i].ip == actual[k];
      }
    }
  }

  lemma SeenBefore(observed: seq<ObservedNic>, n: nat, actual: map<Key, Option<string>>)
    requires n < |observed| && ObservedMap(observed, n, actual) && ObservedKey(observed[n]) in actual
    ensures !DistinctObserved(observed)
  {
    hide ObservedKey;
    var i :| 0 <= i < n && ObservedKey(observed[i]) == ObservedKey(observed[n]);
  }

  /** `None` if a device is unreadable or two NICs have the same identity. */
  method IndexObserved(observed: seq<ObservedNic>) returns (r: Option<map<Key, Option<string>>>)
    ensures r.Some? <==> DistinctObserved(observed) && forall o :: o in observed ==> DeviceId(o.device).Some?
    ensures r.Some? ==> ObservedMap(observed, |observed|, r.value)
  {
    hide ObservedKey, DeviceId, ObservedMap;
    var actual: map<Key, Option<string>> := map[];
    NothingObserved(observed);
    for n := 0 to |observed|
      invariant ObservedMap(observed, n, actual)
      invariant forall i, j :: 0 <= i < j < n ==> ObservedKey(observed[i]) != ObservedKey(observed[j])
      invariant forall i :: 0 <= i < n ==> DeviceId(observed[i].device).Some?
    {
      var o := observed[n];
      if DeviceId(o.device).None? {
        assert o in observed;
        return None;
      }
      if ObservedKey(o) in actual {
        SeenBefore(observed, n, actual);
        return None;
      }
      ObservedOneMore(observed, n, actual);
      actual := actual[ObservedKey(o) := o.ip];
    }
    return Some(actual);
  }

  lemma NothingObserved(observed: seq<ObservedNic>)
    ensures ObservedMap(observed, 0, map[])
  {
  }

  /** The network part of `_vm_matches_plan`. */
  method NicsMatch(observed: seq<ObservedNic>, expected: seq<PlanNic>, g: Grammar, allowMismatch: bool)
    returns (ok: bool)
    ensures ok <==> allowMismatch || Matched(observed, expected, g)
  {
    hide ObservedKey, ExpectedKey, DeviceId, IpRule;
    if allowMismatch {
      return true;
    }
    var index := IndexExpected(expected);
    if |index| != |expected| {
      return false;
    }
    var actual := IndexObserved(observed);
    if actual.None? {
      return false;
    }
    KeysAgree(observed, expected, g, index, actual.value);
    if actual.value.Keys != index.Keys {
      return false;
    }
    ok := forall k :: k in index ==> IpRule(index[k], actual.value[k], g);
  }

  ghost predicate Agreeing(index: map<Key, PlanNic>, actual: map<Key, Option<string>>, g: Grammar) {
    actual.Keys == index.Keys && forall k :: k in index ==> k in actual && IpRule(index[k], actual[k], g)
  }

  lemma MatchedAgree(observed: seq<ObservedNic>, expected: seq<PlanNic>, g: Grammar,
                     index: map<Key, PlanNic>, actual: map<Key, Option<string>>)
    requires ExpectedMap(expected, |expected|, index) && ObservedMap(observed, |observed|, actual)
    requires Matched(observed, expected, g)
    ensures Agreeing(index, actual, g)
  {
    hide ObservedKey, ExpectedKey, DeviceId, IpRule;
    assert expected[..|expected|] == expected;
    forall k | k in index ensures k in actual && IpRule(index[k], actual[k], g) {
      var o :| o in observed && Same(o, index[k], g);
      var i :| 0 <= i < |observed| && observed[i] == o;
    }
    forall k | k in actual ensures k in index {
      var i :| 0 <= i < |observed| && ObservedKey(observed[i]) == k;
      assert observed[i] in observed;
      var p :| p in expected && Same(observed[i], p, g);
      var j :| 0 <= j < |expected| && expected[j] == p;
    }
  }

  lemma AgreeMatches(observed: seq<ObservedNic>, expected: seq<PlanNic>, g: Grammar,
                     index: map<Key, PlanNic>, actual: map<Key, Option<string>>)
    requires ExpectedMap(expected, |expected|, index) && ObservedMap(observed, |observed|, actual)
    requires DistinctExpected(expected) && DistinctObserved(observed) && Agreeing(index, actual, g)
    requires forall o :: o in observed ==> DeviceId(o.device).Some?
    ensures Matched(observed, expected, g)
  {
    hide ObservedKey, ExpectedKey, DeviceId, IpRule;
    assert expected[..|expected|] == expected;
    forall o | o in observed ensures exists p :: p in expected && Same(o, p, g) {
      var i :| 0 <= i < |observed| && observed[i] == o;
      var k := ObservedKey(o);
      assert k in actual.Keys;
      assert Same(o, index[k], g);
    }
    forall p | p in expected ensures exists o :: o in observed && Same(o, p, g) {
      var j :| 0 <= j < |expected| && expected[j] == p;
      var k := ExpectedKey(p);
      IndexedIsOnly(expected, index, j);
      assert k in index.Keys;
      var i :| 0 <= i < |observed| && ObservedKey(observed[i]) == k && observed[i].ip == actual[k];
      assert Same(observed[i], p, g);
    }
  }

  lemma KeysAgree(observed: seq<ObservedNic>, expected: seq<PlanNic>, g: Grammar,
                  index: map<Key, PlanNic>, actual: map<Key, Option<string>>)
    requires ExpectedMap(expected, |expected|, index) && ObservedMap(observed, |observed|, actual)
    requires DistinctExpected(expected) && DistinctObserved(observed)
    requires forall o :: o in observed ==> DeviceId(o.device).Some?
    ensures Matched(observed, expected, g) <==> Agreeing(index, actual, g)
  {
    hide Matched, Agreeing, ExpectedMap, ObservedMap, DistinctExpected, DistinctObserved;
    if Matched(observed, expected, g) {
      MatchedAgree(observed, expected, g, index, actual);
    }
    if Agreeing(index, actual, g) {
      AgreeMatches(observed, expected, g, index, actual);
    }
  }

  lemma IndexedIsOnly(expected: seq<PlanNic>, index: map<Key, PlanNic>, j: nat)
    requires ExpectedMap(expected, |expected|, index) && DistinctExpected(expected) && j < |expected|
    ensures ExpectedKey(expected[j]) in index && index[ExpectedKey(expected[j])] == expected[j]
  {
    hide ExpectedKey;
    assert expected[..|expected|] == expected;
    var q := index[ExpectedKey(expected[j])];
    var i :| 0 <= i < |expected| && expected[i] == q;
    assert ExpectedKey(expected[i]) == ExpectedKey(expected[j]);
  }

  // ------------------------------------------------------------ what it means

  /** `place[i]` is the planned NIC that observed NIC `i` is. */
  ghost predicate Bijection(observed: seq<ObservedNic>, expected: seq<PlanNic>, g: Grammar, place: seq<nat>) {
    && |place| == |observed| == |expected|
    && (forall i :: 0 <= i < |place| ==> place[i] < |expected| && Same(observed[i], expected[place[i]], g))
    && (forall i, j :: 0 <= i < j < |place| ==> place[i] != place[j])
    && (forall k: nat :: k < |expected| ==> k in place)
  }

  ghost predicate Places(observed: seq<ObservedNic>, expected: seq<PlanNic>, g: Grammar, place: seq<nat>) {
    && |place| <= |observed|
    && forall i :: 0 <= i < |place| ==> place[i] < |expected| && Same(observed[i], expected[place[i]], g)
  }

  lemma FindPlaces(observed: seq<ObservedNic>, expected: seq<PlanNic>, g: Grammar) returns (place: seq<nat>)
    requires forall o :: o in observed ==> exists p :: p in expected && Same(o, p, g)
    ensures |place| == |observed| && Places(observed, expected, g, place)
  {
    hide Same;
    place := [];
    while |place| < |observed|
      invariant Places(observed, expected, g, place)
    {
      var o := observed[|place|];
      assert o in observed;
      var p :| p in expected && Same(o, p, g);
      var k :| 0 <= k < |expected| && expected[k] == p;
      place := place + [k];
    }
  }

  lemma SeenSomewhere(observed: seq<ObservedNic>, expected: seq<PlanNic>, g: Grammar, k: nat) returns (i: nat)
    requires Matched(observed, expected, g) && k < |expected|
    ensures i < |observed| && Same(observed[i], expected[k], g)
  {
    hide Same, DistinctObserved, DistinctExpected;
    assert expected[k] in expected;
    var o :| o in observed && Same(o, expected[k], g);
    i :| 0 <= i < |observed| && observed[i] == o;
  }

  lemma SameKeys(o: ObservedNic, p: PlanNic, q: PlanNic, g: Grammar)
    requires Same(o, p, g) && Same(o, q, g)
    ensures ExpectedKey(p) == ExpectedKey(q)
  {
    hide ObservedKey, ExpectedKey, IpRule;
  }

  lemma OnePlace(expected: seq<PlanNic>, j: nat, k: nat)
    requires DistinctExpected(expected) && j < |expected| && k < |expected|
    requires ExpectedKey(expected[j]) == ExpectedKey(expected[k])
    ensures j == k
  {
    hide ExpectedKey;
  }

  lemma MatchedIsDistinct(observed: seq<ObservedNic>, expected: seq<PlanNic>, g: Grammar)
    requires Matched(observed, expected, g)
    ensures DistinctExpected(expected) && DistinctObserved(observed)
  {
    hide DistinctExpected, DistinctObserved;
  }

  lemma PlacesCover(observed: seq<ObservedNic>, expected: seq<PlanNic>, g: Grammar, place: seq<nat>, k: nat)
    requires Matched(observed, expected, g) && |place| == |observed| && Places(observed, expected, g, place)
    requires k < |expected|
    ensures k in place
  {
    hide Matched, Same, ExpectedKey, DistinctExpected;
    var i := SeenSomewhere(observed, expected, g, k);
    SameKeys(observed[i], expected[place[i]], expected[k], g);
    MatchedIsDistinct(observed, expected, g);
    OnePlace(expected, place[i], k);
  }

  /** An accepted VM has exactly the planned NICs: one for one, none left over. */
  lemma MatchedIsBijection(observed: seq<ObservedNic>, expected: seq<PlanNic>, g: Grammar) returns (place: seq<nat>)
    requires Matched(observed, expected, g)
    ensures Bijection(observed, expected, g, place)
  {
    place := FindPlaces(observed, expected, g);
    assert DistinctObserved(observed);
    hide Matched, ObservedKey, ExpectedKey, IpRule;
    forall k: nat | k < |expected| ensures k in place {
      PlacesCover(observed, expected, g, place, k);
    }
    forall i, j | 0 <= i < j < |place| ensures place[i] != place[j] {
      assert ObservedKey(observed[i]) != ObservedKey(observed[j]);
    }
    CountPlaces(place, |expected|);
  }

  ghost function Below(n: nat): set<nat> {
    if n == 0 then {} else Below(n - 1) + {n - 1}
  }

  lemma {:induction false} BelowIs(n: nat)
    ensures |Below(n)| == n && forall k: nat :: k in Below(n) <==> k < n
  {
    if n > 0 {
      BelowIs(n - 1);
    }
  }

  ghost function Values(place: seq<nat>): set<nat> {
    if place == [] then {} else Values(place[..|place| - 1]) + {place[|place| - 1]}
  }

  lemma {:induction false} ValuesAre(place: seq<nat>)
    ensures forall k :: k in Values(place) <==> k in place
    ensures (forall i, j :: 0 <= i < j < |place| ==> place[i] != place[j]) ==> |Values(place)| == |place|
  {
    if place != [] {
      var n := |place| - 1;
      ValuesAre(place[..n]);
      assert place == place[..n] + [place[n]];
      if forall i, j :: 0 <= i < j < |place| ==> place[i] != place[j] {
        assert place[n] !in place[..n];
      }
    }
  }

  lemma CountPlaces(place: seq<nat>, n: nat)
    requires forall i :: 0 <= i < |place| ==> place[i] < n
    requires forall i, j :: 0 <= i < j < |place| ==> place[i] != place[j]
    requires forall k: nat :: k < n ==> k in place
    ensures |place| == n
  {
    BelowIs(n);
    ValuesAre(place);
    assert Values(place) == Below(n);
  }

  // ------------------------------------------------------ order does not matter

  lemma SameMembers<T(!new)>(a: seq<T>, b: seq<T>)
    requires multiset(a) == multiset(b)
    ensures forall x :: x in a <==> x in b
  {
    forall x ensures x in a <==> x in b {
      assert x in a <==> x in multiset(a);
      assert x in b <==> x in multiset(b);
    }
  }

  lemma DistinctKeysSame<T(!new)>(a: seq<T>, b: seq<T>, key: T -> Key)
    requires multiset(a) == multiset(b)
    requires forall i, j :: 0 <= i < j < |a| ==> key(a[i]) != key(a[j])
    ensures forall i, j :: 0 <= i < j < |b| ==> key(b[i]) != key(b[j])
  {
    SameMembers(a, b);
    assert Distinct(a);
    forall x ensures multiset(b)[x] <= 1 { DistinctCounts(a, x); }
    CountsDistinct(b);
    forall i, j | 0 <= i < j < |b| ensures key(b[i]) != key(b[j]) {
      assert b[i] in b && b[j] in b && b[i] != b[j];
      var k :| 0 <= k < |a| && a[k] == b[i];
      var l :| 0 <= l < |a| && a[l] == b[j];
      assert k != l;
    }
  }

  lemma MatchedSameOneWay(o1: seq<ObservedNic>, e1: seq<PlanNic>, o2: seq<ObservedNic>, e2: seq<PlanNic>, g: Grammar)
    requires multiset(o1) == multiset(o2) && multiset(e1) == multiset(e2) && Matched(o1, e1, g)
    ensures Matched(o2, e2, g)
  {
    hide ObservedKey, ExpectedKey, DeviceId, IpRule;
    SameMembers(o1, o2);
    SameMembers(e1, e2);
    DistinctKeysSame(o1, o2, ObservedKey);
    DistinctKeysSame(e1, e2, ExpectedKey);
  }

  /** In whatever order either side lists its NICs, the verdict is the same. */
  lemma MatchedInAnyOrder(o1: seq<ObservedNic>, e1: seq<PlanNic>, o2: seq<ObservedNic>, e2: seq<PlanNic>, g: Grammar)
    requires multiset(o1) == multiset(o2) && multiset(e1) == multiset(e2)
    ensures Matched(o1, e1, g) <==> Matched(o2, e2, g)
  {
    hide Matched;
    if Matched(o1, e1, g) {
      MatchedSameOneWay(o1, e1, o2, e2, g);
    }
    if Matched(o2, e2, g) {
      MatchedSameOneWay(o2, e2, o1, e1, g);
    }
  }
}
