/** Planning and validation agree on the networks of up to ten NICs, and on no more. */
module NetworkAgreement {
  import opened Model
  import opened Text
  import opened Networks
  import opened Sorting

  function FrozenAll(networks: seq<Candidate>): seq<ManifestNic> {
    seq(|networks|, i requires 0 <= i < |networks| => Frozen(networks[i]))
  }

  lemma ManifestIs(networks: seq<Candidate>)
    ensures var manifest := ManifestNetworks(networks);
      && |manifest| == |networks| && Ordered(manifest, DeviceLe)
      && multiset(manifest) == multiset(FrozenAll(networks))
      && forall m :: m in manifest <==> exists c :: c in networks && m == Frozen(c)
  {
    DeviceLeIsOrder();
    SortedIs(FrozenAll(networks), DeviceLe);
    SortedMembers(FrozenAll(networks), DeviceLe);
    forall m ensures m in FrozenAll(networks) <==> exists c :: c in networks && m == Frozen(c) {
      if c :| c in networks && m == Frozen(c) {
        var i :| 0 <= i < |networks| && networks[i] == c;
        assert FrozenAll(networks)[i] == m;
      }
    }
  }

  /** In a contiguous plan a NIC is known by its device. */
  lemma ByDevice(networks: seq<Candidate>, c: Candidate)
    requires Contiguous(Sorted(networks, CandidateLe)) && c in networks
    ensures var ordered := Sorted(networks, CandidateLe);
      |ordered| == |networks| && 0 <= c.device < |networks| && c == ordered[c.device]
  {
    CandidateLeIsOrder();
    SortedIs(networks, CandidateLe);
    SortedMembers(networks, CandidateLe);
  }

  lemma PlacedAt(networks: seq<Candidate>, i: nat)
    requires Contiguous(Sorted(networks, CandidateLe)) && i < |networks|
    ensures var ordered := Sorted(networks, CandidateLe);
      |ordered| == |networks| && ordered[i] in networks && ordered[i].device == i
  {
    CandidateLeIsOrder();
    SortedIs(networks, CandidateLe);
    SortedMembers(networks, CandidateLe);
    assert Sorted(networks, CandidateLe)[i] in Sorted(networks, CandidateLe);
  }

  // ------------------------------------------------------------ no duplicates

  lemma ManifestDistinct(networks: seq<Candidate>, g: Grammar)
    requires WellFormed(networks, g)
    ensures Distinct(ManifestNetworks(networks))
  {
    hide ManifestNetworks;
    ManifestIs(networks);
    var frozen := FrozenAll(networks);
    forall i, j | 0 <= i < j < |frozen| ensures frozen[i] != frozen[j] {
      assert networks[i].networkId != networks[j].networkId;
    }
    forall x ensures multiset(ManifestNetworks(networks))[x] <= 1 {
      DistinctCounts(frozen, x);
    }
    CountsDistinct(ManifestNetworks(networks));
  }

  // ------------------------------------------------- text order, number order

  lemma FrozenDevice(c: Candidate)
    requires c.device >= 0
    ensures ManifestDevice(Frozen(c)) == Some(c.device)
  {
    DeviceTextParses(c.device);
  }

  lemma DevicesSortAsNumbers(c: Candidate, d: Candidate)
    requires 0 <= c.device < 10 && 0 <= d.device < 10
    ensures DeviceLe(Frozen(c), Frozen(d)) <==> c.device <= d.device
  {
    TextLeAfter("net", Decimal(c.device), Decimal(d.device));
    DigitsSortAsNumbers(c.device, d.device);
  }

  /** Up to ten NICs, the manifest lists them in device order too. */
  lemma ManifestInOrder(networks: seq<Candidate>, g: Grammar, k: nat)
    requires WellFormed(networks, g) && Contiguous(Sorted(networks, CandidateLe))
    requires |networks| <= 10 && k < |networks|
    ensures |ManifestNetworks(networks)| == |Sorted(networks, CandidateLe)| == |networks|
    ensures ManifestNetworks(networks)[k] == Frozen(Sorted(networks, CandidateLe)[k])
  {
    hide ManifestNetworks, Sorted, Contiguous, DeviceLe, Frozen, ManifestDevice;
    var manifest, ordered := ManifestNetworks(networks), Sorted(networks, CandidateLe);
    ManifestIs(networks);
    ManifestDistinct(networks, g);
    PlacedAt(networks, k);
    forall i | 0 <= i < |manifest|
      ensures exists c :: c in networks && manifest[i] == Frozen(c)
    {
      assert manifest[i] in manifest;
    }
    var f := seq(|manifest|, i requires 0 <= i < |manifest| => DeviceOf(manifest[i]));
    forall i | 0 <= i < |manifest|
      ensures 0 <= f[i] < |networks| && f[i] < |ordered| && manifest[i] == Frozen(ordered[f[i]])
    {
      var c :| c in networks && manifest[i] == Frozen(c);
      ByDevice(networks, c);
      FrozenDevice(c);
    }
    forall i, j | 0 <= i < j < |f| ensures f[i] < f[j] {
      PlacedAt(networks, f[i]);
      PlacedAt(networks, f[j]);
      assert DeviceLe(manifest[i], manifest[j]);
      DevicesSortAsNumbers(ordered[f[i]], ordered[f[j]]);
      assert manifest[i] != manifest[j];
    }
    RisingIsIndex(f, k);
  }

  function DeviceOf(m: ManifestNic): int {
    if ManifestDevice(m).Some? then ManifestDevice(m).value else -1
  }

  // -------------------------------------------------------------- acceptance

  lemma FrozenIsOk(networks: seq<Candidate>, g: Grammar, c: Candidate)
    requires WellFormed(networks, g) && c in networks && c.device >= 0
    ensures ManifestNicOk(Frozen(c))
  {
    FrozenDevice(c);
  }

  lemma OverrideFacts(networks: seq<Candidate>, overrides: seq<Override>, g: Grammar)
    requires Buildable(networks, overrides, g)
    ensures CanonicalOverrides(Sorted(overrides, OverrideLe), g)
    ensures Devices(Sorted(overrides, OverrideLe)) == Devices(overrides) == Unresolved(networks)
    ensures forall o :: o in Sorted(overrides, OverrideLe) <==> o in overrides
  {
    hide ManifestNetworks, Contiguous;
    CandidateLeIsOrder();
    SortedIs(overrides, OverrideLe);
    SortedMembers(overrides, OverrideLe);
    var s := Sorted(overrides, OverrideLe);
    forall i | 0 <= i < |s| ensures s[i].device >= 0 && g.ipv4(s[i].ip) {
      assert s[i] in s;
      assert s[i].device in Devices(overrides);
    }
    DevicesDistinct(overrides);
    SortedDistinct(overrides, OverrideLe);
    forall i, j | 0 <= i < j < |s| ensures s[i].device < s[j].device {
      assert s[i] in s && s[j] in s && s[i] != s[j];
      assert OverrideLe(s[i], s[j]);
    }
  }

  lemma DevicesDistinct(overrides: seq<Override>)
    requires DistinctOverrides(overrides)
    ensures Distinct(overrides)
    ensures forall a, b :: a in overrides && b in overrides && a.device == b.device ==> a == b
  {
  }

  lemma ManifestAccepted(networks: seq<Candidate>, overrides: seq<Override>, g: Grammar)
    requires WellFormed(networks, g) && Buildable(networks, overrides, g) && |networks| <= 10
    ensures OverridesAccepted(ManifestNetworks(networks), Sorted(overrides, OverrideLe), g)
  {
    hide ManifestNetworks, Sorted, OverridesCover, CanonicalOverrides, ManifestNicOk, ManifestDevice, Frozen;
    var manifest, ordered := ManifestNetworks(networks), Sorted(networks, CandidateLe);
    ManifestIs(networks);
    OverrideFacts(networks, overrides, g);
    forall m | m in manifest ensures ManifestNicOk(m) {
      var c :| c in networks && m == Frozen(c);
      FrozenIsOk(networks, g, c);
    }
    forall i | 0 <= i < |manifest| ensures ManifestDevice(manifest[i]) == Some(i) {
      ManifestInOrder(networks, g, i);
      PlacedAt(networks, i);
      FrozenDevice(ordered[i]);
    }
    RequiredIsUnresolved(networks);
  }

  lemma RequiredIsUnresolved(networks: seq<Candidate>)
    requires forall c :: c in networks ==> c.device >= 0
    ensures Required(ManifestNetworks(networks)) == Unresolved(networks)
    ensures FlaggedDevices(ManifestNetworks(networks)) == Unresolved(networks)
  {
    hide ManifestNetworks, ManifestDevice, DeviceText;
    ManifestIs(networks);
    var manifest := ManifestNetworks(networks);
    forall c | c in networks ensures Frozen(c) in manifest && ManifestDevice(Frozen(c)) == Some(c.device) {
      FrozenDevice(c);
    }
    forall d | d in Unresolved(networks) ensures d in Required(manifest) && d in FlaggedDevices(manifest) {
      var c :| c in networks && c.ip.None? && c.allocation == External && c.device == d;
      assert Frozen(c) in manifest;
    }
  }

  /** What one planned NIC looks like. */
  lemma PlannedNic(networks: seq<Candidate>, overrides: seq<Override>, g: Grammar, plan: NetPlan, i: nat)
    requires Buildable(networks, overrides, g) && PlanOf(networks, overrides, plan)
    requires i < |networks|
    ensures |plan.nics| == |networks| == |Sorted(networks, CandidateLe)|
    ensures var c, p := Sorted(networks, CandidateLe)[i], plan.nics[i];
      && c in networks && c.device == i
      && p.device == i && p.mac == c.mac && p.networkId == c.networkId && p.allocation == c.allocation
      && (if c.ip.None? && c.allocation == External
          then p.ip.Some? && Override(i, p.ip.value) in overrides && g.ipv4(p.ip.value)
          else p.ip == c.ip)
  {
    hide ManifestNetworks, Sorted, FlaggedDevices;
    PlacedAt(networks, i);
    var c := Sorted(networks, CandidateLe)[i];
    if c.ip.None? && c.allocation == External {
      assert i in Unresolved(networks);
      assert i in Devices(overrides);
      var o :| o in overrides && o.device == i;
      assert o == Override(i, o.ip);
    } else {
      assert i !in Devices(overrides) by {
        if i in Unresolved(networks) {
          var d :| d in networks && d.ip.None? && d.allocation == External && d.device == i;
          ByDevice(networks, d);
        }
      }
    }
  }

  lemma NicIsAccepted(networks: seq<Candidate>, overrides: seq<Override>, g: Grammar, plan: NetPlan, i: nat)
    requires WellFormed(networks, g) && Buildable(networks, overrides, g) && PlanOf(networks, overrides, plan)
    requires TightAddresses(g)
    requires |networks| <= 10 && i < |networks| && i < |plan.nics| && i < |ManifestNetworks(networks)|
    ensures NicAccepted(plan.nics[i], ManifestNetworks(networks)[i], i, plan.overrides, g)
  {
    hide ManifestNetworks, Sorted, Buildable, ManifestDevice;
    PlanLength(networks, overrides, g, plan);
    PlannedNic(networks, overrides, g, plan, i);
    ManifestInOrder(networks, g, i);
    OverrideFacts(networks, overrides, g);
    FrozenDevice(Sorted(networks, CandidateLe)[i]);
  }

  lemma IdentitiesDistinct(networks: seq<Candidate>, overrides: seq<Override>, g: Grammar, plan: NetPlan)
    requires WellFormed(networks, g) && Buildable(networks, overrides, g) && PlanOf(networks, overrides, plan)
    ensures DistinctIdentities(plan.nics) && |plan.nics| == |networks|
  {
    hide Sorted, Buildable, Upper;
    PlanLength(networks, overrides, g, plan);
    forall i, j | 0 <= i < j < |plan.nics|
      ensures plan.nics[i].networkId != plan.nics[j].networkId && Upper(plan.nics[i].mac) != Upper(plan.nics[j].mac)
    {
      PlannedNic(networks, overrides, g, plan, i);
      PlannedNic(networks, overrides, g, plan, j);
      var ordered := Sorted(networks, CandidateLe);
      var a :| 0 <= a < |networks| && networks[a] == ordered[i];
      var b :| 0 <= b < |networks| && networks[b] == ordered[j];
      assert a != b;
    }
  }

  lemma PlanLength(networks: seq<Candidate>, overrides: seq<Override>, g: Grammar, plan: NetPlan)
    requires Buildable(networks, overrides, g) && PlanOf(networks, overrides, plan)
    ensures |plan.nics| == |networks| && networks != [] && plan.overrides == Sorted(overrides, OverrideLe)
    ensures Contiguous(Sorted(networks, CandidateLe)) && forall c :: c in networks ==> c.device >= 0
  {
    CandidateLeIsOrder();
    SortedIs(networks, CandidateLe);
  }

  lemma UpToTenAccepted(networks: seq<Candidate>, overrides: seq<Override>, g: Grammar, plan: NetPlan)
    requires WellFormed(networks, g) && Buildable(networks, overrides, g) && PlanOf(networks, overrides, plan)
    requires |networks| <= 10 && TightAddresses(g)
    ensures Accepted(plan, ManifestNetworks(networks), g)
  {
    hide ManifestNetworks, Sorted, WellFormed, Buildable, PlanOf, NicAccepted, OverridesAccepted, DistinctIdentities;
    PlanLength(networks, overrides, g, plan);
    ManifestIs(networks);
    ManifestAccepted(networks, overrides, g);
    IdentitiesDistinct(networks, overrides, g, plan);
    forall i | 0 <= i < |plan.nics|
      ensures NicAccepted(plan.nics[i], ManifestNetworks(networks)[i], i, plan.overrides, g)
    {
      NicIsAccepted(networks, overrides, g, plan, i);
    }
  }

  /** `net10` sorts before `net2`, so with eleven NICs some place holds the wrong one. */
  lemma ElevenMisplaced(networks: seq<Candidate>)
    requires Contiguous(Sorted(networks, CandidateLe)) && |networks| >= 11
    ensures |ManifestNetworks(networks)| == |networks|
    ensures exists i :: 0 <= i < |networks| && ManifestDevice(ManifestNetworks(networks)[i]) != Some(i)
  {
    hide ManifestNetworks, Sorted, ManifestDevice, DeviceText;
    var manifest := ManifestNetworks(networks);
    ManifestIs(networks);
    if ManifestDevice(manifest[2]) == Some(2) && ManifestDevice(manifest[10]) == Some(10) {
      assert manifest[2] in manifest && manifest[10] in manifest;
      var c :| c in networks && manifest[2] == Frozen(c);
      var d :| d in networks && manifest[10] == Frozen(d);
      ByDevice(networks, c);
      ByDevice(networks, d);
      FrozenDevice(c);
      FrozenDevice(d);
      assert DeviceLe(manifest[2], manifest[10]);
      TwoNotBeforeTen();
      assert false;
    }
  }

  lemma TwoNotBeforeTen()
    ensures !TextLe(DeviceText(2), DeviceText(10))
  {
    TenSortsBeforeTwo();
    TextLeAfter("net", Decimal(2), Decimal(10));
  }

  /** Sorted by device and contiguous: then no NIC is listed twice. */
  lemma NoNicTwice(networks: seq<Candidate>)
    requires Contiguous(Sorted(networks, CandidateLe))
    ensures Distinct(networks)
  {
    CandidateLeIsOrder();
    SortedIs(networks, CandidateLe);
    hide Sorted;
    var ordered := Sorted(networks, CandidateLe);
    assert Distinct(ordered);
    forall x ensures multiset(networks)[x] <= 1 { DistinctCounts(ordered, x); }
    CountsDistinct(networks);
  }

  /** What an accepted plan says of one NIC it was made from. */
  lemma AcceptedNic(networks: seq<Candidate>, overrides: seq<Override>, g: Grammar, plan: NetPlan, c: Candidate)
    requires Buildable(networks, overrides, g) && PlanOf(networks, overrides, plan)
    requires Accepted(plan, ManifestNetworks(networks), g) && c in networks
    ensures 0 <= c.device < |plan.nics|
    ensures var p := plan.nics[c.device]; p.networkId == c.networkId && p.mac == c.mac
    ensures g.uuid(c.networkId) && Normalized(c.mac) && g.mac(Upper(c.mac))
    ensures c.ip.Some? ==> c.allocation != ByDhcp && g.ipv4(c.ip.value)
  {
    hide ManifestNetworks, Sorted, Buildable, PlanOf, OverridesAccepted, DistinctIdentities, ManifestDevice;
    PlanLength(networks, overrides, g, plan);
    ByDevice(networks, c);
    PlannedNic(networks, overrides, g, plan, c.device);
    assert NicAccepted(plan.nics[c.device], ManifestNetworks(networks)[c.device], c.device, plan.overrides, g);
  }

  lemma AcceptedIsWellFormed(networks: seq<Candidate>, overrides: seq<Override>, g: Grammar, plan: NetPlan)
    requires Buildable(networks, overrides, g) && PlanOf(networks, overrides, plan)
    requires Accepted(plan, ManifestNetworks(networks), g)
    ensures WellFormed(networks, g)
  {
    assert DistinctIdentities(plan.nics);
    hide ManifestNetworks, Sorted, Buildable, PlanOf, Accepted;
    PlanLength(networks, overrides, g, plan);
    NoNicTwice(networks);
    forall c | c in networks
      ensures g.uuid(c.networkId) && Normalized(c.mac) && g.mac(Upper(c.mac))
      ensures c.ip.Some? ==> c.allocation != ByDhcp && g.ipv4(c.ip.value)
    {
      AcceptedNic(networks, overrides, g, plan, c);
    }
    forall i, j | 0 <= i < j < |networks|
      ensures networks[i].networkId != networks[j].networkId && Upper(networks[i].mac) != Upper(networks[j].mac)
    {
      AcceptedNic(networks, overrides, g, plan, networks[i]);
      AcceptedNic(networks, overrides, g, plan, networks[j]);
      ByDevice(networks, networks[i]);
      ByDevice(networks, networks[j]);
      assert networks[i] != networks[j];
    }
  }

  lemma ElevenRejected(networks: seq<Candidate>, overrides: seq<Override>, g: Grammar, plan: NetPlan)
    requires Buildable(networks, overrides, g) && PlanOf(networks, overrides, plan) && |networks| >= 11
    ensures !Accepted(plan, ManifestNetworks(networks), g)
  {
    hide ManifestNetworks, Sorted, Buildable, PlanOf, OverridesAccepted, DistinctIdentities;
    PlanLength(networks, overrides, g, plan);
    ElevenMisplaced(networks);
    var i :| 0 <= i < |networks| && ManifestDevice(ManifestNetworks(networks)[i]) != Some(i);
    assert !NicAccepted(plan.nics[i], ManifestNetworks(networks)[i], i, plan.overrides, g);
  }

  /** For every list of NICs, in any order, and every override list that planning accepts,
      validation accepts the plan exactly if the NICs are well-formed and at most ten. */
  lemma PlanningAgreesIff(networks: seq<Candidate>, overrides: seq<Override>, g: Grammar, plan: NetPlan)
    requires Buildable(networks, overrides, g) && PlanOf(networks, overrides, plan) && TightAddresses(g)
    ensures Accepted(plan, ManifestNetworks(networks), g) <==> WellFormed(networks, g) && |networks| <= 10
  {
    hide ManifestNetworks, Sorted, WellFormed, Buildable, PlanOf, Accepted;
    if WellFormed(networks, g) && |networks| <= 10 {
      UpToTenAccepted(networks, overrides, g, plan);
    }
    if |networks| > 10 {
      ElevenRejected(networks, overrides, g, plan);
    } else if Accepted(plan, ManifestNetworks(networks), g) {
      AcceptedIsWellFormed(networks, overrides, g, plan);
    }
  }

  /** The comparison of the two unresolved sets during planning never fails. */
  lemma ManifestFlagsAgree(networks: seq<Candidate>)
    requires forall c :: c in networks ==> c.device >= 0
    ensures Unresolved(networks) == FlaggedDevices(ManifestNetworks(networks))
  {
    RequiredIsUnresolved(networks);
  }
}
