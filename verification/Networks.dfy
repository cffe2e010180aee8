/** Network plans: what planning writes down, what the frozen manifest keeps of it, and what
    validation later makes of the two together. */
module Networks {
  import opened Model
  import opened Sorting
  import opened Text

  datatype Allocation = ByCloudStack | ByDhcp | External

  /** One NIC of a candidate's plan. */
  datatype Candidate = Candidate(
    device: int, mac: string, networkId: string, ip: Option<string>, allocation: Allocation)

  /** One NIC of the frozen manifest; the flag is present only if set. */
  datatype ManifestNic = ManifestNic(
    device: string, mac: string, networkId: string, ip: Option<string>, allocation: Allocation,
    overrideRequired: bool)

  /** One NIC of the execution plan. */
  datatype PlanNic = PlanNic(
    device: int, mac: string, networkId: string, ip: Option<string>, allocation: Allocation)

  datatype Override = Override(device: int, ip: string)

  /** What texts are addresses, MACs and UUIDs in canonical form. */
  datatype Grammar = Grammar(ipv4: string -> bool, mac: string -> bool, uuid: string -> bool)

  // ------------------------------------------------------------- the manifest

  function DeviceText(device: int): string {
    "net" + IntText(device)
  }

  function Frozen(c: Candidate): ManifestNic {
    ManifestNic(DeviceText(c.device), c.mac, c.networkId, c.ip, c.allocation,
                c.ip.None? && c.allocation == External)
  }

  predicate DeviceLe(a: ManifestNic, b: ManifestNic) {
    TextLe(a.device, b.device)
  }

  /** The networks of `build_adoption_manifest`: sorted by the text of the device. */
  function ManifestNetworks(networks: seq<Candidate>): seq<ManifestNic> {
    Sorted(seq(|networks|, i requires 0 <= i < |networks| => Frozen(networks[i])), DeviceLe)
  }

  /** `_manifest_network_device_id` on a manifest that always has a device text. */
  function ManifestDevice(nic: ManifestNic): Option<nat> {
    if |nic.device| > 3 && nic.device[..3] == "net" then ParseDecimal(nic.device[3..]) else None
  }

  lemma DeviceTextParses(device: nat)
    ensures |DeviceText(device)| > 3 && DeviceText(device)[..3] == "net"
    ensures ParseDecimal(DeviceText(device)[3..]) == Some(device)
  {
    DecimalIsDigits(device);
    assert DeviceText(device)[3..] == Decimal(device);
    ParseOfDecimal(device);
  }

  lemma DeviceLeIsOrder()
    ensures TotalOrder(DeviceLe)
  {
    forall a: ManifestNic, b: ManifestNic ensures DeviceLe(a, b) || DeviceLe(b, a) {
      TextLeTotal(a.device, b.device);
    }
    forall a: ManifestNic, b: ManifestNic, c: ManifestNic | DeviceLe(a, b) && DeviceLe(b, c) ensures DeviceLe(a, c) {
      TextLeTransitive(a.device, b.device, c.device);
    }
  }

  // ------------------------------------------------------------- the overrides

  /** The NICs whose address an operator has to supply. */
  function Unresolved(networks: seq<Candidate>): set<int> {
    set c | c in networks && c.ip.None? && c.allocation == External :: c.device
  }

  function FlaggedDevices(manifest: seq<ManifestNic>): set<int> {
    set m | m in manifest && ManifestDevice(m).Some? && m.ip.None? && m.overrideRequired ::
      ManifestDevice(m).value as int
  }

  predicate DistinctOverrides(overrides: seq<Override>) {
    forall i, j :: 0 <= i < j < |overrides| ==>
      overrides[i].device != overrides[j].device && overrides[i].ip != overrides[j].ip
  }

  function Devices(overrides: seq<Override>): set<int> {
    set o | o in overrides :: o.device
  }

  predicate OverridesCover(networks: seq<Candidate>, overrides: seq<Override>, g: Grammar) {
    && Unresolved(networks) == FlaggedDevices(ManifestNetworks(networks))
    && DistinctOverrides(overrides) && (forall o :: o in overrides ==> g.ipv4(o.ip))
    && Devices(overrides) == Unresolved(networks)
  }

  ghost predicate MapOf(overrides: seq<Override>, addresses: map<int, string>) {
    && addresses.Keys == Devices(overrides)
    && forall o :: o in overrides ==> o.device in addresses && addresses[o.device] == o.ip
  }

  /** The `planned` dictionary: of several candidates for one device the last one counts. */
  function LastOf(networks: seq<Candidate>, device: int): Option<Candidate> {
    if networks == [] then None
    else if networks[|networks| - 1].device == device then Some(networks[|networks| - 1])
    else LastOf(networks[..|networks| - 1], device)
  }

  lemma {:induction false} LastOfIs(networks: seq<Candidate>, device: int)
    ensures LastOf(networks, device).Some? ==>
      LastOf(networks, device).value in networks && LastOf(networks, device).value.device == device
    ensures LastOf(networks, device).None? ==> forall c :: c in networks ==> c.device != device
  {
    if networks != [] {
      LastOfIs(networks[..|networks| - 1], device);
      assert networks == networks[..|networks| - 1] + [networks[|networks| - 1]];
    }
  }

  /** No NIC that needs an address is overtaken by a later one of its device that has one. */
  predicate StillUnresolved(networks: seq<Candidate>) {
    forall d :: d in Unresolved(networks) ==>
      LastOf(networks, d).Some? && LastOf(networks, d).value.ip.None?
  }

  /** The last loop of `_validated_network_ip_override_map`. */
  method CheckUnresolved(networks: seq<Candidate>) returns (ok: bool)
    ensures ok <==> StillUnresolved(networks)
  {
    var planned: map<int, Candidate> := map[];
    for n := 0 to |networks|
      invariant forall d :: d in planned <==> LastOf(networks[..n], d).Some?
      invariant forall d :: d in planned ==> LastOf(networks[..n], d) == Some(planned[d])
    {
      planned := planned[networks[n].device := networks[n]];
      assert networks[..n + 1][..n] == networks[..n];
    }
    assert networks[..|networks|] == networks;
    ok := forall d :: d in Unresolved(networks) ==> d in planned && planned[d].ip.None?;
  }

  /** `_validated_network_ip_override_map` */
  method ValidatedOverrideMap(networks: seq<Candidate>, overrides: seq<Override>, g: Grammar)
    returns (r: Option<map<int, string>>)
    ensures r.Some? <==> OverridesCover(networks, overrides, g) && StillUnresolved(networks)
    ensures r.Some? ==> MapOf(overrides, r.value)
  {
    hide ManifestNetworks, ManifestDevice, StillUnresolved;
    var unresolved := Unresolved(networks);
    if unresolved != FlaggedDevices(ManifestNetworks(networks)) {
      return None;
    }
    var result: map<int, string> := map[];
    var seenIps: set<string> := {};
    for n := 0 to |overrides|
      invariant DistinctOverrides(overrides[..n]) && forall o :: o in overrides[..n] ==> g.ipv4(o.ip)
      invariant MapOf(overrides[..n], result)
      invariant forall ip :: ip in seenIps <==> exists o :: o in overrides[..n] && o.ip == ip
    {
      var o := overrides[n];
      assert overrides[..n + 1] == overrides[..n] + [o];
      if o.device in result || !g.ipv4(o.ip) || o.ip in seenIps {
        assert o in overrides;
        ClashesBefore(overrides, n);
        return None;
      }
      assert forall x :: x in overrides[..n + 1] <==> x in overrides[..n] || x == o;
      seenIps := seenIps + {o.ip};
      result := result[o.device := o.ip];
    }
    assert overrides[..|overrides|] == overrides;
    if result.Keys != unresolved {
      return None;
    }
    var ok := CheckUnresolved(networks);
    return if ok then Some(result) else None;
  }

  lemma ClashesBefore(overrides: seq<Override>, n: nat)
    requires n < |overrides|
    ensures DistinctOverrides(overrides) ==>
      forall o :: o in overrides[..n] ==> o.device != overrides[n].device && o.ip != overrides[n].ip
  {
  }

  // --------------------------------------------------------------- the plan

  datatype NetPlan = NetPlan(nics: seq<PlanNic>, overrides: seq<Override>)

  predicate CandidateLe(a: Candidate, b: Candidate) {
    a.device <= b.device
  }

  predicate OverrideLe(a: Override, b: Override) {
    a.device <= b.device
  }

  predicate Contiguous(ordered: seq<Candidate>) {
    forall i :: 0 <= i < |ordered| ==> ordered[i].device == i
  }

  function Planned(c: Candidate, addresses: map<int, string>): PlanNic {
    PlanNic(c.device, c.mac, c.networkId,
            if c.device in addresses then Some(addresses[c.device]) else c.ip, c.allocation)
  }

  predicate Buildable(networks: seq<Candidate>, overrides: seq<Override>, g: Grammar) {
    && networks != [] && (forall c :: c in networks ==> c.device >= 0)
    && Contiguous(Sorted(networks, CandidateLe)) && OverridesCover(networks, overrides, g)
  }

  /** The plan's NICs in device order, each with its own or the operator's address. */
  ghost predicate PlanOf(networks: seq<Candidate>, overrides: seq<Override>, plan: NetPlan) {
    var ordered := Sorted(networks, CandidateLe);
    && |plan.nics| == |ordered|
    && (forall i :: 0 <= i < |ordered| ==>
          && plan.nics[i].device == ordered[i].device && plan.nics[i].mac == ordered[i].mac
          && plan.nics[i].networkId == ordered[i].networkId && plan.nics[i].allocation == ordered[i].allocation
          && (ordered[i].device !in Devices(overrides) ==> plan.nics[i].ip == ordered[i].ip)
          && (forall o :: o in overrides && o.device == ordered[i].device ==> plan.nics[i].ip == Some(o.ip)))
    && plan.overrides == Sorted(overrides, OverrideLe)
  }

  /** Where no device occurs twice, the last check never fails. */
  lemma ContiguousIsUnresolved(networks: seq<Candidate>)
    requires Contiguous(Sorted(networks, CandidateLe))
    ensures StillUnresolved(networks)
  {
    CandidateLeIsOrder();
    SortedIs(networks, CandidateLe);
    SortedMembers(networks, CandidateLe);
    hide Sorted;
    forall d | d in Unresolved(networks)
      ensures LastOf(networks, d).Some? && LastOf(networks, d).value.ip.None?
    {
      var c :| c in networks && c.ip.None? && c.allocation == External && c.device == d;
      LastOfIs(networks, d);
      var last := LastOf(networks, d).value;
      assert last in Sorted(networks, CandidateLe) && c in Sorted(networks, CandidateLe);
    }
  }

  /** The networks of `_build_execution_plan`. */
  method BuildExecutionPlan(networks: seq<Candidate>, overrides: seq<Override>, g: Grammar)
    returns (r: Option<NetPlan>)
    ensures r.Some? <==> Buildable(networks, overrides, g)
    ensures r.Some? ==> PlanOf(networks, overrides, r.value)
  {
    hide OverridesCover, Sorted, StillUnresolved;
    if networks == [] {
      return None;
    }
    if exists c :: c in networks && c.device < 0 {
      return None;
    }
    var ordered := Sorted(networks, CandidateLe);
    if !Contiguous(ordered) {
      return None;
    }
    ContiguousIsUnresolved(networks);
    var addresses := ValidatedOverrideMap(networks, overrides, g);
    if addresses.None? {
      return None;
    }
    var nics := seq(|ordered|, i requires 0 <= i < |ordered| => Planned(ordered[i], addresses.value));
    forall i, o | 0 <= i < |ordered| && o in overrides && o.device == ordered[i].device
      ensures nics[i].ip == Some(o.ip)
    {
      assert o.device in Devices(overrides);
    }
    return Some(NetPlan(nics, Sorted(overrides, OverrideLe)));
  }

  // --------------------------------------------------------------- validation

  predicate ManifestNicOk(m: ManifestNic) {
    && ManifestDevice(m).Some?
    && (m.ip.None? ==> (m.overrideRequired <==> m.allocation == External))
    && (m.ip.Some? ==> m.allocation != ByDhcp && !m.overrideRequired)
  }

  predicate DistinctDevices(manifest: seq<ManifestNic>) {
    forall i, j :: 0 <= i < j < |manifest| ==> ManifestDevice(manifest[i]) != ManifestDevice(manifest[j])
  }

  function Required(manifest: seq<ManifestNic>): set<int> {
    set m | m in manifest && ManifestDevice(m).Some? && m.ip.None? && m.allocation == External ::
      ManifestDevice(m).value as int
  }

  /** Sorted by device, no device twice, every address valid. */
  predicate CanonicalOverrides(overrides: seq<Override>, g: Grammar) {
    && (forall i :: 0 <= i < |overrides| ==> overrides[i].device >= 0 && g.ipv4(overrides[i].ip))
    && (forall i, j :: 0 <= i < j < |overrides| ==> overrides[i].device < overrides[j].device)
  }

  /** What `_validated_execution_time_ip_overrides` accepts. */
  predicate OverridesAccepted(manifest: seq<ManifestNic>, overrides: seq<Override>, g: Grammar) {
    && (forall m :: m in manifest ==> ManifestNicOk(m)) && DistinctDevices(manifest)
    && CanonicalOverrides(overrides, g) && Devices(overrides) == Required(manifest)
  }

  /** The NIC at place `i` of the plan against the one at place `i` of the manifest. */
  predicate NicAccepted(p: PlanNic, m: ManifestNic, i: int, overrides: seq<Override>, g: Grammar) {
    && p.device == i && g.uuid(p.networkId) && Normalized(p.mac) && g.mac(Upper(p.mac))
    && (p.ip.None? ==> p.allocation != External)
    && (p.ip.Some? ==> p.allocation != ByDhcp && Normalized(p.ip.value) && g.ipv4(p.ip.value))
    && ManifestDevice(m).Some? && ManifestDevice(m).value == i
    && m.networkId == p.networkId && Upper(m.mac) == Upper(p.mac)
    && (m.ip.Some? ==> m.ip == p.ip)
    && (m.ip.None? && p.allocation == External ==>
          m.overrideRequired && p.ip.Some? && Override(i, p.ip.value) in overrides)
    && (m.ip.None? && p.allocation != External ==>
          !m.overrideRequired && m.allocation == p.allocation && p.ip.None?)
  }

  predicate DistinctIdentities(nics: seq<PlanNic>) {
    forall i, j :: 0 <= i < j < |nics| ==>
      nics[i].networkId != nics[j].networkId && Upper(nics[i].mac) != Upper(nics[j].mac)
  }

  /** What the network part of `validate_execution_plan` accepts. */
  predicate Accepted(plan: NetPlan, manifest: seq<ManifestNic>, g: Grammar) {
    && plan.nics != [] && |manifest| == |plan.nics|
    && OverridesAccepted(manifest, plan.overrides, g)
    && (forall i :: 0 <= i < |plan.nics| ==> NicAccepted(plan.nics[i], manifest[i], i, plan.overrides, g))
    && DistinctIdentities(plan.nics)
  }

  method ValidatedOverrides(manifest: seq<ManifestNic>, overrides: seq<Override>, g: Grammar) returns (ok: bool)
    ensures ok <==> OverridesAccepted(manifest, overrides, g)
  {
    hide ManifestDevice;
    var required: set<int> := {};
    var seen: set<nat> := {};
    for n := 0 to |manifest|
      invariant forall m :: m in manifest[..n] ==> ManifestNicOk(m)
      invariant DistinctDevices(manifest[..n])
      invariant forall d :: d in seen <==> exists m :: m in manifest[..n] && ManifestDevice(m) == Some(d)
      invariant required == Required(manifest[..n])
    {
      var m := manifest[n];
      assert manifest[..n + 1] == manifest[..n] + [m];
      if !ManifestNicOk(m) || ManifestDevice(m).value in seen {
        assert m in manifest;
        RepeatedDevice(manifest, n);
        return false;
      }
      assert forall x :: x in manifest[..n + 1] <==> x in manifest[..n] || x == m;
      seen := seen + {ManifestDevice(m).value};
      if m.ip.None? && m.allocation == External {
        required := required + {ManifestDevice(m).value as int};
      }
    }
    assert manifest[..|manifest|] == manifest;
    ok := CanonicalOverrides(overrides, g) && Devices(overrides) == required;
  }

  lemma RepeatedDevice(manifest: seq<ManifestNic>, n: nat)
    requires n < |manifest|
    ensures DistinctDevices(manifest) ==>
      forall m :: m in manifest[..n] ==> ManifestDevice(m) != ManifestDevice(manifest[n])
  {
  }

  /** The networks of the plan, checked one by one, with the MACs put into capitals. */
  method ValidatePlanNetworks(plan: NetPlan, manifest: seq<ManifestNic>, g: Grammar)
    returns (r: Option<seq<PlanNic>>)
    ensures r.Some? <==> Accepted(plan, manifest, g)
    ensures r.Some? ==> |r.value| == |plan.nics| && forall i :: 0 <= i < |r.value| ==>
      r.value[i] == plan.nics[i].(mac := Upper(plan.nics[i].mac))
  {
    hide NicAccepted, OverridesAccepted;
    if plan.nics == [] || |manifest| != |plan.nics| {
      return None;
    }
    var ok := ValidatedOverrides(manifest, plan.overrides, g);
    if !ok {
      return None;
    }
    var canonical: seq<PlanNic> := [];
    var seenNetworks: set<string> := {};
    var seenMacs: set<string> := {};
    for n := 0 to |plan.nics|
      invariant forall i :: 0 <= i < n ==> NicAccepted(plan.nics[i], manifest[i], i, plan.overrides, g)
      invariant DistinctIdentities(plan.nics[..n])
      invariant forall x :: x in seenNetworks <==> exists i :: 0 <= i < n && plan.nics[i].networkId == x
      invariant forall x :: x in seenMacs <==> exists i :: 0 <= i < n && Upper(plan.nics[i].mac) == x
      invariant |canonical| == n && forall i :: 0 <= i < n ==>
        canonical[i] == plan.nics[i].(mac := Upper(plan.nics[i].mac))
    {
      var p := plan.nics[n];
      if !NicAccepted(p, manifest[n], n, plan.overrides, g) || p.networkId in seenNetworks || Upper(p.mac) in seenMacs {
        return None;
      }
      assert plan.nics[..n + 1] == plan.nics[..n] + [p];
      seenNetworks := seenNetworks + {p.networkId};
      seenMacs := seenMacs + {Upper(p.mac)};
      canonical := canonical + [p.(mac := Upper(p.mac))];
    }
    assert plan.nics[..|plan.nics|] == plan.nics;
    return Some(canonical);
  }

  // ---------------------------------------------------- the two in agreement

  /** Canonical MACs and addresses, network ids in UUID form, no network and no MAC twice:
      planning checks none of this, and neither does the listing its NICs come from. */
  ghost predicate WellFormed(networks: seq<Candidate>, g: Grammar) {
    && (forall c :: c in networks ==>
          && g.uuid(c.networkId) && Normalized(c.mac) && g.mac(Upper(c.mac))
          && (c.ip.Some? ==> c.allocation != ByDhcp && g.ipv4(c.ip.value)))
    && (forall i, j :: 0 <= i < j < |networks| ==>
          networks[i].networkId != networks[j].networkId && Upper(networks[i].mac) != Upper(networks[j].mac))
  }

  /** No text with blanks around it is an address. */
  ghost predicate TightAddresses(g: Grammar) {
    forall s :: g.ipv4(s) ==> Normalized(s)
  }

  lemma CandidateLeIsOrder()
    ensures TotalOrder(CandidateLe) && TotalOrder(OverrideLe)
  {
  }

  lemma {:induction false} RisingIsIndex(f: seq<int>, i: nat)
    requires forall i :: 0 <= i < |f| ==> 0 <= f[i] < |f|
    requires forall i, j :: 0 <= i < j < |f| ==> f[i] < f[j]
    requires i < |f|
    ensures f[i] == i
  {
    RisingAtLeast(f, i);
    RisingAtMost(f, i);
  }

  lemma {:induction false} RisingAtLeast(f: seq<int>, i: nat)
    requires forall i, j :: 0 <= i < j < |f| ==> f[i] < f[j]
    requires i < |f| && 0 <= f[0]
    ensures f[i] >= i
  {
    if i > 0 {
      RisingAtLeast(f, i - 1);
    }
  }

  lemma {:induction false} RisingAtMost(f: seq<int>, i: nat)
    requires forall i, j :: 0 <= i < j < |f| ==> f[i] < f[j]
    requires i < |f| && f[|f| - 1] < |f|
    ensures f[i] <= i
    decreases |f| - i
  {
    if i < |f| - 1 {
      RisingAtMost(f, i + 1);
    }
  }
}
