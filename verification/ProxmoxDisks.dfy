/** `parse_disks`: boot positions and disks of a QEMU guest configuration. */
module ProxmoxDisks {
  import opened Model
  import opened Text
  import opened Sorting
  import opened RootDisk

  /** The boot line split at its semicolons, if it has an order, and the legacy boot disk. */
  datatype Boot = Boot(order: Option<seq<string>>, bootdisk: Option<string>)

  /** The value of a disk key, split at its commas and equal signs. */
  datatype Spec = Spec(volume: string, storage: string, size: Option<string>, media: string)

  /** A position the order gives a device: the first place it is listed at. */
  predicate FirstAt(tokens: seq<string>, device: string, position: int) {
    && 0 <= position < |tokens| && device != "" && Strip(tokens[position]) == device
    && forall i :: 0 <= i < position ==> Strip(tokens[i]) != device
  }

  /** Two devices never share a position. */
  ghost predicate Positions(positions: map<string, int>) {
    && (forall d :: d in positions ==> d != "" && positions[d] >= 0)
    && (forall d, e :: d in positions && e in positions && positions[d] == positions[e] ==> d == e)
  }

  /** What the first `n` tokens say: each device at the first place it is listed at. */
  ghost predicate Listed(tokens: seq<string>, n: nat, positions: map<string, int>) {
    && (forall d :: d in positions ==> positions[d] < n && FirstAt(tokens, d, positions[d]))
    && (forall d, at :: at < n && FirstAt(tokens, d, at) ==> d in positions && positions[d] == at)
  }

  method OrderPositions(tokens: seq<string>) returns (positions: map<string, int>)
    ensures Listed(tokens, |tokens|, positions) && Positions(positions)
  {
    hide Strip, Listed;
    positions := map[];
    assert Listed(tokens, 0, positions) by { NothingListed(tokens); }
    for n := 0 to |tokens|
      invariant Listed(tokens, n, positions)
    {
      var device := Strip(tokens[n]);
      ListOneMore(tokens, n, positions);
      if device != "" && device !in positions {
        positions := positions[device := n];
      }
    }
    ListedPositions(tokens, positions);
  }

  lemma NothingListed(tokens: seq<string>)
    ensures Listed(tokens, 0, map[])
  {
  }

  /** `setdefault`: a device keeps the first position it was given. */
  lemma ListOneMore(tokens: seq<string>, n: nat, positions: map<string, int>)
    requires n < |tokens| && Listed(tokens, n, positions)
    ensures var device := Strip(tokens[n]);
      Listed(tokens, n + 1,
             if device != "" && device !in positions then positions[device := n] else positions)
  {
    hide Strip;
    var device := Strip(tokens[n]);
    forall i | 0 <= i < n && Strip(tokens[i]) == device && device != "" ensures device in positions {
      var k := LeastListed(tokens, device, i);
      assert k < n && FirstAt(tokens, device, k);
    }
    var after := if device != "" && device !in positions then positions[device := n] else positions;
    assert forall d :: d in positions ==> 0 <= positions[d] < n && Strip(tokens[positions[d]]) == d;
    forall d | d in after ensures after[d] < n + 1 && FirstAt(tokens, d, after[d]) {}
    forall d, at | at < n + 1 && FirstAt(tokens, d, at) ensures d in after && after[d] == at {
      if at < n {
        assert d in positions && positions[d] == at;
      } else {
        assert d == device;
      }
    }
  }

  lemma LeastListed(tokens: seq<string>, device: string, i: nat) returns (k: nat)
    requires i < |tokens| && device != "" && Strip(tokens[i]) == device
    ensures k <= i && FirstAt(tokens, device, k)
  {
    hide Strip;
    k := 0;
    while Strip(tokens[k]) != device
      invariant k <= i && forall j :: 0 <= j < k ==> Strip(tokens[j]) != device
      decreases i - k
    {
      k := k + 1;
    }
  }

  lemma ListedPositions(tokens: seq<string>, positions: map<string, int>)
    requires Listed(tokens, |tokens|, positions)
    ensures Positions(positions)
  {
    hide Strip;
    forall d, e | d in positions && e in positions && positions[d] == positions[e] ensures d == e {
      assert FirstAt(tokens, d, positions[d]) && FirstAt(tokens, e, positions[e]);
    }
  }

  ghost predicate SomePlace(tokens: seq<string>) {
    exists d, at :: FirstAt(tokens, d, at)
  }

  function OrderTokens(boot: Boot): seq<string> {
    if boot.order.Some? then boot.order.value else []
  }

  function LegacyDisk(boot: Boot): string {
    if boot.bootdisk.Some? then Strip(boot.bootdisk.value) else ""
  }

  /** What the boot line says: the places of its order, or else the one legacy boot disk. */
  ghost predicate BootSays(boot: Boot, positions: map<string, int>) {
    if SomePlace(OrderTokens(boot)) then Listed(OrderTokens(boot), |OrderTokens(boot)|, positions)
    else positions == if LegacyDisk(boot) == "" then map[] else map[LegacyDisk(boot) := 0]
  }

  lemma NothingPlaced(tokens: seq<string>, positions: map<string, int>)
    requires Listed(tokens, |tokens|, positions)
    ensures positions == map[] <==> !SomePlace(tokens)
  {
    hide Strip;
    if positions == map[] {
      forall d, at ensures !FirstAt(tokens, d, at) {
        assert FirstAt(tokens, d, at) ==> at < |tokens|;
      }
    } else {
      var d :| d in positions;
      assert FirstAt(tokens, d, positions[d]);
    }
  }

  method BootPositions(boot: Boot) returns (positions: map<string, int>)
    ensures Positions(positions) && BootSays(boot, positions)
  {
    hide Strip, Listed, FirstAt, SomePlace;
    positions := map[];
    assert Listed([], 0, positions) by { NothingListed([]); }
    if boot.order.Some? {
      positions := OrderPositions(boot.order.value);
    }
    assert Listed(OrderTokens(boot), |OrderTokens(boot)|, positions);
    NothingPlaced(OrderTokens(boot), positions);
    if positions == map[] && boot.bootdisk.Some? && Strip(boot.bootdisk.value) != "" {
      positions := map[Strip(boot.bootdisk.value) := 0];
    }
  }

  predicate DiskKey(key: string) {
    (exists b :: b in BUSES && OnBus(key, b)) || OnBus(key, "efidisk") || OnBus(key, "tpmstate")
  }

  function Parsed(key: string, spec: Spec, positions: map<string, int>): Disk {
    Disk(key, spec.volume, spec.storage, spec.size, if spec.media == "" then "disk" else spec.media,
         if key in positions then Some(positions[key]) else None)
  }

  ghost predicate Listing(keys: seq<string>, config: map<string, Spec>) {
    (forall k :: k in keys <==> k in config) && Distinct(keys)
  }

  ghost predicate DistinctDevices(disks: seq<Disk>) {
    forall i, j :: 0 <= i < j < |disks| ==> disks[i].device != disks[j].device
  }

  /** Boot positions are nonnegative, and no two disks have the same one. */
  ghost predicate DistinctBoots(disks: seq<Disk>) {
    && (forall d :: d in disks && d.bootOrder.Some? ==> d.bootOrder.value >= 0)
    && forall d, e :: d in disks && e in disks && d.bootOrder.Some? && d.bootOrder == e.bootOrder ==> d == e
  }

  lemma TextLeIsOrder()
    ensures TotalOrder(TextLe)
  {
    forall a: string, b: string ensures TextLe(a, b) || TextLe(b, a) { TextLeTotal(a, b); }
    forall a: string, b: string, c: string | TextLe(a, b) && TextLe(b, c) ensures TextLe(a, c) {
      TextLeTransitive(a, b, c);
    }
  }

  predicate Reported(config: map<string, Spec>, key: string)
    requires key in config
  {
    DiskKey(key) && config[key].volume != ""
  }

  ghost predicate FromKey(order: seq<string>, n: nat, config: map<string, Spec>, positions: map<string, int>, d: Disk)
    requires n <= |order| && forall k :: k in order ==> k in config
  {
    exists i :: 0 <= i < n && Reported(config, order[i]) && d == Parsed(order[i], config[order[i]], positions)
  }

  /** The disks of the first `n` keys. */
  ghost predicate DisksOf(order: seq<string>, n: nat, config: map<string, Spec>, positions: map<string, int>,
                          disks: seq<Disk>)
    requires n <= |order| && forall k :: k in order ==> k in config
  {
    && (forall d :: d in disks ==> FromKey(order, n, config, positions, d))
    && (forall i :: 0 <= i < n && Reported(config, order[i]) ==> Parsed(order[i], config[order[i]], positions) in disks)
    && DistinctDevices(disks) && Ordered(disks, DiskLe)
  }

  lemma DisksOneMore(order: seq<string>, n: nat, config: map<string, Spec>, positions: map<string, int>,
                     disks: seq<Disk>)
    requires n < |order| && forall k :: k in order ==> k in config
    requires Distinct(order) && Ordered(order, TextLe)
    requires DisksOf(order, n, config, positions, disks)
    ensures order[n] in config
    ensures DisksOf(order, n + 1, config, positions,
      if Reported(config, order[n]) then disks + [Parsed(order[n], config[order[n]], positions)] else disks)
  {
    hide TextLe, Reported, Parsed;
    assert order[n] in order;
    forall d | d in disks
      ensures d.device != order[n] && TextLe(d.device, order[n]) && FromKey(order, n + 1, config, positions, d)
    {
      KeyBefore(order, n, config, positions, d);
    }
    if Reported(config, order[n]) {
      AddDisk(order, n, config, positions, disks);
    }
  }

  lemma KeyBefore(order: seq<string>, n: nat, config: map<string, Spec>, positions: map<string, int>, d: Disk)
    requires n < |order| && forall k :: k in order ==> k in config
    requires Distinct(order) && Ordered(order, TextLe) && FromKey(order, n, config, positions, d)
    ensures d.device != order[n] && TextLe(d.device, order[n]) && FromKey(order, n + 1, config, positions, d)
  {
    hide TextLe;
    var i :| 0 <= i < n && d == Parsed(order[i], config[order[i]], positions);
  }

  lemma AddDisk(order: seq<string>, n: nat, config: map<string, Spec>, positions: map<string, int>, disks: seq<Disk>)
    requires n < |order| && (forall k :: k in order ==> k in config) && order[n] in config
    requires DisksOf(order, n, config, positions, disks) && Reported(config, order[n])
    requires forall d :: d in disks ==>
      d.device != order[n] && TextLe(d.device, order[n]) && FromKey(order, n + 1, config, positions, d)
    ensures DisksOf(order, n + 1, config, positions, disks + [Parsed(order[n], config[order[n]], positions)])
  {
    hide TextLe, Reported;
    var disk := Parsed(order[n], config[order[n]], positions);
    var more := disks + [disk];
    assert more[|disks|] == disk;
    assert FromKey(order, n + 1, config, positions, disk);
    forall d ensures d in more <==> d in disks || d == disk {}
    forall k | 0 <= k < |disks| ensures disks[k].device != disk.device && DiskLe(disks[k], disk) {
      assert disks[k] in disks;
    }
  }

  lemma BootsDistinct(order: seq<string>, n: nat, config: map<string, Spec>, positions: map<string, int>,
                      disks: seq<Disk>)
    requires n <= |order| && forall k :: k in order ==> k in config
    requires DisksOf(order, n, config, positions, disks) && Positions(positions)
    ensures DistinctBoots(disks)
  {
    hide TextLe, Reported;
    forall d | d in disks ensures exists i :: 0 <= i < n && d == Parsed(order[i], config[order[i]], positions) {
      assert FromKey(order, n, config, positions, d);
    }
    forall d, e | d in disks && e in disks && d.bootOrder.Some? && d.bootOrder == e.bootOrder ensures d == e {
      var i :| 0 <= i < n && d == Parsed(order[i], config[order[i]], positions);
      var j :| 0 <= j < n && e == Parsed(order[j], config[order[j]], positions);
    }
  }

  /** The listed disks are exactly those of the disk keys that name a volume, each with the
      position the boot line gives it and the media it says, or `disk`. They come in the order
      of their keys, each device once, no boot position twice. */
  method ParseDisks(config: map<string, Spec>, keys: seq<string>, boot: Boot)
    returns (disks: seq<Disk>, ghost positions: map<string, int>)
    requires Listing(keys, config)
    ensures BootSays(boot, positions)
    ensures forall d :: d in disks <==>
      d.device in config && Reported(config, d.device) && d == Parsed(d.device, config[d.device], positions)
    ensures DistinctDevices(disks) && DistinctBoots(disks) && Ordered(disks, DiskLe)
  {
    hide Sorted, TextLe, DiskKey, DisksOf, Positions, BootSays, Distinct, Ordered, TotalOrder;
    var bootPositions := BootPositions(boot);
    positions := bootPositions;
    TextLeIsOrder();
    SortedIs(keys, TextLe);
    SortedMembers(keys, TextLe);
    SortedDistinct(keys, TextLe);
    var order := Sorted(keys, TextLe);
    disks := [];
    NoDisksYet(order, config, positions);
    for n := 0 to |order|
      invariant DisksOf(order, n, config, positions, disks)
    {
      DisksOneMore(order, n, config, positions, disks);
      if Reported(config, order[n]) {
        disks := disks + [Parsed(order[n], config[order[n]], bootPositions)];
      }
    }
    BootsDistinct(order, |order|, config, positions, disks);
    AllDisks(order, config, positions, disks);
  }

  lemma NoDisksYet(order: seq<string>, config: map<string, Spec>, positions: map<string, int>)
    requires forall k :: k in order ==> k in config
    ensures DisksOf(order, 0, config, positions, [])
  {
  }

  lemma AllDisks(order: seq<string>, config: map<string, Spec>, positions: map<string, int>, disks: seq<Disk>)
    requires forall k :: k in order <==> k in config
    requires DisksOf(order, |order|, config, positions, disks)
    ensures forall d :: d in disks <==>
      d.device in config && Reported(config, d.device) && d == Parsed(d.device, config[d.device], positions)
    ensures DistinctDevices(disks) && Ordered(disks, DiskLe)
  {
    hide TextLe, Reported;
    forall d | d in disks
      ensures d.device in config && Reported(config, d.device) && d == Parsed(d.device, config[d.device], positions)
    {
      assert FromKey(order, |order|, config, positions, d);
      var i :| 0 <= i < |order| && Reported(config, order[i]) && d == Parsed(order[i], config[order[i]], positions);
    }
    forall d: Disk
      | d.device in config && Reported(config, d.device) && d == Parsed(d.device, config[d.device], positions)
      ensures d in disks
    {
      assert d.device in order;
      var i :| 0 <= i < |order| && order[i] == d.device;
      assert Parsed(order[i], config[order[i]], positions) in disks;
    }
  }

  // ------------------------------------------------- exactly one first disk

  /** Boot positions without a tie: if any disk has one, exactly one disk comes first, so
      the choice by boot order is never ambiguous. */
  lemma BootOrderDecides(storage: seq<Disk>)
    requires DistinctDevices(storage) && DistinctBoots(storage)
    requires exists d :: d in storage && Eligible(d) && BootOrdered(d)
    ensures Chosen(storage).Some?
    ensures var d := Chosen(storage).value;
      && d in storage && Eligible(d) && BootOrdered(d)
      && forall e :: e in storage && Eligible(e) && BootOrdered(e) && e != d ==>
           d.bootOrder.value < e.bootOrder.value
  {
    hide Eligible;
    var eligible := Keep(storage, Eligible);
    KeepIs(storage, Eligible);
    KeepDistinct(storage, Eligible);
    var ordered := Keep(eligible, BootOrdered);
    KeepIs(eligible, BootOrdered);
    KeepDistinct(eligible, BootOrdered);
    var d :| d in storage && Eligible(d) && BootOrdered(d);
    assert d in eligible && d in ordered;
    forall x ensures x in ordered <==> x in storage && Eligible(x) && BootOrdered(x) {}
    var first := FirstPosition(ordered);
    var selected := SelectAt(ordered, first);
    OneComesFirst(storage, ordered);
    assert Chosen(storage) == Some(selected[0]);
  }

  lemma OneComesFirst(storage: seq<Disk>, ordered: seq<Disk>)
    requires DistinctBoots(storage) && Distinct(ordered) && ordered != []
    requires forall x :: x in ordered ==> x in storage && BootOrdered(x)
    ensures var selected := SelectAt(ordered, FirstPosition(ordered));
      && |selected| == 1 && selected[0] in ordered
      && forall x :: x in ordered && x != selected[0] ==> Position(selected[0]) < Position(x)
  {
    FirstPositionIs(ordered);
    var first := FirstPosition(ordered);
    SelectIs(ordered, first);
    hide SelectAt, FirstPosition, Distinct;
    var selected := SelectAt(ordered, first);
    var e :| e in ordered && Position(e) == first;
    assert e in selected;
    forall k | 0 <= k < |selected| ensures selected[k] == e {
      assert selected[k] in selected;
    }
    AtMostOne(selected, e);
  }

  lemma SelectIs(s: seq<Disk>, position: int)
    requires Distinct(s)
    ensures Distinct(SelectAt(s, position))
    ensures forall d :: d in SelectAt(s, position) <==> d in s && d.bootOrder == Some(position)
  {
    var f := (d: Disk) => d.bootOrder == Some(position);
    KeepIs(s, f);
    KeepDistinct(s, f);
  }

  lemma TwoDiffer(s: seq<Disk>)
    requires Distinct(s)
    ensures |s| > 1 ==> s[0] != s[1]
  {
  }

  lemma AtMostOne(s: seq<Disk>, e: Disk)
    requires Distinct(s) && forall k :: 0 <= k < |s| ==> s[k] == e
    ensures |s| <= 1
  {
    hide Distinct;
    TwoDiffer(s);
  }

  // --------------------------------------------- from the configuration on

  function DataDisks(disks: seq<Disk>): seq<Disk> {
    Keep(disks, (d: Disk) => d.media != "cdrom")
  }

  lemma {:induction false} KeepInOrder(s: seq<Disk>, f: Disk -> bool)
    requires Ordered(s, DiskLe)
    ensures Ordered(Keep(s, f), DiskLe)
  {
    hide DiskLe;
    if s != [] {
      var rest := s[1..];
      KeepInOrder(rest, f);
      KeepIs(rest, f);
      forall k | 0 <= k < |Keep(rest, f)| ensures DiskLe(s[0], Keep(rest, f)[k]) {
        assert Keep(rest, f)[k] in rest;
      }
    }
  }

  lemma KeepDevices(s: seq<Disk>, f: Disk -> bool)
    requires DistinctDevices(s)
    ensures DistinctDevices(Keep(s, f))
  {
    KeepIs(s, f);
    KeepDistinct(s, f);
    var kept := Keep(s, f);
    forall i, j | 0 <= i < j < |kept| ensures kept[i].device != kept[j].device {
      assert kept[i] in s && kept[j] in s && kept[i] != kept[j];
    }
  }

  /** For the disks of any guest configuration planning and validation choose the same root
      size, and a boot order that names an eligible disk always decides. */
  lemma LiveDisksAgree(disks: seq<Disk>)
    requires DistinctDevices(disks) && DistinctBoots(disks) && Ordered(disks, DiskLe)
    ensures CustomRootDiskSizeGib(ManifestStorage(DataDisks(disks))) == CustomRootDiskSizeGib(DataDisks(disks))
    ensures (exists d :: d in DataDisks(disks) && Eligible(d) && BootOrdered(d)) ==> Chosen(DataDisks(disks)).Some?
  {
    hide Eligible, ManifestStorage, CustomRootDiskSizeGib, Chosen;
    var data := DataDisks(disks);
    var f := (d: Disk) => d.media != "cdrom";
    KeepIs(disks, f);
    KeepInOrder(disks, f);
    KeepDevices(disks, f);
    RootSizeAgreesInOrder(data);
    if exists d :: d in data && Eligible(d) && BootOrdered(d) {
      BootOrderDecides(data);
    }
  }
}
