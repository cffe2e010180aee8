/** The root disk of a guest, chosen at planning from the live configuration and again at
    validation from the frozen manifest. */
module RootDisk {
  import opened Model
  import opened Text
  import opened Sorting

  /** A disk as `parse_disks` reports it; the media is empty where it is not recorded. */
  datatype Disk = Disk(
    device: string, volume: string, storage: string, size: Option<string>, media: string,
    bootOrder: Option<int>)

  const BUSES := ["ide", "sata", "scsi", "virtio"]

  predicate AllDigits(s: string) {
    forall i :: 0 <= i < |s| ==> '0' <= s[i] <= '9'
  }

  predicate OnBus(device: string, bus: string) {
    |device| > |bus| && device[..|bus|] == bus && AllDigits(device[|bus|..])
  }

  predicate CloudInitAt(volume: string, i: int) {
    0 <= i <= |volume| - 9 && Lower(volume[i..i + 9]) == "cloudinit"
  }

  predicate HasCloudInit(volume: string) {
    exists i :: 0 <= i <= |volume| && CloudInitAt(volume, i)
  }

  predicate Eligible(d: Disk) {
    && (exists b :: b in BUSES && OnBus(d.device, b))
    && !HasCloudInit(d.volume) && d.media != "cdrom"
  }

  predicate BootOrdered(d: Disk) {
    d.bootOrder.Some? && d.bootOrder.value >= 0
  }

  predicate Scsi(d: Disk) {
    |d.device| >= 4 && d.device[..4] == "scsi"
  }

  /** `int` of a text of digits: leading zeros are fine. */
  function DigitsValue(s: string): nat {
    if s == "" || !('0' <= s[|s| - 1] <= '9') then 0
    else 10 * DigitsValue(s[..|s| - 1]) + (s[|s| - 1] as int - '0' as int)
  }

  function ScsiNumber(d: Disk): nat {
    if |d.device| >= 4 then DigitsValue(d.device[4..]) else 0
  }

  function Position(d: Disk): int {
    if d.bootOrder.Some? then d.bootOrder.value else 0
  }

  function FirstPosition(s: seq<Disk>): int
    requires s != []
  {
    if |s| == 1 then Position(s[0])
    else
      var rest := FirstPosition(s[1..]);
      if Position(s[0]) <= rest then Position(s[0]) else rest
  }

  function SelectAt(s: seq<Disk>, position: int): seq<Disk> {
    Keep(s, (d: Disk) => d.bootOrder == Some(position))
  }

  /** `min` by key: the first of the least. */
  function LeastScsi(s: seq<Disk>): Disk
    requires s != []
  {
    if |s| == 1 then s[0]
    else
      var rest := LeastScsi(s[1..]);
      if ScsiNumber(s[0]) <= ScsiNumber(rest) then s[0] else rest
  }

  /** One disk out of the eligible ones, of which some have a boot position. */
  function Decide(eligible: seq<Disk>, ordered: seq<Disk>): Option<Disk> {
    if eligible == [] && ordered == [] then None
    else if ordered != [] then
      var selected := SelectAt(ordered, FirstPosition(ordered));
      if |selected| == 1 then Some(selected[0]) else None
    else if |eligible| == 1 then Some(eligible[0])
    else if forall d :: d in eligible ==> Scsi(d) then Some(LeastScsi(eligible))
    else None
  }

  /** The disk `custom_root_disk_size_gib` settles on. */
  function Chosen(storage: seq<Disk>): Option<Disk> {
    var eligible := Keep(storage, Eligible);
    Decide(eligible, Keep(eligible, BootOrdered))
  }

  // -------------------------------------------------------------------- sizes

  const GIB := 0x4000_0000

  function Multiplier(unit: char): nat {
    match unit
    case 'K' => 0x400
    case 'M' => 0x10_0000
    case 'G' => GIB
    case 'T' => 0x100_0000_0000
    case _ => 0
  }

  /** The size in bytes a text like `32G` stands for. */
  function Bytes(size: string): Option<nat> {
    if |size| < 2 || Multiplier(size[|size| - 1]) == 0 then None
    else
      match ParseDecimal(size[..|size| - 1])
      case None => None
      case Some(n) => if n == 0 then None else Some(n * Multiplier(size[|size| - 1]))
  }

  function SizeGib(d: Disk): Option<nat> {
    if d.size.None? then None
    else
      match Bytes(d.size.value)
      case None => None
      case Some(bytes) =>
        if bytes % GIB == 0 && 1 <= bytes / GIB <= 2147483647 then Some(bytes / GIB) else None
  }

  /** `custom_root_disk_size_gib` */
  function CustomRootDiskSizeGib(storage: seq<Disk>): Option<nat> {
    match Chosen(storage)
    case None => None
    case Some(d) => SizeGib(d)
  }

  /** The answer is exact: so many GiB, and not a byte more or less, within 31 bits. */
  lemma SizeIsExact(d: Disk, gib: nat)
    ensures SizeGib(d) == Some(gib) <==>
      && d.size.Some? && Bytes(d.size.value) == Some(gib * GIB) && 1 <= gib <= 0x7fff_ffff
  {
    if d.size.Some? && Bytes(d.size.value).Some? {
      var bytes := Bytes(d.size.value).value;
      assert bytes == bytes / GIB * GIB + bytes % GIB;
      assert gib * GIB / GIB == gib && gib * GIB % GIB == 0;
    }
  }

  // ----------------------------------------------------- order does not matter

  lemma {:induction false} FirstPositionIs(s: seq<Disk>)
    requires s != []
    ensures exists d :: d in s && Position(d) == FirstPosition(s)
    ensures forall d :: d in s ==> FirstPosition(s) <= Position(d)
  {
    assert s[0] in s;
    if |s| > 1 {
      FirstPositionIs(s[1..]);
      assert s == [s[0]] + s[1..];
      var d :| d in s[1..] && Position(d) == FirstPosition(s[1..]);
      assert d in s;
    }
  }

  lemma {:induction false} LeastScsiIs(s: seq<Disk>)
    requires s != []
    ensures LeastScsi(s) in s
    ensures forall d :: d in s ==> ScsiNumber(LeastScsi(s)) <= ScsiNumber(d)
  {
    if |s| > 1 {
      LeastScsiIs(s[1..]);
      assert s == [s[0]] + s[1..];
    }
  }

  /** The same disks in another order. */
  ghost predicate SameDisks(a: seq<Disk>, b: seq<Disk>) {
    multiset(a) == multiset(b)
  }

  lemma SameDisksFacts(a: seq<Disk>, b: seq<Disk>)
    requires SameDisks(a, b)
    ensures |a| == |b| && forall d :: d in a <==> d in b
    ensures |a| == 1 ==> a == b
  {
    assert |a| == |multiset(a)| == |multiset(b)| == |b|;
    forall d ensures d in a <==> d in b {
      assert d in a <==> d in multiset(a);
      assert d in b <==> d in multiset(b);
    }
    if |a| == 1 {
      assert a[0] in a && a[0] in b;
    }
  }

  lemma KeepSame(a: seq<Disk>, b: seq<Disk>, f: Disk -> bool)
    requires SameDisks(a, b)
    ensures SameDisks(Keep(a, f), Keep(b, f))
  {
    KeepIs(a, f);
    KeepIs(b, f);
    forall d ensures multiset(Keep(a, f))[d] == multiset(Keep(b, f))[d] {}
  }

  /** No two SCSI disks have the same number. */
  ghost predicate ScsiNumbered(storage: seq<Disk>) {
    forall d, e :: d in storage && e in storage && Scsi(d) && Scsi(e) && ScsiNumber(d) == ScsiNumber(e) ==> d == e
  }

  lemma ChosenSame(a: seq<Disk>, b: seq<Disk>)
    requires SameDisks(a, b) && ScsiNumbered(a)
    ensures Chosen(a) == Chosen(b)
  {
    var ea, eb := Keep(a, Eligible), Keep(b, Eligible);
    KeepSame(a, b, Eligible);
    SameDisksFacts(ea, eb);
    var oa, ob := Keep(ea, BootOrdered), Keep(eb, BootOrdered);
    KeepSame(ea, eb, BootOrdered);
    SameDisksFacts(oa, ob);
    if oa != [] {
      FirstPositionIs(oa);
      FirstPositionIs(ob);
      var first := FirstPosition(oa);
      assert first == FirstPosition(ob);
      KeepSame(oa, ob, (d: Disk) => d.bootOrder == Some(first));
      SameDisksFacts(SelectAt(oa, first), SelectAt(ob, first));
    } else if |ea| > 1 && forall d :: d in ea ==> Scsi(d) {
      LeastScsiIs(ea);
      LeastScsiIs(eb);
      KeepIs(a, Eligible);
      assert LeastScsi(ea) in a && LeastScsi(eb) in a;
    }
  }

  // ------------------------------------------------------- the frozen manifest

  /** The manifest keeps device, volume, storage, size and boot order of a disk. */
  function Manifested(d: Disk): Disk {
    d.(media := "")
  }

  function Project(storage: seq<Disk>): seq<Disk> {
    if storage == [] then [] else [Manifested(storage[0])] + Project(storage[1..])
  }

  predicate DiskLe(a: Disk, b: Disk) {
    TextLe(a.device, b.device)
  }

  /** The storage of `build_adoption_manifest`: projected, and sorted by the device text. */
  function ManifestStorage(storage: seq<Disk>): seq<Disk> {
    Sorted(Project(storage), DiskLe)
  }

  ghost predicate NoCdrom(storage: seq<Disk>) {
    forall d :: d in storage ==> d.media != "cdrom"
  }

  lemma {:induction false} ProjectIs(storage: seq<Disk>)
    ensures |Project(storage)| == |storage|
    ensures forall i :: 0 <= i < |storage| ==> Project(storage)[i] == Manifested(storage[i])
  {
    if storage != [] {
      ProjectIs(storage[1..]);
    }
  }

  lemma {:induction false} KeepProject(s: seq<Disk>, f: Disk -> bool)
    requires forall d :: d in s ==> (f(Manifested(d)) <==> f(d))
    ensures Keep(Project(s), f) == Project(Keep(s, f))
  {
    if s != [] {
      var rest := s[1..];
      assert s[0] in s && forall d :: d in rest ==> d in s;
      KeepProject(rest, f);
      assert Project(s)[0] == Manifested(s[0]) && Project(s)[1..] == Project(rest);
      if f(s[0]) {
        var kept := [s[0]] + Keep(rest, f);
        assert Keep(s, f) == kept && kept[0] == s[0] && kept[1..] == Keep(rest, f);
        assert Project(kept) == [Manifested(s[0])] + Project(Keep(rest, f));
      } else {
        assert Keep(s, f) == Keep(rest, f);
      }
    }
  }

  lemma {:induction false} LeastProject(s: seq<Disk>)
    requires s != []
    ensures Project(s) != [] && FirstPosition(Project(s)) == FirstPosition(s)
    ensures LeastScsi(Project(s)) == Manifested(LeastScsi(s))
  {
    assert Project(s)[1..] == Project(s[1..]);
    ProjectIs(s);
    if |s| > 1 {
      LeastProject(s[1..]);
    }
  }

  function ProjectOne(d: Option<Disk>): Option<Disk> {
    match d
    case None => None
    case Some(disk) => Some(Manifested(disk))
  }

  lemma EligibleProject(d: Disk)
    requires d.media != "cdrom"
    ensures Eligible(Manifested(d)) <==> Eligible(d)
  {
    hide HasCloudInit, OnBus;
  }

  lemma SelectProject(s: seq<Disk>, position: int)
    ensures SelectAt(Project(s), position) == Project(SelectAt(s, position))
  {
    KeepProject(s, (d: Disk) => d.bootOrder == Some(position));
  }

  lemma ProjectHead(s: seq<Disk>)
    ensures |Project(s)| == |s| && (s != [] ==> Project(s) != [] && Project(s)[0] == Manifested(s[0]))
  {
    ProjectIs(s);
  }

  lemma DecideProject(eligible: seq<Disk>, ordered: seq<Disk>)
    ensures Decide(Project(eligible), Project(ordered)) == ProjectOne(Decide(eligible, ordered))
  {
    ProjectHead(eligible);
    ProjectHead(ordered);
    AllScsiProject(eligible);
    if ordered != [] {
      LeastProject(ordered);
      SelectProject(ordered, FirstPosition(ordered));
      ProjectHead(SelectAt(ordered, FirstPosition(ordered)));
    } else if eligible != [] {
      LeastProject(eligible);
    }
    hide Keep, SelectAt, FirstPosition, LeastScsi, Project, Scsi;
  }

  lemma ChosenProject(storage: seq<Disk>)
    requires NoCdrom(storage)
    ensures Chosen(Project(storage)) == ProjectOne(Chosen(storage))
  {
    hide Eligible, Keep, Decide, Project;
    forall d | d in storage ensures Eligible(Manifested(d)) <==> Eligible(d) { EligibleProject(d); }
    KeepProject(storage, Eligible);
    var eligible := Keep(storage, Eligible);
    KeepProject(eligible, BootOrdered);
    DecideProject(eligible, Keep(eligible, BootOrdered));
  }

  lemma AllScsiProject(s: seq<Disk>)
    ensures (forall d :: d in Project(s) ==> Scsi(d)) <==> (forall d :: d in s ==> Scsi(d))
  {
    ProjectIs(s);
    if forall d :: d in Project(s) ==> Scsi(d) {
      forall d | d in s ensures Scsi(d) {
        var i :| 0 <= i < |s| && s[i] == d;
        assert Project(s)[i] in Project(s);
      }
    }
    forall d | d in Project(s) ensures exists e :: e in s && d == Manifested(e) {
      ProjectMember(s, d);
    }
  }

  lemma ProjectMember(s: seq<Disk>, d: Disk)
    requires d in Project(s)
    ensures exists e :: e in s && d == Manifested(e)
  {
    ProjectIs(s);
    var i :| 0 <= i < |Project(s)| && Project(s)[i] == d;
    assert s[i] in s;
  }

  lemma DiskLeIsOrder()
    ensures TotalOrder(DiskLe)
  {
    forall a: Disk, b: Disk ensures DiskLe(a, b) || DiskLe(b, a) { TextLeTotal(a.device, b.device); }
    forall a: Disk, b: Disk, c: Disk | DiskLe(a, b) && DiskLe(b, c) ensures DiskLe(a, c) {
      TextLeTransitive(a.device, b.device, c.device);
    }
  }

  lemma SameNumber(d: Disk)
    ensures Scsi(Manifested(d)) <==> Scsi(d)
    ensures ScsiNumber(Manifested(d)) == ScsiNumber(d)
  {
  }

  lemma ProjectNumbered(storage: seq<Disk>)
    requires ScsiNumbered(storage)
    ensures ScsiNumbered(Project(storage))
  {
    hide Scsi, ScsiNumber, Project;
    forall d, e | d in Project(storage) && e in Project(storage) && Scsi(d) && Scsi(e) && ScsiNumber(d) == ScsiNumber(e)
      ensures d == e
    {
      ProjectMember(storage, d);
      ProjectMember(storage, e);
      var x :| x in storage && d == Manifested(x);
      var y :| y in storage && e == Manifested(y);
      SameNumber(x);
      SameNumber(y);
    }
  }

  lemma ProjectSize(d: Disk)
    ensures SizeGib(Manifested(d)) == SizeGib(d)
  {
  }

  /** The size chosen from the live disks is the one validation computes again from the
      manifest, whatever the order of the live disks. */
  lemma RootSizeAgrees(storage: seq<Disk>)
    requires NoCdrom(storage) && ScsiNumbered(storage)
    ensures CustomRootDiskSizeGib(ManifestStorage(storage)) == CustomRootDiskSizeGib(storage)
  {
    DiskLeIsOrder();
    SortedIs(Project(storage), DiskLe);
    ProjectNumbered(storage);
    ChosenSame(Project(storage), ManifestStorage(storage));
    ChosenProject(storage);
    if Chosen(storage).Some? {
      ProjectSize(Chosen(storage).value);
    }
  }

  /** And without any condition on the numbers, if the live disks are listed by their text. */
  lemma RootSizeAgreesInOrder(storage: seq<Disk>)
    requires NoCdrom(storage) && Ordered(storage, DiskLe)
    ensures CustomRootDiskSizeGib(ManifestStorage(storage)) == CustomRootDiskSizeGib(storage)
  {
    ProjectIs(storage);
    SortedAlready(Project(storage), DiskLe);
    ChosenProject(storage);
    if Chosen(storage).Some? {
      ProjectSize(Chosen(storage).value);
    }
  }

  // ------------------------------------------------------ canonical numbers

  lemma {:induction false} ParsedValue(s: string)
    requires ParseDecimal(s).Some?
    ensures DigitsValue(s) == ParseDecimal(s).value
  {
    if |s| > 1 {
      ParsedValue(s[..|s| - 1]);
    }
  }

  /** Distinct devices with canonical numbers have distinct numbers. */
  lemma CanonicalIsNumbered(storage: seq<Disk>)
    requires forall i, j :: 0 <= i < j < |storage| ==> storage[i].device != storage[j].device
    requires forall d :: d in storage && Scsi(d) ==> ParseDecimal(d.device[4..]).Some?
    ensures ScsiNumbered(storage)
  {
    forall d, e | d in storage && e in storage && Scsi(d) && Scsi(e) && ScsiNumber(d) == ScsiNumber(e)
      ensures d == e
    {
      ParsedValue(d.device[4..]);
      ParsedValue(e.device[4..]);
      DecimalOfParse(d.device[4..]);
      DecimalOfParse(e.device[4..]);
      assert d.device == d.device[..4] + d.device[4..] && e.device == e.device[..4] + e.device[4..];
    }
  }
}
