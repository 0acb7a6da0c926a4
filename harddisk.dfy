/**
 * Device-name and partition-list logic of the hard-disk manager, the idle/sleep
 * state machine of one disk and its capacity text.  A missing device name or
 * mountpoint (None in the source) is the empty string here: the code only ever
 * tests them for truthiness.
 */
module Harddisk {
  import opened Text
  import opened Numbers
  import opened Lists

  /** One line of /proc/mounts: the device, the mount path and the file-system type. */
  datatype MountEntry = MountEntry(device: string, path: string, fsType: string)

  datatype Partition = Partition(
    mountpoint: string,
    device: string,
    description: string,
    shortDescription: string,
    forceMounted: bool,
    isHotplug: bool)

  /** Partition(...): force_mounted only holds with a mountpoint; it also marks the partition hotplug. */
  function NewPartition(mountpoint: string, device: string, description: string,
                        shortDescription: string, forceMounted: bool): (p: Partition)
    ensures p.forceMounted ==> p.mountpoint != ""
    ensures p.shortDescription == "" ==> p.description == ""
  {
    Partition(mountpoint, device, description,
              if shortDescription == "" then description else shortDescription,
              mountpoint != "" && forceMounted, forceMounted)
  }

  ////////////////////////////////////////////////////////////////////////////
  // Partition.mounted, Partition.filesystem, Partition.getFsUserFriendlyType

  function AnyMountPrefix(mountpoint: string, mounts: seq<MountEntry>): (r: bool)
    ensures r <==> exists i :: 0 <= i < |mounts| && StartsWith(mountpoint, mounts[i].path)
  {
    if mounts == [] then false
    else StartsWith(mountpoint, mounts[0].path) || AnyMountPrefix(mountpoint, mounts[1..])
  }

  /** A partition is mounted when forced, or when some mount path is a prefix of its mountpoint. */
  function Mounted(p: Partition, mounts: seq<MountEntry>): (r: bool)
    ensures p.forceMounted ==> r
    ensures !p.forceMounted ==>
      (r <==> p.mountpoint != "" && exists i :: 0 <= i < |mounts| && StartsWith(p.mountpoint, mounts[i].path))
  {
    if p.forceMounted then true
    else if p.mountpoint != "" then AnyMountPrefix(p.mountpoint, mounts)
    else false
  }

  /** A mount path names the mountpoint, allowing the mountpoint one trailing '/' (except "/"). */
  predicate PathNames(mountpoint: string, path: string) {
    if EndsWith(mountpoint, "/") && mountpoint != "/" then path + "/" == mountpoint
    else path == mountpoint
  }

  function FirstFsType(mountpoint: string, mounts: seq<MountEntry>): (r: string)
    ensures (forall i :: 0 <= i < |mounts| ==> !PathNames(mountpoint, mounts[i].path)) ==> r == ""
    ensures forall i :: (0 <= i < |mounts| && PathNames(mountpoint, mounts[i].path)
      && (forall j :: 0 <= j < i ==> !PathNames(mountpoint, mounts[j].path))) ==> r == mounts[i].fsType
  {
    if mounts == [] then ""
    else if PathNames(mountpoint, mounts[0].path) then mounts[0].fsType
    else FirstFsType(mountpoint, mounts[1..])
  }

  /** The file-system type of the first mount entry naming the mountpoint, "" when none does. */
  function Filesystem(p: Partition, mounts: seq<MountEntry>): (r: string)
    ensures p.mountpoint == "" ==> r == ""
    ensures p.mountpoint != "" ==> r == FirstFsType(p.mountpoint, mounts)
  {
    if p.mountpoint != "" then FirstFsType(p.mountpoint, mounts) else ""
  }

  const FsUserFriendlyTypes: map<string, string> := map[
    "exfat" := "exFAT", "hfs" := "HFS", "hfsplus" := "HFS+", "iso9660" := "ISO9660",
    "msdos" := "FAT", "ntfs" := "NTFS", "squashfs" := "Squashfs", "ubifs" := "UBIFS",
    "udf" := "UDF", "vfat" := "FAT", "yaffs" := "YAFFS1", "yaffs2" := "YAFFS2"]

  /** The table's name for a known type, the type itself otherwise, "Unknown" for no type. */
  function FsUserFriendlyType(fsType: string): (r: string)
    ensures r != ""
    ensures fsType in FsUserFriendlyTypes ==> r == FsUserFriendlyTypes[fsType]
    ensures fsType !in FsUserFriendlyTypes && fsType != "" ==> r == fsType
    ensures fsType == "" ==> r == "Unknown"
  {
    if fsType in FsUserFriendlyTypes then FsUserFriendlyTypes[fsType]
    else if fsType != "" then fsType
    else "Unknown"
  }

  ////////////////////////////////////////////////////////////////////////////
  // HarddiskManager.splitDeviceName

  /** The names `^mmcblk\d(?:p\d+$|$)` matches. */
  predicate IsMmcName(s: string) {
    |s| >= 7 && s[..6] == "mmcblk" && IsDigit(s[6])
    && (|s| == 7 || (|s| >= 9 && s[7] == 'p' && AllDigits(s[8..])))
  }

  /** The name continues at `start` with one or more decimal digits worth n. */
  predicate NumberedFrom(devname: string, start: nat, n: nat) {
    start < |devname| && AllDigits(devname[start..])
    && AllBaseDigits(devname[start..], 10) && BaseValue(devname[start..], 10) == n
  }

  /**
   * Splits a kernel device name into the whole-disk name and the partition
   * number: "mmcblkNpK" and three-letter names followed by digits split;
   * anything else, "ram" devices included, comes back whole with partition 0.
   */
  function SplitDeviceName(devname: string): (r: (string, nat))
    ensures StartsWith(devname, r.0)
    ensures r.1 > 0 ==> NumberedFrom(devname, |r.0| + (if IsMmcName(devname) then 1 else 0), r.1)
    ensures |devname| <= 3 ==> r == (devname, 0)
    ensures IsMmcName(devname) ==> r.0 == devname[..7]
    ensures IsMmcName(devname) && |devname| == 7 ==> r.1 == 0
    ensures IsMmcName(devname) && |devname| > 7 ==> NumberedFrom(devname, 8, r.1)
    ensures (!IsMmcName(devname) && |devname| > 3
      && (devname[..3] == "ram" || !AllDigits(devname[3..]))) ==> r == (devname, 0)
    ensures (!IsMmcName(devname) && |devname| > 3 && devname[..3] != "ram" && AllDigits(devname[3..]))
      ==> r.0 == devname[..3] && NumberedFrom(devname, 3, r.1)
  {
    if IsMmcName(devname) then
      if |devname| == 7 then (devname[..7], 0)
      else
        assert AllBaseDigits(devname[8..], 10);
        (devname[..7], BaseValue(devname[8..], 10))
    else if |devname| <= 3 then (devname, 0)
    else
      var dev := devname[..3];
      var part := devname[3..];
      if !AllDigits(part) || dev == "ram" then (devname, 0)
      else
        assert AllBaseDigits(part, 10);
        (dev, BaseValue(part, 10))
  }

  lemma SplitDeviceNameExamples()
    ensures SplitDeviceName("sda1") == ("sda", 1)
    ensures SplitDeviceName("sda") == ("sda", 0)
    ensures SplitDeviceName("mmcblk0p2") == ("mmcblk0", 2)
    ensures SplitDeviceName("ram0") == ("ram0", 0)
    ensures SplitDeviceName("sdax") == ("sdax", 0)
  {
    assert "sda1"[..3] == "sda" && "sda1"[3..] == "1";
    assert BaseValue("1", 10) == 1 by {
      assert "1"[..0] == "";
    }
    assert "mmcblk0p2"[..6] == "mmcblk" && "mmcblk0p2"[..7] == "mmcblk0";
    assert "mmcblk0p2"[8..] == "2";
    assert IsMmcName("mmcblk0p2");
    assert BaseValue("2", 10) == 2 by {
      assert "2"[..0] == "";
    }
    assert !IsMmcName("ram0") && !IsMmcName("sdax");
    assert "sdax"[3..] == "x" && !IsDigit("sdax"[3..][0]);
    assert !AllDigits("sdax"[3..]);
  }

  ////////////////////////////////////////////////////////////////////////////
  // HarddiskManager: the partition list

  /** The partitions `[x for x in partitions if (x.is_hotplug or not onlyhotplug) and x.mounted(mounts)]`. */
  function Candidates(ps: seq<Partition>, onlyHotplug: bool, mounts: seq<MountEntry>): (r: seq<Partition>)
    ensures forall p :: p in r <==> p in ps && (p.isHotplug || !onlyHotplug) && Mounted(p, mounts)
    ensures Subsequence(r, ps)
    ensures forall p | p in ps :: multiset(r)[p] == if (p.isHotplug || !onlyHotplug) && Mounted(p, mounts) then multiset(ps)[p] else 0
  {
    if ps == [] then []
    else
      var rest := Candidates(ps[1..], onlyHotplug, mounts);
      assert multiset(ps) == multiset{ps[0]} + multiset(ps[1..]) by { assert ps == [ps[0]] + ps[1..]; }
      if (ps[0].isHotplug || !onlyHotplug) && Mounted(ps[0], mounts) then [ps[0]] + rest else rest
  }

  function Devices(ps: seq<Partition>): set<string> {
    set p | p in ps :: p.device
  }

  /** The whole disks of the numbered partitions among the device names. */
  function WholeDisks(devs: set<string>): set<string> {
    set d | d in devs && d != "" && SplitDeviceName(d).1 != 0 :: SplitDeviceName(d).0
  }

  lemma KeepListedIff(parts: seq<Partition>, mounts: seq<MountEntry>, onlyHotplug: bool, ps: seq<Partition>)
    requires parts == Candidates(ps, onlyHotplug, mounts)
    ensures forall p :: p in KeepListed(parts, Devices(parts) - WholeDisks(Devices(parts))) <==>
      p in ps && (p.isHotplug || !onlyHotplug) && Mounted(p, mounts)
      && (p.device == "" || p.device !in WholeDisks(Devices(parts)))
  {
    forall p | p in parts
      ensures p.device in Devices(parts)
    {
    }
  }

  /** Moving one name from the names still to scan to the scanned ones. */
  lemma MoveDone(all: set<string>, todo: set<string>, done: set<string>, d: string)
    requires todo <= all && done == all - todo && d in todo
    ensures todo - {d} <= all && done + {d} == all - (todo - {d})
  {
  }

  lemma WholeDisksStep(all: set<string>, done: set<string>, d: string, before: set<string>, after: set<string>)
    requires before == all - WholeDisks(done)
    requires after == if d != "" && SplitDeviceName(d).1 != 0 && SplitDeviceName(d).0 in before
                      then before - {SplitDeviceName(d).0} else before
    ensures after == all - WholeDisks(done + {d})
  {
    assert WholeDisks(done + {d}) == WholeDisks(done)
      + (if d != "" && SplitDeviceName(d).1 != 0 then {SplitDeviceName(d).0} else {});
  }

  /** `not x.device or x.device in devs` */
  predicate Listed(p: Partition, devs: set<string>) {
    p.device == "" || p.device in devs
  }

  /** `[x for x in parts if not x.device or x.device in devs]`. */
  function KeepListed(ps: seq<Partition>, devs: set<string>): (r: seq<Partition>)
    ensures forall p :: p in r <==> p in ps && Listed(p, devs)
    ensures |r| <= |ps|
    ensures Subsequence(r, ps)
    ensures forall p | p in ps :: multiset(r)[p] == if Listed(p, devs) then multiset(ps)[p] else 0
  {
    if ps == [] then []
    else
      var rest := KeepListed(ps[1..], devs);
      assert multiset(ps) == multiset{ps[0]} + multiset(ps[1..]) by { assert ps == [ps[0]] + ps[1..]; }
      if Listed(ps[0], devs) then [ps[0]] + rest else rest
  }

  predicate DistinctMountpoints(ps: seq<Partition>) {
    forall i, j :: 0 <= i < j < |ps| ==> ps[i].mountpoint != ps[j].mountpoint
  }

  /** A mountpoint with the trailing '/' the manager insists on. */
  function WithTrailingSlash(path: string): (r: string)
    ensures path != "" ==> EndsWith(r, "/")
    ensures EndsWith(path, "/") || path == "" ==> r == path
  {
    if path != "" && path[|path| - 1] != '/' then path + "/" else path
  }

  lemma WithTrailingSlashIdempotent(path: string)
    ensures WithTrailingSlash(WithTrailingSlash(path)) == WithTrailingSlash(path)
  {
  }

  function WithoutMountpoint(ps: seq<Partition>, mountpoint: string): seq<Partition> {
    if ps == [] then []
    else
      var rest := WithoutMountpoint(ps[1..], mountpoint);
      if ps[0].mountpoint == mountpoint then rest else [ps[0]] + rest
  }

  function WithMountpoint(ps: seq<Partition>, mountpoint: string): seq<Partition> {
    if ps == [] then []
    else
      var rest := WithMountpoint(ps[1..], mountpoint);
      if ps[0].mountpoint == mountpoint then [ps[0]] + rest else rest
  }

  /** What the two filters keep: the partitions without the mountpoint, and those with it. */
  lemma {:induction false} FilterMembers(ps: seq<Partition>, mountpoint: string)
    ensures forall p :: p in WithoutMountpoint(ps, mountpoint) <==> p in ps && p.mountpoint != mountpoint
    ensures forall p :: p in WithMountpoint(ps, mountpoint) <==> p in ps && p.mountpoint == mountpoint
  {
    if ps != [] {
      FilterMembers(ps[1..], mountpoint);
      assert forall p :: p in ps <==> p == ps[0] || p in ps[1..];
    }
  }

  /** One more scanned partition lands in exactly one of the two filters, at its end. */
  lemma {:induction false} FilterStep(ps: seq<Partition>, i: nat, mountpoint: string)
    requires i < |ps|
    ensures WithoutMountpoint(ps[..i + 1], mountpoint)
      == WithoutMountpoint(ps[..i], mountpoint) + (if ps[i].mountpoint == mountpoint then [] else [ps[i]])
    ensures WithMountpoint(ps[..i + 1], mountpoint)
      == WithMountpoint(ps[..i], mountpoint) + (if ps[i].mountpoint == mountpoint then [ps[i]] else [])
    decreases i
  {
    if i > 0 {
      assert ps[..i + 1][1..] == ps[1..][..i];
      assert ps[..i][1..] == ps[1..][..i - 1];
      FilterStep(ps[1..], i - 1, mountpoint);
    }
  }

  lemma RemoveStep(snapshot: seq<Partition>, i: nat, mp: string)
    requires i < |snapshot| && snapshot[i].mountpoint == mp
    ensures RemoveFirst(WithoutMountpoint(snapshot[..i], mp) + snapshot[i..], snapshot[i])
      == WithoutMountpoint(snapshot[..i + 1], mp) + snapshot[i + 1..]
    ensures WithMountpoint(snapshot[..i + 1], mp) == WithMountpoint(snapshot[..i], mp) + [snapshot[i]]
  {
    var a := WithoutMountpoint(snapshot[..i], mp);
    FilterMembers(snapshot[..i], mp);
    RemoveFirstAfter(a, snapshot[i..], snapshot[i]);
    assert RemoveFirst(snapshot[i..], snapshot[i]) == snapshot[i + 1..];
    FilterStep(snapshot, i, mp);
  }

  lemma KeepStep(snapshot: seq<Partition>, i: nat, mp: string)
    requires i < |snapshot| && snapshot[i].mountpoint != mp
    ensures WithoutMountpoint(snapshot[..i], mp) + snapshot[i..]
      == WithoutMountpoint(snapshot[..i + 1], mp) + snapshot[i + 1..]
    ensures WithMountpoint(snapshot[..i + 1], mp) == WithMountpoint(snapshot[..i], mp)
  {
    FilterStep(snapshot, i, mp);
    assert snapshot[i..] == [snapshot[i]] + snapshot[i + 1..];
  }

  class HarddiskManager {
    var partitions: seq<Partition>

    constructor(initial: seq<Partition>)
      ensures partitions == initial
    {
      partitions := initial;
    }

    /**
     * The mounted partitions (only hotplug ones if asked), except a whole disk
     * whose numbered partition is also listed; entries without a device stay.
     */
    method GetMountedPartitions(onlyHotplug: bool, mounts: seq<MountEntry>) returns (r: seq<Partition>)
      ensures var parts := Candidates(partitions, onlyHotplug, mounts);
        r == KeepListed(parts, Devices(parts) - WholeDisks(Devices(parts)))
      ensures forall p :: p in r <==>
        p in partitions && (p.isHotplug || !onlyHotplug) && Mounted(p, mounts)
        && (p.device == "" || p.device !in WholeDisks(Devices(Candidates(partitions, onlyHotplug, mounts))))
    {
      var parts := Candidates(partitions, onlyHotplug, mounts);
      var all := Devices(parts);
      var devs := all;
      var todo := all;
      ghost var done: set<string> := {};
      while todo != {}
        invariant todo <= all && done == all - todo
        invariant devs == all - WholeDisks(done)
        decreases |todo|
      {
        var devname :| devname in todo;
        ghost var before := devs;
        if devname != "" {
          var (dev, part) := SplitDeviceName(devname);
          if part != 0 && dev in devs {
            devs := devs - {dev};
          }
        }
        WholeDisksStep(all, done, devname, before, devs);
        MoveDone(all, todo, done, devname);
        todo := todo - {devname};
        done := done + {devname};
      }
      r := KeepListed(parts, devs);
      KeepListedIff(parts, mounts, onlyHotplug, partitions);
    }

    /** Adds a partition for the mountpoint (with a trailing '/') unless one already has it. */
    method AddMountedPartition(device: string, description: string)
      modifies this`partitions
      ensures var mp := WithTrailingSlash(device);
        partitions == if exists p :: p in old(partitions) && p.mountpoint == mp then old(partitions)
                      else old(partitions) + [NewPartition(mp, "", description, description, false)]
      ensures DistinctMountpoints(old(partitions)) ==> DistinctMountpoints(partitions)
    {
      var mp := WithTrailingSlash(device);
      var i := 0;
      while i < |partitions|
        invariant 0 <= i <= |partitions|
        invariant forall k :: 0 <= k < i ==> partitions[k].mountpoint != mp
      {
        if partitions[i].mountpoint == mp {
          return;
        }
        i := i + 1;
      }
      partitions := partitions + [NewPartition(mp, "", description, description, false)];
    }

    /** Removes every partition with the mountpoint (with a trailing '/'); returns them in order. */
    method RemoveMountedPartition(mountpoint: string) returns (removed: seq<Partition>)
      modifies this`partitions
      ensures partitions == WithoutMountpoint(old(partitions), WithTrailingSlash(mountpoint))
      ensures removed == WithMountpoint(old(partitions), WithTrailingSlash(mountpoint))
    {
      var mp := WithTrailingSlash(mountpoint);
      var snapshot := partitions;
      removed := [];
      var i := 0;
      while i < |snapshot|
        invariant 0 <= i <= |snapshot|
        invariant partitions == WithoutMountpoint(snapshot[..i], mp) + snapshot[i..]
        invariant removed == WithMountpoint(snapshot[..i], mp)
      {
        var x := snapshot[i];
        if x.mountpoint == mp {
          RemoveStep(snapshot, i, mp);
          partitions := RemoveFirst(partitions, x);
          removed := removed + [x];
        } else {
          KeepStep(snapshot, i, mp);
        }
        i := i + 1;
      }
      assert snapshot[..i] == snapshot;
    }
  }

  ////////////////////////////////////////////////////////////////////////////
  // Harddisk.runIdle and Harddisk.capacity

  datatype IdleState = IdleState(lastAccess: int, lastStat: int, isSleeping: bool)

  /**
   * One poll of the idle timer: a changed, non-negative activity count is an
   * access; sleep is requested once the disk has been idle for maxIdleTime.
   * Returns the new state and whether sleep was requested.
   */
  function IdleStep(s: IdleState, maxIdleTime: int, t: int, statSum: int): (r: (IdleState, bool))
    ensures r.1 ==> r.0.isSleeping
    ensures r.0.lastAccess == s.lastAccess || r.0.lastAccess == t
    ensures r.0.isSleeping ==> r.1 || s.isSleeping
  {
    if maxIdleTime == 0 then (s, false)
    else
      var access := statSum != s.lastStat && statSum >= 0;
      var s1 := if access then IdleState(t, statSum, false) else s;
      var idle := if access then 0 else t - s.lastAccess;
      if idle >= maxIdleTime && !s1.isSleeping then (s1.(isSleeping := true), true)
      else (s1, false)
  }

  /** The idle machine's promises: no effect when disabled, access wakes, sleep once per idle period. */
  lemma IdleStepProperties(s: IdleState, maxIdleTime: int, t: int, statSum: int)
    ensures maxIdleTime == 0 ==> IdleStep(s, maxIdleTime, t, statSum) == (s, false)
    ensures var (s', sleep) := IdleStep(s, maxIdleTime, t, statSum);
      && (maxIdleTime > 0 && statSum != s.lastStat && statSum >= 0 ==>
            s'.lastAccess == t && s'.lastStat == statSum && !s'.isSleeping && !sleep)
      && (sleep ==> s'.isSleeping)
      && (maxIdleTime != 0 && (statSum == s.lastStat || statSum < 0) ==>
            s'.lastAccess == s.lastAccess && (sleep <==> t - s.lastAccess >= maxIdleTime && !s.isSleeping))
  {
  }

  /** After a sleep request, no further request comes until the next access. */
  lemma {:induction false} SleepRequestedOnce(s: IdleState, maxIdleTime: int, t1: int, sum1: int, t2: int, sum2: int)
    requires IdleStep(s, maxIdleTime, t1, sum1).1
    requires var s1 := IdleStep(s, maxIdleTime, t1, sum1).0; sum2 == s1.lastStat || sum2 < 0
    ensures !IdleStep(IdleStep(s, maxIdleTime, t1, sum1).0, maxIdleTime, t2, sum2).1
  {
    IdleStepProperties(s, maxIdleTime, t1, sum1);
    IdleStepProperties(IdleStep(s, maxIdleTime, t1, sum1).0, maxIdleTime, t2, sum2);
  }

  class Harddisk {
    var maxIdleTime: int
    var lastAccess: int
    var lastStat: int
    var isSleeping: bool

    constructor(maxIdleTime: int, now: int)
      ensures this.maxIdleTime == maxIdleTime && lastAccess == now && lastStat == 0 && !isSleeping
    {
      this.maxIdleTime := maxIdleTime;
      lastAccess := now;
      lastStat := 0;
      isSleeping := false;
    }

    function Idle(): IdleState
      reads this
    {
      IdleState(lastAccess, lastStat, isSleeping)
    }

    /** runIdle at time t with the two activity counters read from the disk's stat file ((-1, -1) when unreadable). */
    method RunIdle(t: int, stats: (int, int)) returns (sleepRequested: bool)
      modifies this`lastAccess, this`lastStat, this`isSleeping
      ensures (Idle(), sleepRequested) == IdleStep(old(Idle()), maxIdleTime, t, stats.0 + stats.1)
    {
      if maxIdleTime == 0 {
        return false;
      }
      var idleTime := t - lastAccess;
      var l := stats.0 + stats.1;
      if l != lastStat && l >= 0 {
        lastStat := l;
        lastAccess := t;
        idleTime := 0;
        isSleeping := false;
      }
      sleepRequested := false;
      if idleTime >= maxIdleTime && !isSleeping {
        sleepRequested := true;
        isSleeping := true;
      }
    }
  }

  /** The capacity text for a size in MB: "" for 0, "%03d MB" below 1000, "%d.%03d GB" otherwise. */
  function Capacity(cap: nat): (r: string)
    ensures r == "" <==> cap == 0
    ensures cap != 0 ==> EndsWith(r, " MB") || EndsWith(r, " GB")
  {
    if cap == 0 then ""
    else if cap < 1000 then FormatInt(cap, 3, 10) + " MB"
    else FormatInt(cap / 1000, 0, 10) + "." + FormatInt(cap % 1000, 3, 10) + " GB"
  }

  lemma SmallNatDigits(n: nat)
    requires n < 1000
    ensures |NatToBase(n, 10)| <= 3
  {
    if n >= 10 {
      DivStep(n, 10);
      assert |NatToBase(n, 10)| == |NatToBase(n / 10, 10)| + 1;
      if n / 10 >= 10 {
        DivStep(n / 10, 10);
        assert n / 10 / 10 < 10;
        assert |NatToBase(n / 10, 10)| == |NatToBase(n / 10 / 10, 10)| + 1;
      }
    }
  }

  /** The capacity text reads back as the size: three-digit MB, or GB and three-digit MB parts. */
  lemma CapacityReadsBack(cap: nat)
    ensures cap == 0 ==> Capacity(cap) == ""
    ensures 0 < cap < 1000 ==> exists d: string :: (Capacity(cap) == d + " MB"
      && |d| == 3 && AllBaseDigits(d, 10) && BaseValue(d, 10) == cap)
    ensures cap >= 1000 ==> exists g: string, m: string :: (Capacity(cap) == g + "." + m + " GB"
      && |m| == 3 && AllBaseDigits(g, 10) && AllBaseDigits(m, 10)
      && BaseValue(g, 10) * 1000 + BaseValue(m, 10) == cap)
  {
    if 0 < cap < 1000 {
      SmallNatDigits(cap);
      FormatNatValue(cap, 3, 10);
      var d := FormatInt(cap, 3, 10);
      assert Capacity(cap) == d + " MB";
    } else if cap >= 1000 {
      SmallNatDigits(cap % 1000);
      FormatNatValue(cap % 1000, 3, 10);
      FormatNatValue(cap / 1000, 0, 10);
      var g := FormatInt(cap / 1000, 0, 10);
      var m := FormatInt(cap % 1000, 3, 10);
      assert Capacity(cap) == g + "." + m + " GB";
    }
  }
}
