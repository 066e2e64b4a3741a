/**
 * USB export support: which block devices reported by lsblk are offered as
 * USB partitions, where a partition gets mounted, and the recursive album
 * copy with its file and byte counters, progress reports and cancellation.
 */
module Usb {
  import opened Wrappers
  import opened Text

  // ---------------------------------------------------------------- lsblk

  /** A partition as lsblk reports it under its parent device. */
  datatype BlockChild = BlockChild(
    name: string, volumeLabel: string, mountpoint: string, size: string, fsavail: string, subsystems: string)

  datatype BlockDevice = BlockDevice(
    name: string, volumeLabel: string, mountpoint: string, size: string, fsavail: string, subsystems: string,
    children: seq<BlockChild>)

  datatype UsbDevice = UsbDevice(
    name: string, volumeLabel: string, mountPoint: string, size: string, free: string, subsystems: string)

  /** What running and decoding `lsblk -J` gave. */
  datatype LsblkRun = CommandFailed(err: string) | UnmarshalFailed(err: string) | Parsed(devices: seq<BlockDevice>)

  /** The device entry for a listed partition: its own fields, with a default label. */
  function ToUsbDevice(c: BlockChild): (d: UsbDevice)
    ensures d.volumeLabel == if c.volumeLabel == "" then "USB Laufwerk" else c.volumeLabel
    ensures d.name == c.name && d.mountPoint == c.mountpoint && d.size == c.size
    ensures d.free == c.fsavail && d.subsystems == c.subsystems
  {
    UsbDevice(c.name, if c.volumeLabel == "" then "USB Laufwerk" else c.volumeLabel, c.mountpoint, c.size, c.fsavail, c.subsystems)
  }

  predicate Listed(dev: BlockDevice, c: BlockChild) {
    Contains(dev.subsystems, "usb") || Contains(c.subsystems, "usb")
  }

  /** The listed partitions of one device's first k children. */
  function ChildrenListed(dev: BlockDevice, k: nat): seq<UsbDevice>
    requires k <= |dev.children|
  {
    if k == 0 then []
    else
      var c := dev.children[k - 1];
      ChildrenListed(dev, k - 1) + (if Listed(dev, c) then [ToUsbDevice(c)] else [])
  }

  /** The partitions GetUsbDevices offers, parent by parent, child by child. */
  function UsbPartitions(devs: seq<BlockDevice>): seq<UsbDevice> {
    if devs == [] then []
    else UsbPartitions(devs[..|devs| - 1]) + ChildrenListed(devs[|devs| - 1], |devs[|devs| - 1].children|)
  }

  lemma {:induction false} ChildrenListedMembership(dev: BlockDevice, k: nat, d: UsbDevice)
    requires k <= |dev.children|
    ensures d in ChildrenListed(dev, k) <==>
      exists j :: 0 <= j < k && Listed(dev, dev.children[j]) && d == ToUsbDevice(dev.children[j])
    decreases k
  {
    if k > 0 {
      ChildrenListedMembership(dev, k - 1, d);
    }
  }

  /** d is the entry of some listed child of some device. */
  predicate Offered(devs: seq<BlockDevice>, d: UsbDevice) {
    exists i, j :: 0 <= i < |devs| && 0 <= j < |devs[i].children|
      && Listed(devs[i], devs[i].children[j]) && d == ToUsbDevice(devs[i].children[j])
  }

  /**
   * Only child partitions are offered, and a child is offered exactly when
   * its parent's or its own subsystems mention usb.
   */
  lemma {:induction false} UsbPartitionsMembership(devs: seq<BlockDevice>, d: UsbDevice)
    ensures d in UsbPartitions(devs) <==> Offered(devs, d)
    decreases |devs|
  {
    if devs != [] {
      var init := devs[..|devs| - 1];
      var last := devs[|devs| - 1];
      UsbPartitionsMembership(init, d);
      ChildrenListedMembership(last, |last.children|, d);
      if d in UsbPartitions(devs) {
        if d in UsbPartitions(init) {
          var i, j :| 0 <= i < |init| && 0 <= j < |init[i].children|
            && Listed(init[i], init[i].children[j]) && d == ToUsbDevice(init[i].children[j]);
          assert devs[i] == init[i];
        } else {
          var j :| 0 <= j < |last.children| && Listed(last, last.children[j]) && d == ToUsbDevice(last.children[j]);
          assert devs[|devs| - 1] == last;
        }
      }
      if Offered(devs, d) {
        var i, j :| 0 <= i < |devs| && 0 <= j < |devs[i].children|
          && Listed(devs[i], devs[i].children[j]) && d == ToUsbDevice(devs[i].children[j]);
        if i < |devs| - 1 {
          assert init[i] == devs[i];
        }
      }
    }
  }

  /** GetUsbDevices: the nested append loop over lsblk's devices and their children. */
  method GetUsbDevices(run: LsblkRun) returns (r: Result<seq<UsbDevice>, string>)
    ensures run.CommandFailed? ==> r == Failure("lsblk failed: " + run.err)
    ensures run.UnmarshalFailed? ==> r == Failure("unmarshal lsblk failed: " + run.err)
    ensures run.Parsed? ==> r == Success(UsbPartitions(run.devices))
  {
    if run.CommandFailed? {
      return Failure("lsblk failed: " + run.err);
    }
    if run.UnmarshalFailed? {
      return Failure("unmarshal lsblk failed: " + run.err);
    }
    var devs := run.devices;
    var devices: seq<UsbDevice> := [];
    for i := 0 to |devs|
      invariant devices == UsbPartitions(devs[..i])
    {
      var dev := devs[i];
      var isUsb := Contains(dev.subsystems, "usb");
      assert devs[..i + 1][..i] == devs[..i];
      for j := 0 to |dev.children|
        invariant devices == UsbPartitions(devs[..i]) + ChildrenListed(dev, j)
      {
        var child := dev.children[j];
        if isUsb || Contains(child.subsystems, "usb") {
          var volumeLabel := child.volumeLabel;
          if volumeLabel == "" {
            volumeLabel := "USB Laufwerk";
          }
          devices := devices + [UsbDevice(child.name, volumeLabel, child.mountpoint, child.size, child.fsavail, child.subsystems)];
        }
      }
    }
    assert devs[..|devs|] == devs;
    return Success(devices);
  }

  /** The first offered device with the given name. */
  function FirstByName(devices: seq<UsbDevice>, name: string): (r: Option<nat>)
    ensures r.None? ==> forall i :: 0 <= i < |devices| ==> devices[i].name != name
    ensures r.Some? ==> r.value < |devices| && devices[r.value].name == name
    ensures r.Some? ==> forall i :: 0 <= i < r.value ==> devices[i].name != name
  {
    if devices == [] then None
    else if devices[0].name == name then Some(0)
    else
      var k := FirstByName(devices[1..], name);
      if k.None? then None else Some(k.value + 1)
  }

  /**
   * MountUsb; mountError is the error and output of `sudo mount` when it
   * failed (it is only run for a device that is not mounted yet).
   */
  method MountUsb(run: LsblkRun, deviceName: string, mountError: Option<(string, string)>)
    returns (r: Result<string, string>)
    ensures run.CommandFailed? ==> r == Failure("lsblk failed: " + run.err)
    ensures run.UnmarshalFailed? ==> r == Failure("unmarshal lsblk failed: " + run.err)
    ensures run.Parsed? ==>
      var devices := UsbPartitions(run.devices);
      var k := FirstByName(devices, deviceName);
      r == if k.None? then Failure("device " + deviceName + " not found")
           else if devices[k.value].mountPoint != "" then Success(devices[k.value].mountPoint)
           else if mountError.Some? then Failure("mount failed: " + mountError.value.0 + "\n" + mountError.value.1)
           else Success(JoinPath("/media", devices[k.value].name))
  {
    var listed := GetUsbDevices(run);
    if listed.Failure? {
      return Failure(listed.error);
    }
    var devices := listed.value;
    var found: Option<UsbDevice> := None;
    var i := 0;
    while i < |devices|
      invariant 0 <= i <= |devices|
      invariant forall j :: 0 <= j < i ==> devices[j].name != deviceName
    {
      if devices[i].name == deviceName {
        found := Some(devices[i]);
        break;
      }
      i := i + 1;
    }
    if found.None? {
      return Failure("device " + deviceName + " not found");
    }
    assert FirstByName(devices, deviceName) == Some(i);
    var dev := found.value;
    if dev.mountPoint != "" {
      return Success(dev.mountPoint);
    }
    var mountPath := JoinPath("/media", dev.name);
    if mountError.Some? {
      return Failure("mount failed: " + mountError.value.0 + "\n" + mountError.value.1);
    }
    return Success(mountPath);
  }

  /** UnmountUsb; umountError is the error and output of `sudo umount` when it failed. */
  function UnmountUsb(umountError: Option<(string, string)>): (r: Option<string>)
    ensures r.None? <==> umountError.None?
  {
    if umountError.Some? then Some("umount failed: " + umountError.value.0 + "\n" + umountError.value.1) else None
  }

  // ---------------------------------------------------------------- copying with progress

  /**
   * The source tree. statOk says whether the file's Lstat succeeds (both
   * filepath.Walk and entry.Info() use it); copyOk whether copyFile
   * succeeds; readOk whether the directory can be listed.
   */
  datatype FsNode =
    | File(name: string, size: nat, statOk: bool, copyOk: bool)
    | Dir(name: string, readOk: bool, children: seq<FsNode>)

  /** Every file of a subtree, in the order a depth-first copy reaches them. */
  function FilesOf(n: FsNode): (r: seq<FsNode>)
    ensures forall i :: 0 <= i < |r| ==> r[i].File?
    decreases n, 1
  {
    match n
    case File(_, _, _, _) => [n]
    case Dir(_, _, cs) => FilesOfSeq(cs)
  }

  function FilesOfSeq(cs: seq<FsNode>): (r: seq<FsNode>)
    ensures forall i :: 0 <= i < |r| ==> r[i].File?
    decreases cs, 0
  {
    if cs == [] then [] else FilesOfSeq(cs[..|cs| - 1]) + FilesOf(cs[|cs| - 1])
  }

  lemma {:induction false} FilesOfSeqConcat(a: seq<FsNode>, b: seq<FsNode>)
    ensures FilesOfSeq(a + b) == FilesOfSeq(a) + FilesOfSeq(b)
    decreases |b|
  {
    if b == [] {
      assert a + b == a;
    } else {
      var b' := b[..|b| - 1];
      assert (a + b)[..|a + b| - 1] == a + b';
      FilesOfSeqConcat(a, b');
    }
  }

  /** The files filepath.Walk counts: those with a successful Lstat inside listable directories. */
  function WalkFiles(n: FsNode): seq<FsNode>
    decreases n, 1
  {
    match n
    case File(_, _, statOk, _) => if statOk then [n] else []
    case Dir(_, readOk, cs) => if readOk then WalkFilesSeq(cs) else []
  }

  function WalkFilesSeq(cs: seq<FsNode>): seq<FsNode>
    decreases cs, 0
  {
    if cs == [] then [] else WalkFilesSeq(cs[..|cs| - 1]) + WalkFiles(cs[|cs| - 1])
  }

  /** The bytes a copied file adds to the counter: its size, or 0 when Info() failed. */
  function CopySize(f: FsNode): nat {
    if f.File? && f.statOk then f.size else 0
  }

  function SumSizes(fs: seq<FsNode>): nat {
    if fs == [] then 0 else SumSizes(fs[..|fs| - 1]) + CopySize(fs[|fs| - 1])
  }

  lemma {:induction false} SumSizesAppend(a: seq<FsNode>, b: seq<FsNode>)
    ensures SumSizes(a + b) == SumSizes(a) + SumSizes(b)
    decreases |b|
  {
    if b == [] {
      assert a + b == a;
    } else {
      var b' := b[..|b| - 1];
      assert (a + b)[..|a + b| - 1] == a + b';
      SumSizesAppend(a, b');
    }
  }

  /** Every directory listable and every file's Lstat successful. */
  predicate Healthy(n: FsNode)
    decreases n, 1
  {
    match n
    case File(_, _, statOk, _) => statOk
    case Dir(_, readOk, cs) => readOk && HealthySeq(cs)
  }

  predicate HealthySeq(cs: seq<FsNode>)
    decreases cs, 0
  {
    cs == [] || (HealthySeq(cs[..|cs| - 1]) && Healthy(cs[|cs| - 1]))
  }

  /** Every directory of the subtree is listable. */
  predicate Readable(n: FsNode)
    decreases n, 1
  {
    match n
    case File(_, _, _, _) => true
    case Dir(_, readOk, cs) => readOk && ReadableSeq(cs)
  }

  predicate ReadableSeq(cs: seq<FsNode>)
    decreases cs, 0
  {
    cs == [] || (ReadableSeq(cs[..|cs| - 1]) && Readable(cs[|cs| - 1]))
  }

  /** In a healthy tree the walk sees exactly the files the copy reaches. */
  lemma {:induction false} WalkSeesAllFiles(n: FsNode)
    requires Healthy(n)
    ensures WalkFiles(n) == FilesOf(n)
    decreases n, 1
  {
    if n.Dir? {
      WalkSeesAllFilesSeq(n.children);
    }
  }

  lemma {:induction false} WalkSeesAllFilesSeq(cs: seq<FsNode>)
    requires HealthySeq(cs)
    ensures WalkFilesSeq(cs) == FilesOfSeq(cs)
    decreases cs, 0
  {
    if cs != [] {
      WalkSeesAllFilesSeq(cs[..|cs| - 1]);
      WalkSeesAllFiles(cs[|cs| - 1]);
    }
  }

  /** The subtree holds a directory with that name whose listing fails. */
  predicate UnlistableIn(n: FsNode, name: string)
    decreases n, 1
  {
    match n
    case File(_, _, _, _) => false
    case Dir(dirName, readOk, cs) => (!readOk && dirName == name) || UnlistableInSeq(cs, name)
  }

  predicate UnlistableInSeq(cs: seq<FsNode>, name: string)
    decreases cs, 0
  {
    cs != [] && (UnlistableInSeq(cs[..|cs| - 1], name) || UnlistableIn(cs[|cs| - 1], name))
  }

  /** An unlistable directory inside one entry is inside the whole listing. */
  lemma {:induction false} UnlistableInEntry(cs: seq<FsNode>, i: nat, name: string)
    requires i < |cs| && UnlistableIn(cs[i], name)
    ensures UnlistableInSeq(cs, name)
    decreases |cs|
  {
    if i < |cs| - 1 {
      assert cs[..|cs| - 1][i] == cs[i];
      UnlistableInEntry(cs[..|cs| - 1], i, name);
    }
  }

  /** The arguments of one onProgress call. */
  datatype Progress = Progress(copiedBytes: nat, totalBytes: nat, copiedFiles: nat, totalFiles: nat)

  /** Why a copy stopped early. */
  datatype CopyError = Cancelled | ReadDirFailed(dir: string) | CopyFailed(file: string)

  /** after extends before by a prefix of files. */
  ghost predicate CopiedPrefix(before: seq<FsNode>, after: seq<FsNode>, files: seq<FsNode>) {
    |before| <= |after| && after[..|before|] == before && after[|before|..] <= files
  }

  /** The file after the copied prefix of files exists, failed to copy, and has the given name. */
  ghost predicate FailedNext(before: seq<FsNode>, after: seq<FsNode>, files: seq<FsNode>, name: string) {
    var k := |after| - |before|;
    0 <= k < |files| && files[k].File? && !files[k].copyOk && files[k].name == name
  }

  /** What a child directory's outcome means for its parent's files done + fs + rest. */
  lemma PrefixWithin(base: seq<FsNode>, done: seq<FsNode>, fs: seq<FsNode>, rest: seq<FsNode>, after: seq<FsNode>, name: string)
    requires CopiedPrefix(base + done, after, fs)
    ensures CopiedPrefix(base, after, done + fs + rest)
    ensures FailedNext(base + done, after, fs, name) ==> FailedNext(base, after, done + fs + rest, name)
  {
    var x := after[|base + done|..];
    assert after == base + done + x;
    assert after[|base|..] == done + x;
    if FailedNext(base + done, after, fs, name) {
      var kx := |after| - |base + done|;
      assert (done + fs + rest)[|done| + kx] == fs[kx];
    }
  }

  /** A copy that stopped inside entry i of directory n stopped inside n. */
  lemma StoppedInEntry(n: FsNode, i: nat, base: seq<FsNode>, after: seq<FsNode>, name: string)
    requires n.Dir? && i < |n.children|
    requires CopiedPrefix(base + FilesOfSeq(n.children[..i]), after, FilesOf(n.children[i]))
    ensures CopiedPrefix(base, after, FilesOf(n))
    ensures FailedNext(base + FilesOfSeq(n.children[..i]), after, FilesOf(n.children[i]), name) ==>
      FailedNext(base, after, FilesOf(n), name)
  {
    var cs := n.children;
    assert cs[..i + 1][..i] == cs[..i];
    FilesOfSeqConcat(cs[..i + 1], cs[i + 1..]);
    assert cs[..i + 1] + cs[i + 1..] == cs;
    PrefixWithin(base, FilesOfSeq(cs[..i]), FilesOf(cs[i]), FilesOfSeq(cs[i + 1..]), after, name);
  }

  /** Taking one more entry of a listing adds that entry's files and its readability. */
  lemma EntryStep(cs: seq<FsNode>, i: nat)
    requires i < |cs|
    ensures FilesOfSeq(cs[..i + 1]) == FilesOfSeq(cs[..i]) + FilesOf(cs[i])
    ensures ReadableSeq(cs[..i + 1]) <==> ReadableSeq(cs[..i]) && Readable(cs[i])
  {
    assert cs[..i + 1][..i] == cs[..i];
  }

  lemma AppendAssoc(a: seq<FsNode>, b: seq<FsNode>, c: seq<FsNode>)
    ensures a + b + c == a + (b + c)
  {
  }

  /** The state of one CopyDirWithProgress call: the closure's counters and the context. */
  class CopyJob {
    const root: FsNode
    const totalBytes: nat
    const totalFiles: nat
    /** The context reports cancellation from this check on (checks are numbered from 0). */
    const cancelAt: Option<nat>
    /** Whether an onProgress callback was passed. */
    const reporting: bool
    var copiedBytes: nat
    var copiedFiles: nat
    /** Cancellation checks made so far. */
    var checks: nat
    /** The files copied so far, in order. */
    ghost var copied: seq<FsNode>
    /** The onProgress calls made so far. */
    ghost var progress: seq<Progress>

    predicate CancelledAt(check: nat)
      reads this
    {
      cancelAt.Some? && check >= cancelAt.value
    }

    /**
     * The totals are the Walk's, the counters are the number and the bytes of the files copied, each
     * file was preceded by a passed cancellation check, and every progress
     * report carried the counters just after one file.
     */
    ghost predicate Valid()
      reads this
    {
      && totalFiles == |WalkFiles(root)| && totalBytes == SumSizes(WalkFiles(root))
      && copiedFiles == |copied|
      && copiedBytes == SumSizes(copied)
      && |copied| <= checks
      && (cancelAt.Some? ==> |copied| <= cancelAt.value)
      && (reporting ==> |progress| == |copied|)
      && (!reporting ==> progress == [])
      && (forall i :: 0 <= i < |progress| ==>
            progress[i] == Progress(SumSizes(copied[..i + 1]), totalBytes, i + 1, totalFiles))
    }

    /** The Walk pass: the totals, before anything is copied. */
    constructor (root: FsNode, cancelAt: Option<nat>, reporting: bool)
      ensures Valid()
      ensures this.root == root && this.cancelAt == cancelAt && this.reporting == reporting
      ensures totalFiles == |WalkFiles(root)| && totalBytes == SumSizes(WalkFiles(root))
      ensures copied == [] && progress == [] && checks == 0
    {
      this.root := root;
      this.cancelAt := cancelAt;
      this.reporting := reporting;
      totalFiles := |WalkFiles(root)|;
      totalBytes := SumSizes(WalkFiles(root));
      copiedBytes := 0;
      copiedFiles := 0;
      checks := 0;
      copied := [];
      progress := [];
    }

    /** One cancellation check: select on ctx.Done(). */
    method Check() returns (cancelled: bool)
      requires Valid()
      modifies this`checks
      ensures Valid()
      ensures checks == old(checks) + 1
      ensures cancelled == CancelledAt(old(checks))
    {
      cancelled := CancelledAt(checks);
      checks := checks + 1;
    }

    /** Copy one file whose cancellation check passed; the counters move and onProgress fires. */
    method CopyOne(f: FsNode)
      requires Valid() && f.File? && f.copyOk
      requires 0 < checks && !CancelledAt(checks - 1) && |copied| < checks
      modifies this`copiedFiles, this`copiedBytes, this`copied, this`progress
      ensures Valid()
      ensures copied == old(copied) + [f]
      ensures copiedFiles == old(copiedFiles) + 1 && copiedBytes == old(copiedBytes) + CopySize(f)
      ensures progress == old(progress) + if reporting then [Progress(copiedBytes, totalBytes, copiedFiles, totalFiles)] else []
    {
      var size := if f.statOk then f.size else 0;
      copiedFiles := copiedFiles + 1;
      copiedBytes := copiedBytes + size;
      copied := copied + [f];
      assert copied[..|copied| - 1] == old(copied);
      if reporting {
        progress := progress + [Progress(copiedBytes, totalBytes, copiedFiles, totalFiles)];
        assert copied[..|progress|] == copied;
        forall i | 0 <= i < |progress| - 1
          ensures progress[i] == Progress(SumSizes(copied[..i + 1]), totalBytes, i + 1, totalFiles)
        {
          assert copied[..i + 1] == old(copied)[..i + 1];
        }
      } else {
        assert progress == [];
      }
    }

    /**
     * One entry of a directory listing (or the source root): a directory is
     * copied by copyRecursive, a file after its own cancellation check. The
     * files copied are a prefix of the entry's files, all of them on
     * success; after a failed copy the next file is the one that failed; a
     * cancelled check stops everything.
     */
    method CopyEntry(n: FsNode) returns (err: Option<CopyError>)
      requires Valid()
      modifies this`checks, this`copiedFiles, this`copiedBytes, this`copied, this`progress
      ensures Valid()
      ensures checks >= old(checks)
      ensures CopiedPrefix(old(copied), copied, FilesOf(n))
      ensures err.None? ==> copied == old(copied) + FilesOf(n) && Readable(n)
      ensures err == Some(Cancelled) ==> checks > 0 && CancelledAt(checks - 1)
      ensures err.Some? && err.value.CopyFailed? ==> FailedNext(old(copied), copied, FilesOf(n), err.value.file)
      ensures err.Some? && err.value.ReadDirFailed? ==> UnlistableIn(n, err.value.dir)
      decreases n, 2
    {
      if n.Dir? {
        err := CopyRecursive(n);
      } else {
        var cancelled := Check();
        if cancelled {
          return Some(Cancelled);
        }
        if !n.copyOk {
          return Some(CopyFailed(n.name));
        }
        CopyOne(n);
        err := None;
      }
    }

    /** copyRecursive over the directory n: one check, the listing, then each entry in order. */
    method CopyRecursive(n: FsNode) returns (err: Option<CopyError>)
      requires Valid() && n.Dir?
      modifies this`checks, this`copiedFiles, this`copiedBytes, this`copied, this`progress
      ensures Valid()
      ensures checks >= old(checks)
      ensures CopiedPrefix(old(copied), copied, FilesOf(n))
      ensures err.None? ==> copied == old(copied) + FilesOf(n) && Readable(n)
      ensures err == Some(Cancelled) ==> checks > 0 && CancelledAt(checks - 1)
      ensures err.Some? && err.value.CopyFailed? ==> FailedNext(old(copied), copied, FilesOf(n), err.value.file)
      ensures err.Some? && err.value.ReadDirFailed? ==> UnlistableIn(n, err.value.dir)
      decreases n, 1
    {
      var cancelled := Check();
      if cancelled {
        return Some(Cancelled);
      }
      if !n.readOk {
        return Some(ReadDirFailed(n.name));
      }
      err := CopyEntries(n);
    }

    /** The loop of copyRecursive over the listed entries of a readable directory. */
    method CopyEntries(n: FsNode) returns (err: Option<CopyError>)
      requires Valid() && n.Dir? && n.readOk
      modifies this`checks, this`copiedFiles, this`copiedBytes, this`copied, this`progress
      ensures Valid()
      ensures checks >= old(checks)
      ensures CopiedPrefix(old(copied), copied, FilesOf(n))
      ensures err.None? ==> copied == old(copied) + FilesOf(n) && Readable(n)
      ensures err == Some(Cancelled) ==> checks > 0 && CancelledAt(checks - 1)
      ensures err.Some? && err.value.CopyFailed? ==> FailedNext(old(copied), copied, FilesOf(n), err.value.file)
      ensures err.Some? && err.value.ReadDirFailed? ==> UnlistableIn(n, err.value.dir)
      decreases n, 0
    {
      var cs := n.children;
      var i := 0;
      while i < |cs|
        invariant 0 <= i <= |cs|
        invariant Valid() && checks >= old(checks)
        invariant copied == old(copied) + FilesOfSeq(cs[..i])
        invariant ReadableSeq(cs[..i])
      {
        err := CopyEntry(cs[i]);
        if err.Some? {
          if err.value.ReadDirFailed? {
            UnlistableInEntry(cs, i, err.value.dir);
          }
          StoppedInEntry(n, i, old(copied), copied, if err.value.CopyFailed? then err.value.file else "");
          return err;
        }
        EntryStep(cs, i);
        AppendAssoc(old(copied), FilesOfSeq(cs[..i]), FilesOf(cs[i]));
        i := i + 1;
      }
      assert cs[..i] == cs;
      return None;
    }

    /**
     * CopyDirWithProgress after the Walk: copy the whole source tree. A
     * source that is a file fails at its listing, after the first check.
     */
    method Run() returns (err: Option<CopyError>)
      requires Valid() && copied == [] && progress == []
      modifies this`checks, this`copiedFiles, this`copiedBytes, this`copied, this`progress
      ensures Valid()
      ensures copied <= FilesOf(root)
      ensures err.None? ==> copied == FilesOf(root)
      ensures err.None? && Healthy(root) ==> copiedFiles == totalFiles && copiedBytes == totalBytes
      ensures cancelAt.Some? ==> copiedFiles <= cancelAt.value
      ensures err == Some(Cancelled) ==> cancelAt.Some? && cancelAt.value < checks
      ensures err.Some? && err.value.CopyFailed? ==> FailedNext([], copied, FilesOf(root), err.value.file)
      ensures err.Some? && err.value.ReadDirFailed? ==>
        (root.File? && err.value.dir == root.name) || UnlistableIn(root, err.value.dir)
    {
      if root.File? {
        var cancelled := Check();
        if cancelled {
          return Some(Cancelled);
        }
        return Some(ReadDirFailed(root.name));
      }
      err := CopyRecursive(root);
      if err.None? && Healthy(root) {
        WalkSeesAllFiles(root);
      }
    }
  }
}
