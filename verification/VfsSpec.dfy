/**
  kernel/vfs: the file table and the inodes it points at, as values.  Each call of the
  VFS API is one step; what the driver answers is part of the call.
 */
module VfsSpec {
  import opened Options

  const PATH_MAX: nat := 256

  datatype Kind = NotInit | CharDev | FsDev

  datatype Inode = Inode(name: Option<string>, kind: Kind, refs: nat, flags: int)

  datatype Vfs = Vfs(
    offset: nat,                            // AOS_CONFIG_VFS_FD_OFFSET
    files: seq<Option<nat>>,                // the inode each of the MAX_FILE_NUM file slots points at
    nodes: seq<Inode>)                      // AOS_CONFIG_VFS_DEV_NODES inodes

  datatype Errno = EINVAL | ENAMETOOLONG | ENOSYS | ENFILE | ENODEV | ENOENT | ENOMEM | EBUSY

  /** What a call returns: success, an fd, an error of VFS, or the driver's own answer. */
  datatype Result = Success | Fd(fd: int) | Err(errno: Errno) | Driver(ret: int) | NullDir

  const EMPTY: Inode := Inode(None, NotInit, 0, 0)

  // ----- inodes (vfs_inode.c)

  /** inode_open's test of one node: its name, or for a file system a path below it. */
  predicate Serves(n: Inode, path: string) {
    n.name.Some? &&
    var name := n.name.value;
    || (n.kind.FsDev? && name < path && path[|name|] == '/')
    || name == path
  }

  /** The first node that serves a path, or the number of nodes. */
  function Lookup(nodes: seq<Inode>, path: string): (k: nat)
    ensures k <= |nodes|
    ensures forall i :: 0 <= i < k ==> !Serves(nodes[i], path)
    ensures k < |nodes| ==> Serves(nodes[k], path)
  {
    if nodes == [] || Serves(nodes[0], path) then 0 else 1 + Lookup(nodes[1..], path)
  }

  /** inode_alloc: the first unused node, or the number of nodes. */
  function Unused(nodes: seq<Inode>): (k: nat)
    ensures k <= |nodes|
    ensures forall i :: 0 <= i < k ==> !nodes[i].kind.NotInit?
    ensures k < |nodes| ==> nodes[k].kind.NotInit?
  {
    if nodes == [] || nodes[0].kind.NotInit? then 0 else 1 + Unused(nodes[1..])
  }

  // ----- file slots (vfs.c)

  /** new_file: the first free slot, or the number of slots. */
  function FreeSlot(files: seq<Option<nat>>): (k: nat)
    ensures k <= |files|
    ensures forall i :: 0 <= i < k ==> files[i].Some?
    ensures k < |files| ==> files[k].None?
  {
    if files == [] || files[0].None? then 0 else 1 + FreeSlot(files[1..])
  }

  /** get_file. */
  function Slot(s: Vfs, fd: int): Option<nat> {
    var i := fd - s.offset;
    if 0 <= i < |s.files| && s.files[i].Some? then Some(i) else None
  }

  function Ref(s: Vfs, slot: nat, node: nat): Vfs
    requires slot < |s.files| && node < |s.nodes|
  {
    s.(files := s.files[slot := Some(node)], nodes := s.nodes[node := s.nodes[node].(refs := s.nodes[node].refs + 1)])
  }

  /** del_file, with inode_unref's floor. */
  function Unref(s: Vfs, slot: nat): Vfs
    requires slot < |s.files| && s.files[slot].Some? && s.files[slot].value < |s.nodes|
  {
    var node := s.files[slot].value;
    var n := s.nodes[node];
    s.(files := s.files[slot := None],
       nodes := s.nodes[node := if n.refs > 0 then n.(refs := n.refs - 1) else n])
  }

  // ----- the calls

  datatype Call =
    | Register(path: Option<string>, kind: Kind, memory: bool)
    | Unregister(path: Option<string>)
    | Open(path: Option<string>, flags: int, driver: int)
    | Close(fd: int, driver: int)
    | Visit(path: Option<string>, driver: int)      // stat, unlink, rename, mkdir
    | OpenDir(path: Option<string>, found: bool)
    | CloseDir(fd: int, driver: int)

  /** aos_register_driver and aos_register_fs. */
  function DoRegister(s: Vfs, path: Option<string>, kind: Kind, memory: bool): (Vfs, Result) {
    if path.None? || path.value == "" || path.value[0] != '/' then (s, Err(EINVAL))
    else
      var k := Unused(s.nodes);
      if k == |s.nodes| || !memory then (s, Err(ENOMEM))
      else (s.(nodes := s.nodes[k := s.nodes[k].(name := path, kind := kind)]), Success)
  }

  /** aos_unregister_driver and aos_unregister_fs. */
  function DoUnregister(s: Vfs, path: Option<string>): (Vfs, Result) {
    if path.None? then (s, Err(EINVAL))
    else
      var k := Lookup(s.nodes, path.value);
      if k == |s.nodes| then (s, Err(ENODEV))
      else if s.nodes[k].refs > 0 then (s, Err(EBUSY))
      else (s.(nodes := s.nodes[k := Inode(None, NotInit, 0, 0)]), Success)
  }

  function DoOpen(s: Vfs, path: Option<string>, flags: int, driver: int): (Vfs, Result) {
    if path.None? then (s, Err(EINVAL))
    else if |path.value| > PATH_MAX then (s, Err(ENAMETOOLONG))
    else
      var k := Lookup(s.nodes, path.value);
      if k == |s.nodes| then (s, Err(ENOSYS))
      else
        var t := s.(nodes := s.nodes[k := s.nodes[k].(flags := flags)]);
        var i := FreeSlot(s.files);
        if i == |s.files| then (t, Err(ENFILE))
        else if driver != 0 then (Unref(Ref(t, i, k), i), Driver(driver))
        else (Ref(t, i, k), Fd(i + s.offset))
  }

  /** aos_close; the lock's own success takes the place of what the driver answered. */
  function DoClose(s: Vfs, fd: int, driver: int): (Vfs, Result)
    requires Sound(s)
  {
    match Slot(s, fd)
    case None => (s, Err(ENOSYS))
    case Some(i) => (Unref(s, i), Success)
  }

  /** aos_stat, aos_unlink, aos_rename and aos_mkdir: a file slot for the time of the call. */
  function DoVisit(s: Vfs, path: Option<string>, driver: int): (Vfs, Result) {
    if path.None? then (s, Err(EINVAL))
    else
      var k := Lookup(s.nodes, path.value);
      if k == |s.nodes| then (s, Err(ENODEV))
      else
        var i := FreeSlot(s.files);
        if i == |s.files| then (s, Err(ENOENT))
        else (Unref(Ref(s, i, k), i), if s.nodes[k].kind.FsDev? then Driver(driver) else Err(ENOSYS))
  }

  /** aos_opendir; `found` says that the file system gave a directory. */
  function DoOpenDir(s: Vfs, path: Option<string>, found: bool): (Vfs, Result) {
    if path.None? then (s, NullDir)
    else
      var k := Lookup(s.nodes, path.value);
      if k == |s.nodes| then (s, NullDir)
      else
        var i := FreeSlot(s.files);
        if i == |s.files| then (s, NullDir)
        else if s.nodes[k].kind.FsDev? && found then (Ref(s, i, k), Fd(i + s.offset))
        else (Unref(Ref(s, i, k), i), NullDir)
  }

  function DoCloseDir(s: Vfs, fd: int, driver: int): (Vfs, Result)
    requires Sound(s)
  {
    match Slot(s, fd)
    case None => (s, Err(ENOENT))
    case Some(i) => (Unref(s, i), if s.nodes[s.files[i].value].kind.FsDev? then Driver(driver) else Err(ENOSYS))
  }

  function Next(s: Vfs, c: Call): (Vfs, Result)
    requires Sound(s)
  {
    match c
    case Register(path, kind, memory) => DoRegister(s, path, if kind.FsDev? then FsDev else CharDev, memory)
    case Unregister(path) => DoUnregister(s, path)
    case Open(path, flags, driver) => DoOpen(s, path, flags, driver)
    case Close(fd, driver) => DoClose(s, fd, driver)
    case Visit(path, driver) => DoVisit(s, path, driver)
    case OpenDir(path, found) => DoOpenDir(s, path, found)
    case CloseDir(fd, driver) => DoCloseDir(s, fd, driver)
  }

  // ----- the invariant

  /** Slots point at nodes of the table. */
  predicate Sound(s: Vfs) {
    && |s.files| == 2 * |s.nodes|
    && forall i :: 0 <= i < |s.files| && s.files[i].Some? ==> s.files[i].value < |s.nodes|
  }

  /** How many file slots point at node k. */
  function Openings(files: seq<Option<nat>>, k: nat): nat {
    if files == [] then 0
    else Openings(files[..|files| - 1], k) + if files[|files| - 1] == Some(k) then 1 else 0
  }

  ghost predicate Inv(s: Vfs) {
    && Sound(s)
    && (forall k :: 0 <= k < |s.nodes| ==> s.nodes[k].refs == Openings(s.files, k))
    && (forall k :: 0 <= k < |s.nodes| ==> (s.nodes[k].name.Some? <==> !s.nodes[k].kind.NotInit?))
    && (forall i :: 0 <= i < |s.files| && s.files[i].Some? ==> s.nodes[s.files[i].value].name.Some?)
  }

  lemma {:induction false} OpeningsAfter(files: seq<Option<nat>>, i: nat, f: Option<nat>, k: nat)
    requires i < |files|
    ensures Openings(files[i := f], k)
         == Openings(files, k) + (if f == Some(k) then 1 else 0) - (if files[i] == Some(k) then 1 else 0)
    decreases |files|
  {
    var last := |files| - 1;
    if i < last {
      assert files[i := f][..last] == files[..last][i := f];
      OpeningsAfter(files[..last], i, f, k);
    } else {
      assert files[i := f][..last] == files[..last];
    }
  }

  lemma {:induction false} OpeningsSeen(files: seq<Option<nat>>, k: nat)
    ensures Openings(files, k) > 0 <==> Some(k) in files
    ensures Openings(files, k) <= |files|
    decreases |files|
  {
    if files != [] {
      OpeningsSeen(files[..|files| - 1], k);
      assert files == files[..|files| - 1] + [files[|files| - 1]];
    }
  }

  lemma RefKeeps(s: Vfs, i: nat, k: nat)
    requires Inv(s) && i < |s.files| && s.files[i].None? && k < |s.nodes| && s.nodes[k].name.Some?
    ensures Inv(Ref(s, i, k))
  {
    hide Openings;
    forall j | 0 <= j < |s.nodes| {
      OpeningsAfter(s.files, i, Some(k), j);
    }
  }

  lemma UnrefKeeps(s: Vfs, i: nat)
    requires Inv(s) && i < |s.files| && s.files[i].Some?
    ensures Inv(Unref(s, i))
    ensures s.nodes[s.files[i].value].refs > 0
  {
    hide Openings;
    OpeningsSeen(s.files, s.files[i].value);
    forall j | 0 <= j < |s.nodes| {
      OpeningsAfter(s.files, i, None, j);
    }
  }

  /** Taking a slot and giving it back leaves the table as it was. */
  lemma RefThenUnref(s: Vfs, i: nat, k: nat)
    requires i < |s.files| && s.files[i].None? && k < |s.nodes|
    ensures Unref(Ref(s, i, k), i) == s
  {
    var t := Ref(s, i, k);
    assert t.files[i := None] == s.files;
    assert t.nodes[k].(refs := t.nodes[k].refs - 1) == s.nodes[k];
    assert t.nodes[k := s.nodes[k]] == s.nodes;
  }

  // ----- every call keeps the invariant

  lemma RegisterKeeps(s: Vfs, path: Option<string>, kind: Kind, memory: bool)
    requires Inv(s) && !kind.NotInit?
    ensures Inv(DoRegister(s, path, kind, memory).0)
  {
    hide Openings, Unused;
  }

  /** A node with open files is not given up, so no slot is left pointing at a deleted one. */
  lemma UnregisterKeeps(s: Vfs, path: Option<string>)
    requires Inv(s)
    ensures Inv(DoUnregister(s, path).0)
  {
    hide Openings, Lookup;
    if path.Some? {
      var k := Lookup(s.nodes, path.value);
      if k < |s.nodes| && s.nodes[k].refs == 0 {
        OpeningsSeen(s.files, k);
        forall i | 0 <= i < |s.files| ensures s.files[i] != Some(k) {
          assert s.files[i] in s.files;
        }
      }
    }
  }

  lemma OpenKeeps(s: Vfs, path: Option<string>, flags: int, driver: int)
    requires Inv(s)
    ensures Inv(DoOpen(s, path, flags, driver).0)
  {
    hide Openings, Lookup, FreeSlot, Ref, Unref;
    if path.Some? {
      var k, i := Lookup(s.nodes, path.value), FreeSlot(s.files);
      if k < |s.nodes| {
        var t := s.(nodes := s.nodes[k := s.nodes[k].(flags := flags)]);
        assert Inv(t);
        if i < |s.files| {
          RefKeeps(t, i, k);
          RefThenUnref(t, i, k);
        }
      }
    }
  }

  lemma VisitKeeps(s: Vfs, path: Option<string>, driver: int)
    requires Inv(s)
    ensures DoVisit(s, path, driver).0 == s
  {
    hide Openings, Lookup, FreeSlot, Ref, Unref;
    if path.Some? {
      var k, i := Lookup(s.nodes, path.value), FreeSlot(s.files);
      if k < |s.nodes| && i < |s.files| {
        RefThenUnref(s, i, k);
      }
    }
  }

  lemma OpenDirKeeps(s: Vfs, path: Option<string>, found: bool)
    requires Inv(s)
    ensures Inv(DoOpenDir(s, path, found).0)
    ensures DoOpenDir(s, path, found).1.NullDir? ==> DoOpenDir(s, path, found).0 == s
  {
    hide Openings, Lookup, FreeSlot, Ref, Unref;
    if path.Some? {
      var k, i := Lookup(s.nodes, path.value), FreeSlot(s.files);
      if k < |s.nodes| && i < |s.files| {
        RefKeeps(s, i, k);
        RefThenUnref(s, i, k);
      }
    }
  }

  lemma CloseKeeps(s: Vfs, fd: int)
    requires Inv(s)
    ensures forall driver :: Inv(DoClose(s, fd, driver).0) && DoCloseDir(s, fd, driver).0 == DoClose(s, fd, driver).0
  {
    hide Openings, Unref;
    if Slot(s, fd).Some? {
      UnrefKeeps(s, Slot(s, fd).value);
    }
  }

  lemma StepKeeps(s: Vfs, c: Call)
    requires Inv(s)
    ensures Inv(Next(s, c).0)
  {
    hide DoRegister, DoUnregister, DoOpen, DoClose, DoVisit, DoOpenDir, DoCloseDir;
    match c
    case Register(path, kind, memory) => RegisterKeeps(s, path, if kind.FsDev? then FsDev else CharDev, memory);
    case Unregister(path) => UnregisterKeeps(s, path);
    case Open(path, flags, driver) => OpenKeeps(s, path, flags, driver);
    case Close(fd, _) => CloseKeeps(s, fd);
    case Visit(path, driver) => VisitKeeps(s, path, driver);
    case OpenDir(path, found) => OpenDirKeeps(s, path, found);
    case CloseDir(fd, driver) => CloseKeeps(s, fd);
  }

  function NoFiles(n: nat): (f: seq<Option<nat>>)
    ensures |f| == n
    ensures forall i :: 0 <= i < n ==> f[i] == None
  {
    seq(n, _ => None)
  }

  /** After vfs_init. */
  predicate Start(s: Vfs) {
    s == Vfs(s.offset, NoFiles(2 * |s.nodes|), seq(|s.nodes|, _ => EMPTY))
  }

  lemma {:induction false} NoOpenings(n: nat, k: nat)
    ensures Openings(NoFiles(n), k) == 0
  {
    if n > 0 {
      assert NoFiles(n)[..n - 1] == NoFiles(n - 1);
      NoOpenings(n - 1, k);
    }
  }

  lemma StartHolds(s: Vfs)
    requires Start(s)
    ensures Inv(s)
  {
    hide Openings;
    forall k | 0 <= k < |s.nodes| ensures s.nodes[k].refs == Openings(s.files, k) {
      NoOpenings(2 * |s.nodes|, k);
    }
  }

  lemma StepIsSound(s: Vfs, c: Call)
    requires Sound(s)
    ensures var t := Next(s, c).0; Sound(t) && |t.nodes| == |s.nodes| && t.offset == s.offset
  {
    hide Lookup, FreeSlot, Unused;
  }

  /** The table after any sequence of calls. */
  ghost function Run(s: Vfs, calls: seq<Call>): (t: Vfs)
    requires Sound(s)
    ensures Sound(t) && |t.nodes| == |s.nodes| && t.offset == s.offset
    decreases |calls|
  {
    if calls == [] then s
    else
      StepIsSound(s, calls[0]);
      Run(Next(s, calls[0]).0, calls[1..])
  }

  lemma {:induction false} RunKeeps(s: Vfs, calls: seq<Call>)
    requires Inv(s)
    ensures Inv(Run(s, calls))
    decreases |calls|
  {
    hide Next, Openings;
    if calls != [] {
      StepKeeps(s, calls[0]);
      RunKeeps(Next(s, calls[0]).0, calls[1..]);
    }
  }

  // ----- what follows

  /** In every reachable table: an open fd refers to a registered inode; the reference
      count of an inode is the number of open fds on it, is never zero where inode_unref
      takes one off, and is at most the number of slots. */
  lemma ReachableTables(s: Vfs, calls: seq<Call>, fd: int)
    requires Start(s)
    requires Slot(Run(s, calls), fd).Some?
    ensures var t := Run(s, calls);
            var k := t.files[fd - t.offset].value;
            && k < |t.nodes| && t.nodes[k].name.Some? && !t.nodes[k].kind.NotInit?
            && t.nodes[k].refs == Openings(t.files, k)
            && 0 < t.nodes[k].refs <= |t.files| == 2 * |s.nodes|
  {
    hide Run, Openings;
    StartHolds(s);
    RunKeeps(s, calls);
    var t := Run(s, calls);
    var i := fd - t.offset;
    OpeningsSeen(t.files, t.files[i].value);
    assert t.files[i] in t.files;
  }

  // ----- the width of the counts

  /** Every count fits the uint8_t that holds it. */
  ghost predicate Fits(s: Vfs, calls: seq<Call>)
    requires Sound(s)
  {
    forall k :: 0 <= k < |s.nodes| ==> Run(s, calls).nodes[k].refs < 256
  }

  /** A table in which node 0 is a device that the first j slots are open on. */
  function Opened(s: Vfs, j: nat): Vfs
    requires |s.nodes| > 0
  {
    s.(files := seq(|s.files|, i => if i < j then Some(0) else None),
       nodes := s.nodes[0 := Inode(Some("/d"), CharDev, j, 0)])
  }

  lemma OneMoreOpened(s: Vfs, j: nat)
    requires |s.nodes| > 0 && j < |s.files| == 2 * |s.nodes|
    ensures Sound(Opened(s, j)) && Next(Opened(s, j), Open(Some("/d"), 0, 0)).0 == Opened(s, j + 1)
  {
    hide Lookup, FreeSlot;
    var t := Opened(s, j);
    assert Serves(t.nodes[0], "/d") && Lookup(t.nodes, "/d") == 0;
    assert t.files[j].None? && forall i :: 0 <= i < j ==> t.files[i].Some?;
    assert FreeSlot(t.files) == j;
  }

  lemma {:induction false} ManyOpened(s: Vfs, j: nat, k: nat)
    requires |s.nodes| > 0 && j + k <= |s.files| == 2 * |s.nodes|
    ensures Sound(Opened(s, j)) && Run(Opened(s, j), seq(k, _ => Open(Some("/d"), 0, 0))) == Opened(s, j + k)
    decreases k
  {
    hide Next, Opened;
    var opens := seq(k, _ => Open(Some("/d"), 0, 0));
    OpenedIsSound(s, j);
    if k > 0 {
      OneMoreOpened(s, j);
      assert opens[1..] == seq(k - 1, _ => Open(Some("/d"), 0, 0));
      ManyOpened(s, j + 1, k - 1);
    }
  }

  lemma OpenedIsSound(s: Vfs, j: nat)
    requires |s.nodes| > 0 && |s.files| == 2 * |s.nodes|
    ensures Sound(Opened(s, j))
  {}

  lemma RegisteredIsOpened(s: Vfs)
    requires Start(s) && |s.nodes| > 0
    ensures Sound(s) && Next(s, Register(Some("/d"), CharDev, true)).0 == Opened(s, 0)
  {
    hide Unused;
    assert s.nodes[0].kind.NotInit? && Unused(s.nodes) == 0;
  }

  /** Registering a device and opening it 256 times. */
  function Crowd(): seq<Call> {
    [Register(Some("/d"), CharDev, true)] + seq(256, _ => Open(Some("/d"), 0, 0))
  }

  /** All counts fit, over every run, exactly when there are fewer than 256 file slots. */
  lemma CountsFit(s: Vfs)
    requires Start(s)
    ensures (forall calls :: Fits(s, calls)) <==> 2 * |s.nodes| < 256
  {
    hide Run, Openings, Next, Opened;
    StartHolds(s);
    if 2 * |s.nodes| < 256 {
      forall calls ensures Fits(s, calls) {
        RunKeeps(s, calls);
        forall k | 0 <= k < |s.nodes| ensures Run(s, calls).nodes[k].refs < 256 {
          OpeningsBound(Run(s, calls).files, k);
        }
      }
    } else {
      RegisteredIsOpened(s);
      ManyOpened(s, 0, 256);
      RunFirst(s, Register(Some("/d"), CharDev, true), seq(256, _ => Open(Some("/d"), 0, 0)));
      assert Run(s, Crowd()).nodes[0].refs == 256 by { OpenedCount(s, 256); }
      assert !Fits(s, Crowd());
    }
  }

  lemma RunFirst(s: Vfs, c: Call, calls: seq<Call>)
    requires Sound(s)
    ensures Sound(Next(s, c).0) && Run(s, [c] + calls) == Run(Next(s, c).0, calls)
  {
    hide Next;
    StepIsSound(s, c);
    assert ([c] + calls)[1..] == calls;
  }

  lemma OpenedCount(s: Vfs, j: nat)
    requires |s.nodes| > 0
    ensures |Opened(s, j).nodes| == |s.nodes| && Opened(s, j).nodes[0].refs == j
  {}

  lemma {:induction false} OpeningsBound(files: seq<Option<nat>>, k: nat)
    ensures Openings(files, k) <= |files|
    decreases |files|
  {
    if files != [] {
      OpeningsBound(files[..|files| - 1], k);
    }
  }

  // ----- opening and closing

  /** aos_open: a successful open gives an fd that no one held, on the first inode that
      serves the path; every other slot is as it was.  A failed one leaves all slots. */
  lemma OpenGivesNewFd(s: Vfs, path: Option<string>, flags: int, driver: int)
    requires Inv(s)
    ensures var (t, r) := DoOpen(s, path, flags, driver);
            if r.Fd? then
              && Slot(s, r.fd).None? && Slot(t, r.fd).Some?
              && path.Some? && t.files[r.fd - s.offset] == Some(Lookup(s.nodes, path.value))
              && (forall fd :: fd != r.fd ==> Slot(t, fd) == Slot(s, fd))
              && (forall i :: 0 <= i < |s.files| && i != r.fd - s.offset ==> t.files[i] == s.files[i])
            else t.files == s.files
  {
    hide Openings, Lookup, FreeSlot;
    if path.Some? {
      var k, i := Lookup(s.nodes, path.value), FreeSlot(s.files);
      if k < |s.nodes| && i < |s.files| {
        RefThenUnref(s.(nodes := s.nodes[k := s.nodes[k].(flags := flags)]), i, k);
      }
    }
  }

  /** Closing what was just opened succeeds, even when the driver fails to close, and restores
      every slot and every reference count. */
  lemma OpenThenClose(s: Vfs, path: Option<string>, flags: int, driver: int, closing: int)
    requires Inv(s) && DoOpen(s, path, flags, driver).1.Fd?
    ensures var (t, r) := DoOpen(s, path, flags, driver);
            && Sound(t)
            && var (u, q) := DoClose(t, r.fd, closing);
               && q == Success && u.files == s.files && |u.nodes| == |s.nodes|
               && forall k :: 0 <= k < |s.nodes| ==> u.nodes[k].(flags := 0) == s.nodes[k].(flags := 0)
  {
    hide Openings, Lookup, FreeSlot;
    OpenKeeps(s, path, flags, driver);
    var k, i := Lookup(s.nodes, path.value), FreeSlot(s.files);
    RefThenUnref(s.(nodes := s.nodes[k := s.nodes[k].(flags := flags)]), i, k);
  }

  /** aos_unregister: refused exactly while some open fd is on the inode. */
  lemma UnregisterBusy(s: Vfs, path: string)
    requires Inv(s) && Lookup(s.nodes, path) < |s.nodes|
    ensures DoUnregister(s, Some(path)).1 == Err(EBUSY) <==> Some(Lookup(s.nodes, path)) in s.files
    ensures DoUnregister(s, Some(path)).1 == Success <==> Some(Lookup(s.nodes, path)) !in s.files
  {
    hide Openings, Lookup;
    OpeningsSeen(s.files, Lookup(s.nodes, path));
  }

  // ----- inode_avail_count

  function FreeNodes(nodes: seq<Inode>): nat {
    if nodes == [] then 0 else FreeNodes(nodes[..|nodes| - 1]) + if nodes[|nodes| - 1].kind.NotInit? then 1 else 0
  }

  /** The nodes before the first used one. */
  function LeadingFree(nodes: seq<Inode>): (k: nat)
    ensures k <= |nodes|
    ensures forall i :: 0 <= i < k ==> nodes[i].kind.NotInit?
    ensures k < |nodes| ==> !nodes[k].kind.NotInit?
  {
    if nodes == [] || !nodes[0].kind.NotInit? then 0 else 1 + LeadingFree(nodes[1..])
  }

  /** inode_avail_count tests the node at its own count, not at its loop variable, and so
      counts the free nodes at the front. */
  method AvailCount(nodes: seq<Inode>) returns (count: nat)
    ensures count == LeadingFree(nodes)
  {
    hide LeadingFree;
    count := 0;
    var e := 0;
    while e < |nodes|
      invariant 0 <= count <= e <= |nodes|
      invariant forall i :: 0 <= i < count ==> nodes[i].kind.NotInit?
      invariant count < e ==> !nodes[count].kind.NotInit?
    {
      if nodes[count].kind.NotInit? {
        count := count + 1;
      }
      e := e + 1;
    }
  }

  lemma {:induction false} FreeNodesSplit(nodes: seq<Inode>, k: nat)
    requires k <= |nodes| && forall i :: 0 <= i < k ==> nodes[i].kind.NotInit?
    ensures FreeNodes(nodes) >= k
    ensures FreeNodes(nodes) == k <==> forall i :: k <= i < |nodes| ==> !nodes[i].kind.NotInit?
    decreases |nodes|
  {
    if k < |nodes| {
      FreeNodesSplit(nodes[..|nodes| - 1], k);
    } else if k > 0 {
      FreeNodesSplit(nodes[..k - 1], k - 1);
    }
  }

  /** That is the number of free nodes exactly when no free node follows a used one. */
  lemma AvailCountExact(nodes: seq<Inode>)
    ensures LeadingFree(nodes) == FreeNodes(nodes)
       <==> forall i, j :: 0 <= i < j < |nodes| && nodes[j].kind.NotInit? ==> nodes[i].kind.NotInit?
  {
    hide LeadingFree, FreeNodes;
    var k := LeadingFree(nodes);
    FreeNodesSplit(nodes, k);
    if forall i, j :: 0 <= i < j < |nodes| && nodes[j].kind.NotInit? ==> nodes[i].kind.NotInit? {
      forall j | k < j < |nodes| ensures !nodes[j].kind.NotInit? {
        assert k < j;
      }
    }
  }

  /** It is wrong in reachable tables: after one registration it is 0, while all nodes but
      one are free. */
  lemma AvailCountAfterRegister(s: Vfs)
    requires Start(s) && |s.nodes| > 0
    ensures Sound(s)
    ensures var t := Next(s, Register(Some("/d"), CharDev, true)).0;
            LeadingFree(t.nodes) == 0 && FreeNodes(t.nodes) == |s.nodes| - 1
  {
    hide LeadingFree, FreeNodes, Next, Opened;
    RegisteredIsOpened(s);
    FirstUsed(s);
  }

  lemma FirstUsed(s: Vfs)
    requires Start(s) && |s.nodes| > 0
    ensures var t := Opened(s, 0); LeadingFree(t.nodes) == 0 && FreeNodes(t.nodes) == |s.nodes| - 1
  {
    hide FreeNodes;
    AllButFirst(Opened(s, 0).nodes);
  }

  lemma {:induction false} AllButFirst(nodes: seq<Inode>)
    requires nodes != [] && !nodes[0].kind.NotInit? && forall i :: 0 < i < |nodes| ==> nodes[i].kind.NotInit?
    ensures FreeNodes(nodes) == |nodes| - 1
    decreases |nodes|
  {
    if |nodes| > 1 {
      AllButFirst(nodes[..|nodes| - 1]);
    } else {
      assert nodes[..0] == [];
    }
  }

  // ----- which inode a path means, and what each call answers

  /** The path is the node's name or, for a file system, that name, a slash and more. */
  ghost predicate Below(n: Inode, path: string) {
    n.name.Some? && (path == n.name.value || (n.kind.FsDev? && exists rest :: path == n.name.value + "/" + rest))
  }

  lemma ServesIsBelow(n: Inode, path: string)
    ensures Serves(n, path) <==> Below(n, path)
  {
    if n.name.Some? {
      var name := n.name.value;
      if n.kind.FsDev? && name < path && path[|name|] == '/' {
        assert path == name + "/" + path[|name| + 1..];
      }
      if rest :| path == name + "/" + rest {
        assert name < path && path[|name|] == '/';
      }
    }
  }

  ghost predicate NoneBelow(nodes: seq<Inode>, path: string) {
    forall i :: 0 <= i < |nodes| ==> !Below(nodes[i], path)
  }

  /** Node k is the first that the path means. */
  ghost predicate Means(nodes: seq<Inode>, path: string, k: nat) {
    k < |nodes| && Below(nodes[k], path) && forall i :: 0 <= i < k ==> !Below(nodes[i], path)
  }

  lemma LookupMeans(nodes: seq<Inode>, path: string)
    ensures if Lookup(nodes, path) == |nodes| then NoneBelow(nodes, path) else Means(nodes, path, Lookup(nodes, path))
  {
    hide Lookup, Below;
    forall i | 0 <= i < |nodes| ensures Serves(nodes[i], path) <==> Below(nodes[i], path) {
      ServesIsBelow(nodes[i], path);
    }
  }

  ghost predicate Full(files: seq<Option<nat>>) {
    forall i :: 0 <= i < |files| ==> files[i].Some?
  }

  lemma FreeSlotIsFull(files: seq<Option<nat>>)
    ensures FreeSlot(files) == |files| <==> Full(files)
  {
    hide FreeSlot;
  }

  /** aos_open: what it answers, for every path and every answer of the driver, and which
      inode a new fd is on. */
  lemma OpenAnswers(s: Vfs, path: Option<string>, flags: int, driver: int)
    ensures var (t, r) := DoOpen(s, path, flags, driver);
            if path.None? then r == Err(EINVAL)
            else if |path.value| > 256 then r == Err(ENAMETOOLONG)
            else if NoneBelow(s.nodes, path.value) then r == Err(ENOSYS)
            else if Full(s.files) then r == Err(ENFILE)
            else if driver != 0 then r == Driver(driver)
            else
              && r.Fd? && 0 <= r.fd - s.offset < |t.files| == |s.files| && s.files[r.fd - s.offset].None?
              && exists k: nat :: && Means(s.nodes, path.value, k) && t.files == s.files[r.fd - s.offset := Some(k)]
                             && t.nodes == s.nodes[k := s.nodes[k].(flags := flags, refs := s.nodes[k].refs + 1)]
  {
    hide Lookup, FreeSlot, Below;
    if path.Some? {
      LookupMeans(s.nodes, path.value);
      FreeSlotIsFull(s.files);
    }
  }

  /** The slot of fd is given back and its inode has one opening less; nothing else changes. */
  ghost predicate GaveBack(s: Vfs, t: Vfs, fd: int, k: nat) {
    var i := fd - s.offset;
    && 0 <= i < |s.files| && s.files[i] == Some(k) && k < |s.nodes| && s.nodes[k].refs > 0
    && t == s.(files := s.files[i := None], nodes := s.nodes[k := s.nodes[k].(refs := s.nodes[k].refs - 1)])
  }

  ghost predicate IsOpen(s: Vfs, fd: int) {
    0 <= fd - s.offset < |s.files| && s.files[fd - s.offset].Some?
  }

  /** aos_close: refused exactly for an fd that is not open. */
  lemma CloseAnswers(s: Vfs, fd: int, driver: int)
    requires Inv(s)
    ensures var (t, r) := DoClose(s, fd, driver);
            if !IsOpen(s, fd) then r == Err(ENOSYS) && t == s
            else r == Success && exists k: nat :: GaveBack(s, t, fd, k)
  {
    hide Openings;
    if IsOpen(s, fd) {
      UnrefKeeps(s, fd - s.offset);
      assert GaveBack(s, DoClose(s, fd, driver).0, fd, s.files[fd - s.offset].value);
    }
  }

  /** aos_closedir: the driver is asked exactly when the inode is a file system. */
  lemma CloseDirAnswers(s: Vfs, fd: int, driver: int)
    requires Inv(s)
    ensures var (t, r) := DoCloseDir(s, fd, driver);
            if !IsOpen(s, fd) then r == Err(ENOENT) && t == s
            else exists k: nat :: && GaveBack(s, t, fd, k)
                                  && r == if s.nodes[k].kind.FsDev? then Driver(driver) else Err(ENOSYS)
  {
    hide Openings;
    if IsOpen(s, fd) {
      UnrefKeeps(s, fd - s.offset);
      assert GaveBack(s, DoCloseDir(s, fd, driver).0, fd, s.files[fd - s.offset].value);
    }
  }

  /** aos_stat, aos_unlink, aos_rename and aos_mkdir. */
  lemma VisitAnswers(s: Vfs, path: Option<string>, driver: int)
    ensures var r := DoVisit(s, path, driver).1;
            if path.None? then r == Err(EINVAL)
            else if NoneBelow(s.nodes, path.value) then r == Err(ENODEV)
            else if Full(s.files) then r == Err(ENOENT)
            else exists k: nat :: Means(s.nodes, path.value, k)
                             && r == if s.nodes[k].kind.FsDev? then Driver(driver) else Err(ENOSYS)
  {
    hide Lookup, FreeSlot, Below;
    if path.Some? {
      LookupMeans(s.nodes, path.value);
      FreeSlotIsFull(s.files);
    }
  }

  /** aos_opendir: a directory exactly on a file system that gave one. */
  lemma OpenDirAnswers(s: Vfs, path: Option<string>, found: bool)
    ensures var (t, r) := DoOpenDir(s, path, found);
            if path.None? || NoneBelow(s.nodes, path.value) || Full(s.files) then r == NullDir
            else
              exists k: nat :: && Means(s.nodes, path.value, k)
                          && if s.nodes[k].kind.FsDev? && found then
                               && r.Fd? && 0 <= r.fd - s.offset < |t.files|
                               && t.files[r.fd - s.offset] == Some(k)
                             else r == NullDir
  {
    hide Lookup, FreeSlot, Below;
    if path.Some? {
      LookupMeans(s.nodes, path.value);
      FreeSlotIsFull(s.files);
    }
  }

  /** aos_unregister_driver and aos_unregister_fs: that inode and no other becomes unused,
      unless it is in use. */
  lemma UnregisterAnswers(s: Vfs, path: Option<string>)
    ensures var (t, r) := DoUnregister(s, path);
            if path.None? then r == Err(EINVAL) && t == s
            else if NoneBelow(s.nodes, path.value) then r == Err(ENODEV) && t == s
            else
              exists k: nat :: && Means(s.nodes, path.value, k)
                          && if s.nodes[k].refs > 0 then r == Err(EBUSY) && t == s
                             else
                               && r == Success && t.files == s.files && |t.nodes| == |s.nodes|
                               && t.nodes[k].name.None? && t.nodes[k].kind.NotInit?
                               && forall i :: 0 <= i < |s.nodes| && i != k ==> t.nodes[i] == s.nodes[i]
  {
    hide Lookup, Below;
    if path.Some? {
      LookupMeans(s.nodes, path.value);
    }
  }

  /** A path that meant nothing, once registered, opens the inode registered for it. */
  lemma RegisterThenOpen(s: Vfs, path: string, kind: Kind, flags: int)
    requires Inv(s) && !kind.NotInit? && NoneBelow(s.nodes, path) && |path| <= 256 && !Full(s.files)
    requires DoRegister(s, Some(path), kind, true).1 == Success
    ensures DoOpen(s, Some(path), flags, 0).1 == Err(ENOSYS)
    ensures var t := DoRegister(s, Some(path), kind, true).0;
            var (u, r) := DoOpen(t, Some(path), flags, 0);
            && r.Fd? && 0 <= r.fd - s.offset < |u.files| && u.files[r.fd - s.offset].Some?
            && var k := u.files[r.fd - s.offset].value;
               && k < |s.nodes| && s.nodes[k].kind.NotInit? && t.nodes[k].name == Some(path) && t.nodes[k].kind == kind
  {
    hide Lookup, FreeSlot, Unused;
    OpenAnswers(s, Some(path), flags, 0);
    var t := DoRegister(s, Some(path), kind, true).0;
    OpenAnswers(t, Some(path), flags, 0);
    var k := Unused(s.nodes);
    assert Below(t.nodes[k], path);
    assert forall i :: 0 <= i < |s.nodes| && i != k ==> t.nodes[i] == s.nodes[i] && !Below(t.nodes[i], path);
  }

  /** Registering: refused without a path that starts with a slash, or without a free inode or
      memory; else the first unused inode takes the path and the kind, and no other changes. */
  lemma RegisterAnswers(s: Vfs, path: Option<string>, kind: Kind, memory: bool)
    ensures var (t, r) := DoRegister(s, path, kind, memory);
            if path.None? || |path.value| == 0 || path.value[0] != '/' then r == Err(EINVAL) && t == s
            else if !memory || (forall i :: 0 <= i < |s.nodes| ==> !s.nodes[i].kind.NotInit?) then
              r == Err(ENOMEM) && t == s
            else
              && r == Success && t.files == s.files && |t.nodes| == |s.nodes|
              && exists k :: && 0 <= k < |s.nodes| && s.nodes[k].kind.NotInit?
                             && (forall i :: 0 <= i < k ==> !s.nodes[i].kind.NotInit?)
                             && t.nodes[k].name == path && t.nodes[k].kind == kind
                             && forall i :: 0 <= i < |s.nodes| && i != k ==> t.nodes[i] == s.nodes[i]
  {
    hide Unused;
    var k := Unused(s.nodes);
    if k < |s.nodes| {
      assert s.nodes[k].kind.NotInit?;
    }
  }
}
