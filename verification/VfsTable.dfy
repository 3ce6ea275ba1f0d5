/** kernel/vfs/vfs.c and vfs_inode.c: the calls as they work on the two tables in place. */
module VfsTable {
  import opened Options
  import opened VfsSpec

  class Tables {
    const offset: nat
    const files: array<Option<nat>>
    const nodes: array<Inode>

    ghost predicate Shape()
      reads this
    {
      files.Length == 2 * nodes.Length && (files as object) != nodes
    }

    ghost function Value(): Vfs
      requires Shape()
      reads this, files, nodes
    {
      Vfs(offset, files[..], nodes[..])
    }

    ghost predicate Valid()
      reads this, files, nodes
    {
      Shape() && Inv(Value())
    }

    /** vfs_init on zeroed tables. */
    constructor (offset: nat, devNodes: nat)
      ensures Valid() && Start(Value()) && fresh(files) && fresh(nodes)
    {
      this.offset := offset;
      files := new Option<nat>[2 * devNodes](_ => None);
      nodes := new Inode[devNodes](_ => EMPTY);
      new;
      assert files[..] == NoFiles(2 * devNodes);
      assert nodes[..] == seq(devNodes, _ => EMPTY);
      StartHolds(Value());
    }

    /** inode_open. */
    method InodeOpen(path: string) returns (e: nat)
      requires Shape()
      ensures e == Lookup(nodes[..], path)
    {
      e := 0;
      while e < nodes.Length && !Serves(nodes[e], path)
        invariant 0 <= e <= nodes.Length
        invariant forall i :: 0 <= i < e ==> !Serves(nodes[i], path)
      {
        e := e + 1;
      }
      LookupIs(nodes[..], path, e);
    }

    /** inode_alloc. */
    method InodeAlloc() returns (e: nat)
      requires Shape()
      ensures e == Unused(nodes[..])
    {
      e := 0;
      while e < nodes.Length && !nodes[e].kind.NotInit?
        invariant 0 <= e <= nodes.Length
        invariant forall i :: 0 <= i < e ==> !nodes[i].kind.NotInit?
      {
        e := e + 1;
      }
      UnusedIs(nodes[..], e);
    }

    /** new_file: a slot is taken and the inode referenced; the number of slots when none is free. */
    method NewFile(node: nat) returns (idx: nat)
      requires Shape() && node < nodes.Length
      modifies files, nodes
      ensures idx == FreeSlot(old(files[..])) <= files.Length
      ensures Value() == if idx < files.Length then Ref(old(Value()), idx, node) else old(Value())
    {
      idx := 0;
      while idx < files.Length && files[idx].Some?
        invariant 0 <= idx <= files.Length
        invariant forall i :: 0 <= i < idx ==> files[i].Some?
      {
        idx := idx + 1;
      }
      FreeSlotIs(files[..], idx);
      if idx < files.Length {
        files[idx] := Some(node);
        nodes[node] := nodes[node].(refs := nodes[node].refs + 1);
      }
    }

    /** del_file. */
    method DelFile(idx: nat)
      requires Shape() && idx < files.Length && files[idx].Some? && files[idx].value < nodes.Length
      modifies files, nodes
      ensures Value() == Unref(old(Value()), idx)
    {
      var node := files[idx].value;
      if nodes[node].refs > 0 {
        nodes[node] := nodes[node].(refs := nodes[node].refs - 1);
      }
      files[idx] := None;
      assert nodes[..] == Unref(old(Value()), idx).nodes;
    }

    /** aos_open. */
    method Open(path: Option<string>, flags: int, driver: int) returns (r: Result)
      requires Valid()
      modifies files, nodes
      ensures Valid() && (Value(), r) == DoOpen(old(Value()), path, flags, driver)
    {
      OpenKeeps(Value(), path, flags, driver);
      hide Inv, Ref, Unref, Lookup, FreeSlot;
      if path.None? {
        return Err(EINVAL);
      }
      if |path.value| > PATH_MAX {
        return Err(ENAMETOOLONG);
      }
      var node := InodeOpen(path.value);
      if node == nodes.Length {
        return Err(ENOSYS);
      }
      nodes[node] := nodes[node].(flags := flags);
      ghost var t := Value();
      assert t == old(Value()).(nodes := old(nodes[..])[node := old(nodes[..])[node].(flags := flags)]);
      var file := NewFile(node);
      if file == files.Length {
        return Err(ENFILE);
      }
      RefFacts(t, file, node);
      if driver != 0 {
        DelFile(file);
        return Driver(driver);
      }
      r := Fd(file + offset);
    }

    /** aos_close; whatever the driver answered, the lock's success is returned. */
    method Close(fd: int, driver: int) returns (r: Result)
      requires Valid()
      modifies files, nodes
      ensures Valid() && (Value(), r) == DoClose(old(Value()), fd, driver)
      ensures r == if Slot(old(Value()), fd).Some? then Success else Err(ENOSYS)
    {
      CloseKeeps(Value(), fd);
      hide Unref, Openings;
      var i := fd - offset;
      if i < 0 || i >= files.Length || files[i].None? {
        return Err(ENOSYS);
      }
      r := Driver(driver);
      r := Success;                 // what aos_mutex_lock returned
      DelFile(i);
    }

    /** aos_stat, aos_unlink, aos_rename, aos_mkdir. */
    method Visit(path: Option<string>, driver: int) returns (r: Result)
      requires Valid()
      modifies files, nodes
      ensures Valid() && (Value(), r) == DoVisit(old(Value()), path, driver) && Value() == old(Value())
    {
      VisitKeeps(Value(), path, driver);
      hide Inv, Ref, Unref, Lookup, FreeSlot;
      if path.None? {
        return Err(EINVAL);
      }
      var node := InodeOpen(path.value);
      if node == nodes.Length {
        return Err(ENODEV);
      }
      ghost var t := Value();
      var file := NewFile(node);
      if file == files.Length {
        return Err(ENOENT);
      }
      RefFacts(t, file, node);
      r := if nodes[node].kind.FsDev? then Driver(driver) else Err(ENOSYS);
      DelFile(file);
    }

    /** aos_opendir. */
    method OpenDir(path: Option<string>, found: bool) returns (r: Result)
      requires Valid()
      modifies files, nodes
      ensures Valid() && (Value(), r) == DoOpenDir(old(Value()), path, found)
    {
      OpenDirKeeps(Value(), path, found);
      hide Inv, Ref, Unref, Lookup, FreeSlot;
      if path.None? {
        return NullDir;
      }
      var node := InodeOpen(path.value);
      if node == nodes.Length {
        return NullDir;
      }
      ghost var t := Value();
      var file := NewFile(node);
      if file == files.Length {
        return NullDir;
      }
      RefFacts(t, file, node);
      if nodes[node].kind.FsDev? && found {
        return Fd(file + offset);
      }
      DelFile(file);
      r := NullDir;
    }

    /** aos_closedir. */
    method CloseDir(fd: int, driver: int) returns (r: Result)
      requires Valid()
      modifies files, nodes
      ensures Valid() && (Value(), r) == DoCloseDir(old(Value()), fd, driver)
    {
      CloseKeeps(Value(), fd);
      hide Unref, Openings;
      var i := fd - offset;
      if i < 0 || i >= files.Length || files[i].None? {
        return Err(ENOENT);
      }
      r := if nodes[files[i].value].kind.FsDev? then Driver(driver) else Err(ENOSYS);
      DelFile(i);
    }

    /** aos_register_driver and aos_register_fs. */
    method Register(path: Option<string>, kind: Kind, memory: bool) returns (r: Result)
      requires Valid() && !kind.NotInit?
      modifies nodes
      ensures Valid() && (Value(), r) == DoRegister(old(Value()), path, kind, memory)
    {
      RegisterKeeps(Value(), path, kind, memory);
      hide Inv, Unused;
      if path.None? || path.value == "" || path.value[0] != '/' {
        return Err(EINVAL);
      }
      var e := InodeAlloc();
      if e == nodes.Length || !memory {
        return Err(ENOMEM);
      }
      nodes[e] := nodes[e].(name := path);
      nodes[e] := nodes[e].(kind := kind);
      assert nodes[..] == old(nodes[..])[e := old(nodes[..])[e].(name := path, kind := kind)];
      r := Success;
    }

    /** aos_unregister_driver and aos_unregister_fs. */
    method Unregister(path: Option<string>) returns (r: Result)
      requires Valid()
      modifies nodes
      ensures Valid() && (Value(), r) == DoUnregister(old(Value()), path)
    {
      UnregisterKeeps(Value(), path);
      hide Inv, Lookup;
      if path.None? {
        return Err(EINVAL);
      }
      var node := InodeOpen(path.value);
      if node == nodes.Length {
        return Err(ENODEV);
      }
      if nodes[node].refs > 0 {
        return Err(EBUSY);
      }
      nodes[node] := Inode(None, NotInit, 0, 0);
      r := Success;
    }
  }

  lemma RefFacts(s: Vfs, slot: nat, node: nat)
    requires slot < |s.files| && node < |s.nodes|
    ensures var t := Ref(s, slot, node);
            && |t.files| == |s.files| && |t.nodes| == |s.nodes|
            && t.files[slot] == Some(node) && t.nodes[node].kind == s.nodes[node].kind
  {}

  lemma {:induction false} LookupIs(ns: seq<Inode>, path: string, k: nat)
    requires k <= |ns| && (forall i :: 0 <= i < k ==> !Serves(ns[i], path)) && (k < |ns| ==> Serves(ns[k], path))
    ensures k == Lookup(ns, path)
  {}

  lemma {:induction false} UnusedIs(ns: seq<Inode>, k: nat)
    requires k <= |ns| && (forall i :: 0 <= i < k ==> !ns[i].kind.NotInit?) && (k < |ns| ==> ns[k].kind.NotInit?)
    ensures k == Unused(ns)
  {}

  lemma {:induction false} FreeSlotIs(fs: seq<Option<nat>>, k: nat)
    requires k <= |fs| && (forall i :: 0 <= i < k ==> fs[i].Some?) && (k < |fs| ==> fs[k].None?)
    ensures k == FreeSlot(fs)
  {}
}
