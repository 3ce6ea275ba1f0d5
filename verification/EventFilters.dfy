/** kernel/yloop/local_event.c: the filter list in the heap and its dispatch loop. */
module EventFilters {
  import opened DList
  import opened LocalEvents

  type FilterNode = Node<Filter>

  ghost predicate Carry(ns: seq<FilterNode>, fs: seq<Filter>)
    reads ns
  {
    |fs| == |ns| && forall i :: 0 <= i < |ns| ==> ns[i].data == fs[i]
  }

  lemma CarryAt(ns: seq<FilterNode>, fs: seq<Filter>)
    requires Carry(ns, fs)
    ensures |fs| == |ns| && forall i :: 0 <= i < |ns| ==> ns[i].data == fs[i]
  {}

  class FilterList {
    const list: List<Filter>
    ghost var filters: seq<Filter>  // in registration order
    ghost var freed: set<FilterNode>

    ghost predicate Valid()
      reads this, list, list.Footprint()
    {
      list.Valid() && Carry(list.nodes, filters) && freed !! list.Footprint()
    }

    /** The list has only got new nodes at its end. */
    twostate predicate Grown(nodes: seq<FilterNode>, footprint: set<FilterNode>)
      reads list
    {
      && nodes <= list.nodes
      && forall n :: n in list.Footprint() ==> n in footprint || fresh(n)
    }

    constructor ()
      ensures Valid() && filters == [] && fresh(list) && fresh(list.head)
    {
      list := new List(Filter(EV_ALL, NONE, 0));
      filters, freed := [], {};
    }

    /** aos_register_event_filter; `memory` says that the allocator has room. */
    method Register(kind: bv16, cb: int, priv: int, memory: bool) returns (ok: bool)
      requires Valid()
      modifies this`filters, list`nodes, list.Footprint()`prev, list.Footprint()`next
      ensures Valid() && ok == (cb != NONE && memory)
      ensures filters == if ok then old(filters) + [Filter(kind, cb, priv)] else old(filters)
      ensures Grown(old(list.nodes), old(list.Footprint()))
    {
      hide Ring;
      if cb == NONE || !memory {
        return false;
      }
      var node := new Node(Filter(kind, cb, priv));
      list.AddLast(node);
      filters := filters + [node.data];
      ok := true;
    }

    /** The first registration of a filter, or the head. */
    method Seek(f: Filter) returns (cursor: FilterNode, ghost k: nat)
      requires Valid()
      ensures k == Find(filters, f)
      ensures cursor == if k == |filters| then list.head else list.nodes[k]
      ensures cursor == list.head <==> k == |filters|
    {
      hide Ring, Find, Carry;
      CarryAt(list.nodes, filters);
      list.HeadApart();
      k := 0;
      cursor := list.First();
      while cursor != list.head && cursor.data != f
        invariant k <= |filters|
        invariant cursor == if k == |filters| then list.head else list.nodes[k]
        invariant forall i :: 0 <= i < k ==> filters[i] != f
        decreases |filters| - k
      {
        list.WalkAt(k);
        cursor := cursor.next;
        k := k + 1;
      }
      FindIs(filters, f, k);
    }

    /** aos_unregister_event_filter: the first match is unlinked and freed. */
    method Unregister(kind: bv16, cb: int, priv: int) returns (ok: bool)
      requires Valid()
      modifies this`filters, this`freed, list`nodes, list.Footprint()`prev, list.Footprint()`next
      ensures Valid()
      ensures var k := Find(old(filters), Filter(kind, cb, priv));
              && ok == (k < |old(filters)|)
              && filters == if ok then old(filters)[..k] + old(filters)[k + 1..] else old(filters)
      ensures list.Footprint() <= old(list.Footprint())
    {
      hide Ring, Find;
      var node, k := Seek(Filter(kind, cb, priv));
      if node == list.head {
        return false;
      }
      Unlink(node, k);
      Free(node);
      ok := true;
    }

    method Unlink(node: FilterNode, ghost k: nat)
      requires Valid() && k < |filters| && node == list.nodes[k]
      modifies this`filters, list`nodes, list.Footprint()`prev, list.Footprint()`next
      ensures Valid() && filters == old(filters)[..k] + old(filters)[k + 1..]
      ensures node !in list.Footprint() && node !in freed
      ensures list.Footprint() <= old(list.Footprint())
    {
      hide Ring;
      list.Remove(node, k);
      filters := filters[..k] + filters[k + 1..];
    }

    method Free(node: FilterNode)
      requires Valid() && node !in list.Footprint() && node !in freed
      modifies this`freed
      ensures Valid() && freed == old(freed) + {node}
    {
      hide Ring;
      freed := freed + {node};
    }

    /** A callback registers filters. */
    method RegisterAll(regs: seq<Filter>)
      requires Valid()
      modifies this`filters, list`nodes, list.Footprint()`prev, list.Footprint()`next
      ensures Valid() && filters == old(filters) + Accepted(regs)
      ensures Grown(old(list.nodes), old(list.Footprint()))
    {
      hide Ring, Valid, Accepted, List.Footprint;
      AcceptedNone();
      for i := 0 to |regs|
        invariant Valid() && filters == old(filters) + Accepted(regs[..i])
        invariant Grown(old(list.nodes), old(list.Footprint()))
      {
        AcceptedNext(regs, i);
        var _ := Register(regs[i].kind, regs[i].cb, regs[i].priv, true);
      }
      assert regs[..|regs|] == regs;
    }

    /** handle_events: what is invoked for an event, in order, when each invocation in turn
        registers the filters that `work` says. */
    method HandleEvents(e: Event, work: seq<seq<Filter>>) returns (ran: seq<Invocation>)
      requires Valid()
      modifies this`filters, list`nodes, list.Footprint()`prev, list.Footprint()`next
      ensures Valid() && (filters, ran) == Dispatched(old(filters), e, work)
      ensures old(filters) <= filters
      ensures ran == if e.kind == EV_RPC then [Handler(e.value, e.extra)] else Called(filters, e)
      ensures Grown(old(list.nodes), old(list.Footprint()))
    {
      hide Ring, Valid, Accepted, Called, Walk;
      DispatchIs(filters, e, work);
      if e.kind == EV_RPC {
        ran := [Handler(e.value, e.extra)];
        RegisterAll(Head(work));
      } else {
        ran := CallFilters(e, work);
      }
    }

    method CallFilters(e: Event, work: seq<seq<Filter>>) returns (ran: seq<Invocation>)
      requires Valid()
      modifies this`filters, list`nodes, list.Footprint()`prev, list.Footprint()`next
      ensures Valid() && (filters, ran) == Walk(old(filters), 0, e, work)
      ensures Grown(old(list.nodes), old(list.Footprint()))
    {
      hide Ring, Valid, Accepted, List.Footprint, Walk;
      ran := [];
      var rest := work;
      AcceptedNone();
      Appended(ran, [], Walk(filters, 0, e, work).1);
      ghost var k := 0;
      var cursor := FirstFilter();
      while cursor != list.head
        invariant Valid() && k <= |filters|
        invariant At(cursor, k)
        invariant var (fs, more) := Walk(filters, k, e, rest);
                  (fs, ran + more) == Walk(old(filters), 0, e, work)
        invariant Grown(old(list.nodes), old(list.Footprint()))
        decreases |rest|, |filters| - k
      {
        WalkStep(filters, k, e, rest);
        var called;
        cursor, called, rest := Serve(cursor, k, e, rest);
        Appended(ran, called, Walk(filters, k + 1, e, rest).1);
        ran := ran + called;
        k := k + 1;
      }
      WalkStep(filters, k, e, rest);
      assert ran + [] == ran;
    }

    /** The cursor of the walk stands at position k; past the end that is the head. */
    ghost predicate At(cursor: FilterNode, k: nat)
      reads this, list
    {
      && k <= |filters| == |list.nodes|
      && cursor == (if k == |filters| then list.head else list.nodes[k])
      && (cursor == list.head <==> k == |filters|)
    }

    method FirstFilter() returns (cursor: FilterNode)
      requires Valid()
      ensures Valid() && At(cursor, 0)
    {
      hide Ring, Carry;
      CarryAt(list.nodes, filters);
      list.HeadApart();
      cursor := list.First();
    }

    /** The filter at the cursor is called if it wants the event, and only then the cursor
        moves on, over what the callback may have added. */
    method Serve(at: FilterNode, ghost k: nat, e: Event, work: seq<seq<Filter>>)
      returns (cursor: FilterNode, called: seq<Invocation>, rest: seq<seq<Filter>>)
      requires Valid() && k < |filters| && At(at, k)
      modifies this`filters, list`nodes, list.Footprint()`prev, list.Footprint()`next
      ensures Valid() && At(cursor, k + 1)
      ensures Grown(old(list.nodes), old(list.Footprint()))
      ensures var f := old(filters[k]);
              if Wants(f, e) then
                && called == [Callback(f, e)] && rest == (if work == [] then [] else work[1..])
                && filters == old(filters) + Accepted(Head(work))
              else called == [] && rest == work && filters == old(filters)
    {
      hide Ring, Carry, Accepted;
      CarryAt(list.nodes, filters);
      called, rest := [], work;
      if !(at.data.kind != EV_ALL && at.data.kind != e.kind) {
        called := [Callback(at.data, e)];
        RegisterAll(Head(work));
        rest := if work == [] then [] else work[1..];
      }
      cursor := Advance(at, k);
    }

    method Advance(at: FilterNode, ghost k: nat) returns (cursor: FilterNode)
      requires Valid() && k < |list.nodes| && at == list.nodes[k]
      ensures Valid() && At(cursor, k + 1)
    {
      hide Ring, Carry;
      CarryAt(list.nodes, filters);
      list.HeadApart();
      list.WalkAt(k);
      cursor := at.next;
    }
  }

  lemma AcceptedNone()
    ensures Accepted([]) == []
  {}

  lemma AcceptedNext(regs: seq<Filter>, i: nat)
    requires i < |regs|
    ensures Accepted(regs[..i + 1]) == Accepted(regs[..i]) + if regs[i].cb == NONE then [] else [regs[i]]
  {
    assert regs[..i + 1][..i] == regs[..i];
  }

  lemma Appended(a: seq<Invocation>, b: seq<Invocation>, c: seq<Invocation>)
    ensures (a + b) + c == a + (b + c) && [] + c == c
  {}

  /** One step of the walk. */
  lemma WalkStep(fs: seq<Filter>, k: nat, e: Event, work: seq<seq<Filter>>)
    requires k <= |fs|
    ensures k == |fs| ==> Walk(fs, k, e, work) == (fs, [])
    ensures k < |fs| && !Wants(fs[k], e) ==> Walk(fs, k, e, work) == Walk(fs, k + 1, e, work)
    ensures k < |fs| && Wants(fs[k], e) ==>
              var (gs, ran) := Walk(fs + Accepted(Head(work)), k + 1, e, if work == [] then [] else work[1..]);
              Walk(fs, k, e, work) == (gs, [Callback(fs[k], e)] + ran)
  {
    if work == [] {
      AcceptedNone();
      assert fs + [] == fs;
    }
  }

  lemma {:induction false} FindIs(fs: seq<Filter>, f: Filter, k: nat)
    requires k <= |fs| && (forall i :: 0 <= i < k ==> fs[i] != f) && (k < |fs| ==> fs[k] == f)
    ensures k == Find(fs, f)
    decreases |fs|
  {
    if k > 0 {
      FindIs(fs[1..], f, k - 1);
    }
  }
}
