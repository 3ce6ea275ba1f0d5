/** kernel/yloop/yloop.c: the timer list in the heap. */
module YLoop {
  import opened DList
  import opened Timers

  type TimerNode = Node<Timer>

  /** What a callback may do while it runs: post, cancel, and take time. */
  predicate FromCallback(a: Action) {
    a.Tick? || a.Post? || a.Cancel?
  }

  /** The nodes of the list carry these timers. */
  ghost predicate Carry(ns: seq<TimerNode>, ts: seq<Timer>)
    reads ns
  {
    |ts| == |ns| && forall i :: 0 <= i < |ns| ==> ns[i].data == ts[i]
  }

  class Loop {
    const timeouts: List<Timer>
    var now: int                    // the clock
    var posted: nat                 // allocations so far
    ghost var timers: seq<Timer>    // the list as a value
    ghost var freed: set<TimerNode>
    ghost var history: seq<Action>  // all that happened to the loop
    ghost var born: State           // and where that began

    ghost predicate Listed()
      reads this`timers, this`freed, timeouts, timeouts.Footprint()
    {
      && timeouts.Valid()
      && Carry(timeouts.nodes, timers)
      && freed !! timeouts.Footprint()
    }

    /** The state that the specification reaches over the same history. */
    ghost function Reached(): State
      reads this`born, this`history
    {
      Run(born, history)
    }

    /** The list holds exactly the timers that are pending in that state. */
    ghost predicate Recorded()
      reads this`born, this`history, this`timers, this`posted, this`now
    {
      && Start(born)
      && timers == Reached().pending && posted == |Reached().posted| && now == Reached().now
    }

    ghost predicate Valid()
      reads this, timeouts, timeouts.Footprint()
    {
      Listed() && Recorded()
    }

    constructor (now: int)
      ensures Valid() && history == [] && freed == {}
      ensures fresh(timeouts) && fresh(timeouts.head)
    {
      timeouts := new List(Timer(0, 0, NONE, 0, 0));
      this.now, posted := now, 0;
      timers, freed, history := [], {}, [];
      born := State(now, [], [], [], [], []);
    }

    /** What is proved over runs holds of every loop in use: its list is sorted with ties in
        posting order, nothing fired early, and every timer asked for is accounted for once. */
    lemma RunsTransfer()
      requires Valid()
      ensures Inv(Reached()) && Conserved(Reached()) && Ordered(timers)
      ensures Reached().posted == Asked(history, born.now) && now == Clock(born.now, history)
      ensures (forall i :: 0 <= i < |history| ==> NonNegative(history[i])) ==> InOrder(Reached())
    {
      hide Run, Conserved, Asked, Clock;
      StartConserved(born);
      PostedIsAsked(born, history);
      RunKeeps(born, history);
      TimersAreConserved(born, history);
      if forall i :: 0 <= i < |history| ==> NonNegative(history[i]) {
        RunKeepsOrder(born, history);
      }
    }

    /** The step just made on the list goes into the history. */
    ghost method Record(a: Action)
      requires Start(born)
      requires var s := Next(Reached(), a); timers == s.pending && posted == |s.posted| && now == s.now
      modifies this`history
      ensures Recorded() && history == old(history) + [a]
      ensures Reached() == Next(old(Reached()), a)
    {
      hide Next, Run;
      RunAppend(born, history, [a]);
      OneStep(Reached(), a);
      history := history + [a];
    }

    /** The clock moves. */
    method Tick(elapsed: nat)
      requires Valid()
      modifies this`now, this`history
      ensures Valid() && history == old(history) + [Timers.Tick(elapsed)]
    {
      hide Ring, Run;
      now := now + elapsed;
      Record(Timers.Tick(elapsed));
    }

    /** How long the poll may wait. */
    method Delay() returns (delayed: int)
      requires Valid()
      ensures delayed == PollDelay(Reached().pending, Reached().now)
    {
      hide Ring, Run;
      delayed := -1;
      var empty := timeouts.IsEmpty();
      if !empty {
        var tmo := timeouts.First();
        delayed := if now < tmo.data.deadline then tmo.data.deadline - now else 0;
      }
    }

    /** The insertion point: the first node with a later deadline, or the head. */
    method Seek(deadline: int) returns (cursor: TimerNode, ghost k: nat)
      requires Listed()
      ensures k == Position(timers, deadline)
      ensures cursor == if k == |timers| then timeouts.head else timeouts.nodes[k]
    {
      hide Ring, Position;
      timeouts.Shape();
      k := 0;
      cursor := timeouts.head.next;
      while cursor != timeouts.head && !(deadline < cursor.data.deadline)
        invariant k <= |timers|
        invariant cursor == if k == |timers| then timeouts.head else timeouts.nodes[k]
        invariant forall i :: 0 <= i < k ==> timers[i].deadline <= deadline
        decreases |timers| - k
      {
        timeouts.WalkAt(k);
        cursor := cursor.next;
        k := k + 1;
      }
      FirstLater(timers, deadline, k);
    }

    method Link(node: TimerNode, cursor: TimerNode, ghost k: nat)
      requires Listed() && node !in timeouts.Footprint() && node !in freed && k <= |timers|
      requires cursor == if k == |timers| then timeouts.head else timeouts.nodes[k]
      modifies this`timers, timeouts`nodes, node`prev, node`next
      modifies timeouts.Footprint()`prev, timeouts.Footprint()`next
      ensures Listed() && timers == old(timers)[..k] + [node.data] + old(timers)[k..]
      ensures timeouts.Footprint() == old(timeouts.Footprint()) + {node}
    {
      hide Ring;
      timeouts.AddBefore(node, cursor, k);
      timers := timers[..k] + [node.data] + timers[k..];
    }

    /** A timer leaves the list; its node stays allocated until it is freed. */
    method Unlink(node: TimerNode, ghost k: nat)
      requires Listed() && k < |timers| && node == timeouts.nodes[k]
      modifies this`timers, timeouts`nodes, timeouts.Footprint()`prev, timeouts.Footprint()`next
      ensures Listed() && timers == old(timers)[..k] + old(timers)[k + 1..]
      ensures timeouts.nodes == old(timeouts.nodes)[..k] + old(timeouts.nodes)[k + 1..]
      ensures node.data == old(timers)[k]
      ensures node !in timeouts.Footprint() && node !in freed
      ensures timeouts.Footprint() <= old(timeouts.Footprint())
    {
      hide Ring;
      timeouts.Remove(node, k);
      timers := timers[..k] + timers[k + 1..];
    }

    /** aos_free: once for each node, and never while it is in the list. */
    method Free(node: TimerNode)
      requires Listed() && node !in timeouts.Footprint() && node !in freed
      modifies this`freed
      ensures Listed() && freed == old(freed) + {node}
    {
      hide Ring;
      freed := freed + {node};
    }

    /** A new node goes before the first with a later deadline. */
    method Insert(t: Timer)
      requires Listed()
      modifies this`timers, timeouts`nodes, timeouts.Footprint()`prev, timeouts.Footprint()`next
      ensures Listed() && timers == Posted(old(timers), t)
      ensures forall n :: n in timeouts.Footprint() ==> n in old(timeouts.Footprint()) || fresh(n)
      ensures old(timeouts.Footprint()) <= timeouts.Footprint()
    {
      hide Ring, Position;
      var node := new Node(t);
      var cursor, k := Seek(t.deadline);
      Link(node, cursor, k);
    }

    /** aos_post_delayed_action; `memory` says that the allocator has room. */
    method Post(ms: int, cb: int, param: int, memory: bool) returns (ok: bool)
      requires Valid()
      modifies this`timers, this`posted, this`history
      modifies timeouts`nodes, timeouts.Footprint()`prev, timeouts.Footprint()`next
      ensures Valid()
      ensures ok == (cb != NONE && memory)
      ensures history == if cb == NONE || memory then old(history) + [Timers.Post(ms, cb, param)] else old(history)
      ensures forall n :: n in timeouts.Footprint() ==> n in old(timeouts.Footprint()) || fresh(n)
      ensures old(timeouts.Footprint()) <= timeouts.Footprint()
    {
      hide Ring, Posted, Run, Listed;
      ok := cb != NONE && memory;
      if ok {
        Insert(Timer(now + ms, ms, cb, param, posted));
        posted := posted + 1;
      }
      if cb == NONE || memory {
        Record(Timers.Post(ms, cb, param));
      }
    }

    /** The first timer that matches, or the head. */
    method Find(ms: int, cb: int, param: int) returns (cursor: TimerNode, ghost k: nat)
      requires Listed()
      ensures k == Match(timers, ms, cb, param)
      ensures cursor == if k == |timers| then timeouts.head else timeouts.nodes[k]
      ensures cursor == timeouts.head <==> k == |timers|
    {
      hide Ring, Match;
      timeouts.Shape();
      k := 0;
      cursor := timeouts.head.next;
      while cursor != timeouts.head && !Matches(cursor.data, ms, cb, param)
        invariant k <= |timers|
        invariant cursor == if k == |timers| then timeouts.head else timeouts.nodes[k]
        invariant forall i :: 0 <= i < k ==> !Matches(timers[i], ms, cb, param)
        decreases |timers| - k
      {
        timeouts.WalkAt(k);
        cursor := cursor.next;
        k := k + 1;
      }
      FirstMatch(timers, ms, cb, param, k);
    }

    /** aos_cancel_delayed_action: the first match is unlinked and freed. */
    method Cancel(ms: int, cb: int, param: int)
      requires Valid()
      modifies this`timers, this`freed, this`history
      modifies timeouts`nodes, timeouts.Footprint()`prev, timeouts.Footprint()`next
      ensures Valid() && history == old(history) + [Timers.Cancel(ms, cb, param)]
      ensures timeouts.Footprint() <= old(timeouts.Footprint())
      ensures freed - old(freed) <= old(timeouts.Footprint())
      ensures |old(timeouts.nodes)| == |old(timers)|
      ensures var k := Match(old(timers), ms, cb, param);
              freed == if k < |old(timers)| then old(freed) + {old(timeouts.nodes)[k]} else old(freed)
    {
      hide Ring, Match, Matches, Run;
      var tmp, k := Find(ms, cb, param);
      if tmp != timeouts.head {
        FreshFromList(tmp, k);
        Unlink(tmp, k);
        Free(tmp);
      }
      Record(Timers.Cancel(ms, cb, param));
    }

    /** A callback runs: posts and cancels in any order, at any times. */
    method Callback(calls: seq<Action>)
      requires Valid() && forall i :: 0 <= i < |calls| ==> FromCallback(calls[i])
      modifies this`now, this`timers, this`posted, this`freed, this`history
      modifies timeouts`nodes, timeouts.Footprint()`prev, timeouts.Footprint()`next
      ensures Valid() && history == old(history) + calls
      ensures forall n :: n in timeouts.Footprint() ==> n in old(timeouts.Footprint()) || fresh(n)
      ensures forall n :: n in freed - old(freed) ==> n in old(timeouts.Footprint()) || fresh(n)
      ensures old(freed) <= freed
    {
      hide Ring, Valid, List.Footprint, Run;
      for i := 0 to |calls|
        invariant Valid() && history == old(history) + calls[..i]
        invariant forall n :: n in timeouts.Footprint() ==> n in old(timeouts.Footprint()) || fresh(n)
        invariant forall n :: n in freed - old(freed) ==> n in old(timeouts.Footprint()) || fresh(n)
        invariant old(freed) <= freed
      {
        assert calls[..i + 1] == calls[..i] + [calls[i]];
        ghost var live, gone := timeouts.Footprint(), freed;
        match calls[i]
        case Tick(elapsed) =>
          Tick(elapsed);
        case Post(ms, cb, param) =>
          var _ := Post(ms, cb, param, true);
        case Cancel(ms, cb, param) =>
          Cancel(ms, cb, param);
          assert forall n :: n in freed - old(freed) ==> n in gone - old(freed) || n in live;
      }
      assert calls[..|calls|] == calls;
    }

    /** The timer part of one turn of aos_loop_run: a due first timer is unlinked, its
        callback runs, and then its node is freed.  A callback that cancels its own timer
        does not find it, so the node is freed once. */
    method CheckFirst(calls: seq<Action>) returns (fired: bool)
      requires Valid() && forall i :: 0 <= i < |calls| ==> FromCallback(calls[i])
      modifies this`now, this`timers, this`posted, this`freed, this`history
      modifies timeouts`nodes, timeouts.Footprint()`prev, timeouts.Footprint()`next
      ensures Valid()
      ensures fired <==> old(timers) != [] && old(now) >= old(timers)[0].deadline
      ensures history == old(history) + [Check] + if fired then calls else []
      ensures fired ==> old(timeouts.nodes) != [] && old(timeouts.nodes[0]) in freed
    {
      hide Ring, Run;
      fired := false;
      var empty := timeouts.IsEmpty();
      if !empty {
        var tmo := timeouts.First();
        if now >= tmo.data.deadline {
          fired := true;
          Fire(tmo, calls);
          return;
        }
      }
      Record(Check);
    }

    method Fire(tmo: TimerNode, calls: seq<Action>)
      requires Valid() && forall i :: 0 <= i < |calls| ==> FromCallback(calls[i])
      requires timers != [] && tmo == timeouts.nodes[0] && now >= timers[0].deadline
      modifies this`now, this`timers, this`posted, this`freed, this`history
      modifies timeouts`nodes, timeouts.Footprint()`prev, timeouts.Footprint()`next
      ensures Valid() && history == old(history) + [Check] + calls && tmo in freed
    {
      hide Ring, Run, Carry;
      assert timers[..0] + timers[1..] == timers[1..];
      FreshFromList(tmo, 0);
      Unlink(tmo, 0);
      Record(Check);
      Callback(calls);
      Free(tmo);
    }

    /** aos_loop_destroy: the timers that are left are unlinked and freed. */
    method Destroy()
      requires Valid()
      modifies this`timers, this`freed, this`history
      modifies timeouts`nodes, timeouts.Footprint()`prev, timeouts.Footprint()`next
      ensures Valid() && timers == [] && history == old(history) + [Timers.Destroy]
      ensures forall n :: n in old(timeouts.nodes) ==> n in freed
    {
      hide Ring, Carry, Run;
      var empty := timeouts.IsEmpty();
      while !empty
        invariant Listed() && (empty <==> timeouts.nodes == []) && history == old(history)
        invariant forall n :: n in old(timeouts.nodes) ==> n in freed || n in timeouts.nodes
        invariant timeouts.Footprint() <= old(timeouts.Footprint())
        decreases |timeouts.nodes|
      {
        DropFirst();
        empty := timeouts.IsEmpty();
      }
      NoTimers();
      Record(Timers.Destroy);
    }

    lemma NoTimers()
      requires Listed() && timeouts.nodes == []
      ensures timers == []
    {}

    method DropFirst()
      requires Listed() && timeouts.nodes != []
      modifies this`timers, this`freed, timeouts`nodes, timeouts.Footprint()`prev, timeouts.Footprint()`next
      ensures Listed() && timeouts.nodes == old(timeouts.nodes[1..])
      ensures freed == old(freed) + {old(timeouts.nodes[0])}
      ensures timeouts.Footprint() <= old(timeouts.Footprint())
    {
      hide Ring;
      var t := timeouts.First();
      Unlink(t, 0);
      Free(t);
    }

    lemma FreshFromList(node: TimerNode, k: nat)
      requires Valid() && k < |timers| && node == timeouts.nodes[k]
      ensures node in timeouts.Footprint()
    {}
  }

  lemma OneStep(s: State, a: Action)
    ensures Run(s, [a]) == Next(s, a)
  {
    hide Next;
    assert [a][1..] == [];
  }

  lemma {:induction false} FirstMatch(ts: seq<Timer>, ms: int, cb: int, param: int, k: nat)
    requires k <= |ts| && forall i :: 0 <= i < k ==> !Matches(ts[i], ms, cb, param)
    requires k < |ts| ==> Matches(ts[k], ms, cb, param)
    ensures k == Match(ts, ms, cb, param)
    decreases |ts|
  {
    if k > 0 {
      FirstMatch(ts[1..], ms, cb, param, k - 1);
    }
  }

  lemma {:induction false} FirstLater(ts: seq<Timer>, deadline: int, k: nat)
    requires k <= |ts| && forall i :: 0 <= i < k ==> ts[i].deadline <= deadline
    requires k < |ts| ==> deadline < ts[k].deadline
    ensures k == Position(ts, deadline)
    decreases |ts|
  {
    if k > 0 {
      FirstLater(ts[1..], deadline, k - 1);
    }
  }
}
