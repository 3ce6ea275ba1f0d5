/**
  kernel/yloop/local_event.c over the event device: events from posting to dispatch, for
  every run of posts, scheduled calls, filter changes and deliveries on one loop.
 */
module LocalEvents {
  import opened Widths

  const EV_ALL: bv16 := 0
  const EV_RPC: bv16 := 0x0100
  const EV_FLAG_URGENT: bv16 := 0x8000
  const NONE: int := 0              // the null pointer

  /** input_event_t, on a machine with 32-bit longs; its time is never filled in. */
  datatype Event = Event(kind: bv16, code: bv16, value: bv32, extra: bv32)

  /** An event in the device, with the lane it took and its place among all posts. */
  datatype Item = Item(event: Event, urgent: bool, id: nat)

  datatype Filter = Filter(kind: bv16, cb: int, priv: int)

  /** What runs in the loop: the handler of a scheduled call, or the callback of a filter. */
  datatype Invocation =
    | Handler(fun: bv32, arg: bv32)
    | Callback(filter: Filter, event: Event)

  datatype State = State(
    queue: seq<Item>,               // the event device: read from the front
    filters: seq<Filter>,
    posted: seq<Item>,              // history: every event posted
    delivered: seq<Item>,           // history: those read and dispatched
    ran: seq<Invocation>)           // history: what was invoked

  datatype Action =
    | PostEvent(kind: bv16, code: bv16, value: bv32, memory: bool)
    | ScheduleCall(fun: bv32, arg: bv32, urgent: bool, memory: bool)
    | Deliver(work: seq<seq<Filter>>)   // the filters that each invocation in turn registers
    | RegisterFilter(kind: bv16, cb: int, priv: int)
    | UnregisterFilter(kind: bv16, cb: int, priv: int)

  predicate Urgent(kind: bv16) { kind & EV_FLAG_URGENT != 0 }

  function Plain(kind: bv16): bv16 { kind & !EV_FLAG_URGENT }

  /** _schedule_call: the event of a scheduled call. */
  function CallEvent(fun: bv32, arg: bv32, urgent: bool): Event {
    Event(if urgent then EV_RPC | EV_FLAG_URGENT else EV_RPC, 0, fun, arg)
  }

  /** input_add_event: the urgent bit chooses the lane and is taken off. */
  function ItemOf(e: Event, id: nat): Item {
    Item(e.(kind := Plain(e.kind)), Urgent(e.kind), id)
  }

  function Added(s: State, e: Event, memory: bool): State {
    if !memory then s
    else
      var item := ItemOf(e, |s.posted|);
      s.(queue := if item.urgent then [item] + s.queue else s.queue + [item], posted := s.posted + [item])
  }

  // ----- dispatch

  predicate Wants(f: Filter, e: Event) {
    f.kind == EV_ALL || f.kind == e.kind
  }

  /** Those filters of a list that want the event, called in its order. */
  function Called(filters: seq<Filter>, e: Event): seq<Invocation> {
    if filters == [] then []
    else
      var last := |filters| - 1;
      Called(filters[..last], e) + if Wants(filters[last], e) then [Callback(filters[last], e)] else []
  }

  /** A registration without a callback is refused. */
  function Accepted(regs: seq<Filter>): seq<Filter> {
    if regs == [] then []
    else
      var last := |regs| - 1;
      Accepted(regs[..last]) + if regs[last].cb == NONE then [] else [regs[last]]
  }

  function Head(work: seq<seq<Filter>>): seq<Filter> {
    if work == [] then [] else work[0]
  }

  /** The walk of handle_events from position k on, over a list to which the callbacks it
      calls add filters: the list at its end, and what was called. */
  function Walk(fs: seq<Filter>, k: nat, e: Event, work: seq<seq<Filter>>): (r: (seq<Filter>, seq<Invocation>))
    requires k <= |fs|
    decreases |work|, |fs| - k
  {
    if k == |fs| then (fs, [])
    else if !Wants(fs[k], e) then Walk(fs, k + 1, e, work)
    else if work == [] then
      var (gs, ran) := Walk(fs, k + 1, e, []);
      (gs, [Callback(fs[k], e)] + ran)
    else
      var (gs, ran) := Walk(fs + Accepted(work[0]), k + 1, e, work[1..]);
      (gs, [Callback(fs[k], e)] + ran)
  }

  /** handle_events: the handler of an RPC event, or the walk of the filters. */
  function Dispatched(filters: seq<Filter>, e: Event, work: seq<seq<Filter>>): (seq<Filter>, seq<Invocation>) {
    if e.kind == EV_RPC then (filters + Accepted(Head(work)), [Handler(e.value, e.extra)])
    else Walk(filters, 0, e, work)
  }

  /** The walk calls the filters that want the event of the list as it stands at the end:
      those that were there, and those registered meanwhile, in registration order. */
  lemma {:induction false} WalkServesAll(fs: seq<Filter>, k: nat, e: Event, work: seq<seq<Filter>>)
    requires k <= |fs|
    ensures var (gs, ran) := Walk(fs, k, e, work);
            fs <= gs && ran == Called(gs[k..], e)
    decreases |work|, |fs| - k
  {
    hide Called, Accepted;
    var (gs, ran) := Walk(fs, k, e, work);
    if k == |fs| {
      assert gs[k..] == [];
      CalledNone(e);
    } else {
      if !Wants(fs[k], e) {
        WalkServesAll(fs, k + 1, e, work);
      } else if work == [] {
        WalkServesAll(fs, k + 1, e, []);
      } else {
        WalkServesAll(fs + Accepted(work[0]), k + 1, e, work[1..]);
      }
      assert gs[k..] == [fs[k]] + gs[k + 1..];
      CalledFirst(fs[k], gs[k + 1..], e);
    }
  }

  lemma CalledNone(e: Event)
    ensures Called([], e) == []
  {}

  lemma CalledFirst(f: Filter, fs: seq<Filter>, e: Event)
    ensures Called([f] + fs, e) == (if Wants(f, e) then [Callback(f, e)] else []) + Called(fs, e)
  {
    CalledInOrder([f], fs, e);
    assert [f][..0] == [];
  }

  /** Callbacks run in registration order: a filter list is served piece by piece. */
  lemma {:induction false} CalledInOrder(a: seq<Filter>, b: seq<Filter>, e: Event)
    ensures Called(a + b, e) == Called(a, e) + Called(b, e)
    decreases |b|
  {
    if b == [] {
      assert a + b == a;
    } else {
      assert (a + b)[..|a + b| - 1] == a + b[..|b| - 1];
      CalledInOrder(a, b[..|b| - 1], e);
    }
  }

  /** A filter is called for an event exactly when it is in the list and asks for all events
      or for this kind. */
  lemma {:induction false} CalledIffWanted(filters: seq<Filter>, e: Event, v: Invocation)
    ensures v in Called(filters, e) <==>
              && v.Callback? && v.event == e && v.filter in filters
              && (v.filter.kind == EV_ALL || v.filter.kind == e.kind)
    decreases |filters|
  {
    if filters != [] {
      var last := |filters| - 1;
      assert filters == filters[..last] + [filters[last]];
      CalledIffWanted(filters[..last], e, v);
    }
  }

  /** An RPC event runs its own handler only; any other calls exactly the filters that want
      it, in registration order, those registered during the dispatch included. */
  lemma DispatchIs(filters: seq<Filter>, e: Event, work: seq<seq<Filter>>)
    ensures var (gs, ran) := Dispatched(filters, e, work);
            && filters <= gs
            && ran == if e.kind == EV_RPC then [Handler(e.value, e.extra)] else Called(gs, e)
  {
    hide Called, Walk;
    if e.kind != EV_RPC {
      WalkServesAll(filters, 0, e, work);
      var (gs, ran) := Walk(filters, 0, e, work);
      assert gs[0..] == gs;
    }
  }

  /** The first registration of a filter, or the length. */
  function Find(filters: seq<Filter>, f: Filter): (k: nat)
    ensures k <= |filters| && f !in filters[..k] && (k < |filters| ==> filters[k] == f)
  {
    if filters == [] || filters[0] == f then 0 else 1 + Find(filters[1..], f)
  }

  // ----- runs

  function Next(s: State, a: Action): State {
    match a
    case PostEvent(kind, code, value, memory) => Added(s, Event(kind, code, value, 0), memory)
    case ScheduleCall(fun, arg, urgent, memory) =>
      if fun == 0 then s
      else Added(s, CallEvent(fun, arg, urgent), memory)
    case Deliver(work) =>
      if s.queue == [] then s
      else
        var (fs, ran) := Dispatched(s.filters, s.queue[0].event, work);
        s.(queue := s.queue[1..], filters := fs, delivered := s.delivered + [s.queue[0]], ran := s.ran + ran)
    case RegisterFilter(kind, cb, priv) =>
      if cb == NONE then s else s.(filters := s.filters + [Filter(kind, cb, priv)])
    case UnregisterFilter(kind, cb, priv) =>
      var k := Find(s.filters, Filter(kind, cb, priv));
      if k < |s.filters| then s.(filters := s.filters[..k] + s.filters[k + 1..]) else s
  }

  function Run(s: State, actions: seq<Action>): State
    decreases |actions|
  {
    if actions == [] then s else Run(Next(s, actions[0]), actions[1..])
  }

  /** No events, no filters. */
  const EMPTY: State := State([], [], [], [], [])

  // ----- lanes

  /** Those of the normal lane, in order. */
  function Normals(items: seq<Item>): seq<Item> {
    if items == [] then []
    else Normals(items[..|items| - 1]) + if items[|items| - 1].urgent then [] else [items[|items| - 1]]
  }

  lemma {:induction false} NormalsAppend(a: seq<Item>, b: seq<Item>)
    ensures Normals(a + b) == Normals(a) + Normals(b)
    decreases |b|
  {
    if b == [] {
      assert a + b == a;
    } else {
      assert (a + b)[..|a + b| - 1] == a + b[..|b| - 1];
      NormalsAppend(a, b[..|b| - 1]);
    }
  }

  lemma NormalsOfOne(x: Item)
    ensures Normals([x]) == if x.urgent then [] else [x]
  {
    assert [x][..0] == [];
  }

  /** Urgent events first, the latest posted in front; then the normal ones as posted. */
  ghost predicate Laned(queue: seq<Item>) {
    forall i, j :: 0 <= i < j < |queue| ==>
      if queue[i].urgent then queue[j].urgent ==> queue[j].id < queue[i].id
      else !queue[j].urgent && queue[i].id < queue[j].id
  }

  /** Of the filters: all have a callback. */
  ghost predicate WithCallback(fs: seq<Filter>) {
    forall i :: 0 <= i < |fs| ==> fs[i].cb != NONE
  }

  /** Of what ran: a callback was called by a registered filter that wanted the event, which
      had no urgent bit and was no RPC. */
  ghost predicate Proper(ran: seq<Invocation>) {
    forall i :: 0 <= i < |ran| && ran[i].Callback? ==>
      var e := ran[i].event;
      ran[i].filter.cb != NONE && Wants(ran[i].filter, e) && !Urgent(e.kind) && e.kind != EV_RPC
  }

  ghost predicate Inv(s: State) {
    && Laned(s.queue)
    && (forall i :: 0 <= i < |s.posted| ==> s.posted[i].id == i)
    && (forall i :: 0 <= i < |s.queue| ==> s.queue[i].id < |s.posted|)
    && (forall i :: 0 <= i < |s.queue| ==> !Urgent(s.queue[i].event.kind))
    && (forall i :: 0 <= i < |s.delivered| ==> !Urgent(s.delivered[i].event.kind))
    && Normals(s.delivered + s.queue) == Normals(s.posted)
    && multiset(s.delivered + s.queue) == multiset(s.posted)
    && WithCallback(s.filters) && Proper(s.ran)
  }

  lemma PlainIsNotUrgent(kind: bv16)
    ensures !Urgent(Plain(kind))
  {}

  // ----- every step

  lemma AddedKeeps(s: State, e: Event, memory: bool)
    requires Inv(s)
    ensures Inv(Added(s, e, memory))
  {
    hide Normals, Urgent, Plain, WithCallback, Proper;
    if memory {
      PlainIsNotUrgent(e.kind);
      var item := ItemOf(e, |s.posted|);
      NormalsOfOne(item);
      NormalsAppend(s.posted, [item]);
      if item.urgent {
        InFront(s, item);
      } else {
        assert s.delivered + (s.queue + [item]) == (s.delivered + s.queue) + [item];
        NormalsAppend(s.delivered + s.queue, [item]);
      }
    }
  }

  /** An event in front changes neither what is normal nor what was there. */
  lemma InFront(s: State, item: Item)
    requires item.urgent
    ensures Normals(s.delivered + ([item] + s.queue)) == Normals(s.delivered + s.queue)
    ensures multiset(s.delivered + ([item] + s.queue)) == multiset(s.delivered + s.queue) + multiset{item}
  {
    hide Normals;
    NormalsAppend(s.delivered, [item] + s.queue);
    NormalsAppend([item], s.queue);
    NormalsOfOne(item);
    NormalsAppend(s.delivered, s.queue);
  }

  lemma {:induction false} AcceptedWithCallback(regs: seq<Filter>)
    ensures WithCallback(Accepted(regs))
    decreases |regs|
  {
    if regs != [] {
      AcceptedWithCallback(regs[..|regs| - 1]);
    }
  }

  lemma {:induction false} WalkWithCallback(fs: seq<Filter>, k: nat, e: Event, work: seq<seq<Filter>>)
    requires k <= |fs| && WithCallback(fs)
    ensures WithCallback(Walk(fs, k, e, work).0)
    decreases |work|, |fs| - k
  {
    hide Accepted;
    if k < |fs| {
      if !Wants(fs[k], e) {
        WalkWithCallback(fs, k + 1, e, work);
      } else if work == [] {
        WalkWithCallback(fs, k + 1, e, []);
      } else {
        AcceptedWithCallback(work[0]);
        WalkWithCallback(fs + Accepted(work[0]), k + 1, e, work[1..]);
      }
    }
  }

  lemma DispatchIsProper(filters: seq<Filter>, e: Event, work: seq<seq<Filter>>)
    requires WithCallback(filters) && !Urgent(e.kind)
    ensures var (gs, ran) := Dispatched(filters, e, work); WithCallback(gs) && Proper(ran)
  {
    hide Walk, Called, Accepted, Urgent;
    var (gs, ran) := Dispatched(filters, e, work);
    DispatchIs(filters, e, work);
    if e.kind == EV_RPC {
      AcceptedWithCallback(Head(work));
    } else {
      WalkWithCallback(filters, 0, e, work);
      forall i | 0 <= i < |ran|
        ensures ran[i].Callback? && ran[i].event == e && ran[i].filter in gs && Wants(ran[i].filter, e)
      {
        CalledIffWanted(gs, e, ran[i]);
      }
    }
  }

  lemma DeliverKeeps(s: State, work: seq<seq<Filter>>)
    requires Inv(s)
    ensures Inv(Next(s, Deliver(work)))
  {
    hide Normals, Urgent, Dispatched, WithCallback;
    if s.queue != [] {
      assert (s.delivered + [s.queue[0]]) + s.queue[1..] == s.delivered + s.queue;
      DispatchIsProper(s.filters, s.queue[0].event, work);
    }
  }

  lemma StepKeeps(s: State, a: Action)
    requires Inv(s)
    ensures Inv(Next(s, a))
  {
    hide Normals, Urgent, Plain, Added, Laned, Dispatched, Proper, Find;
    match a
    case PostEvent(kind, code, value, memory) => AddedKeeps(s, Event(kind, code, value, 0), memory);
    case ScheduleCall(fun, arg, urgent, memory) =>
      AddedKeeps(s, CallEvent(fun, arg, urgent), memory);
    case Deliver(work) => DeliverKeeps(s, work);
    case RegisterFilter(_, _, _) =>
    case UnregisterFilter(_, _, _) =>
  }

  lemma {:induction false} RunKeeps(s: State, actions: seq<Action>)
    requires Inv(s)
    ensures Inv(Run(s, actions))
    decreases |actions|
  {
    hide Inv, Next;
    if actions != [] {
      StepKeeps(s, actions[0]);
      RunKeeps(Next(s, actions[0]), actions[1..]);
    }
  }

  lemma EmptyHolds()
    ensures Inv(EMPTY)
  {
    assert EMPTY.delivered + EMPTY.queue == [];
  }

  // ----- end to end

  /** The events that the actions ask to post, as they go into the device. */
  function Requested(actions: seq<Action>, id: nat): seq<Item>
    decreases |actions|
  {
    if actions == [] then []
    else
      match actions[0]
      case PostEvent(kind, code, value, true) =>
        [Item(Event(kind & 0x7fff, code, value, 0), kind & 0x8000 != 0, id)] + Requested(actions[1..], id + 1)
      case ScheduleCall(fun, arg, urgent, true) =>
        if fun == 0 then Requested(actions[1..], id)
        else [Item(Event(0x0100, 0, fun, arg), urgent, id)] + Requested(actions[1..], id + 1)
      case _ => Requested(actions[1..], id)
  }

  /** What the device makes of a post: the top bit chooses the lane, the rest is kept. */
  lemma PostItem(kind: bv16, code: bv16, value: bv32, id: nat)
    ensures ItemOf(Event(kind, code, value, 0), id)
         == Item(Event(kind & 0x7fff, code, value, 0), kind & 0x8000 != 0, id)
  {
    TopBit(kind);
    hide Plain, Urgent;
  }

  lemma CallItem(fun: bv32, arg: bv32, urgent: bool, id: nat)
    ensures ItemOf(CallEvent(fun, arg, urgent), id) == Item(Event(0x0100, 0, fun, arg), urgent, id)
  {
    TopBit(0x0100);
    TopBit(0x8100);
    hide Plain, Urgent;
  }

  lemma TopBit(kind: bv16)
    ensures Plain(kind) == kind & 0x7fff && Urgent(kind) == (kind & 0x8000 != 0)
  {}

  lemma {:induction false} PostedIsRequested(s: State, actions: seq<Action>)
    ensures Run(s, actions).posted == s.posted + Requested(actions, |s.posted|)
    decreases |actions|
  {
    hide ItemOf, CallEvent, Dispatched, Find;
    if actions != [] {
      match actions[0] {
        case PostEvent(kind, code, value, _) => PostItem(kind, code, value, |s.posted|);
        case ScheduleCall(fun, arg, urgent, _) => CallItem(fun, arg, urgent, |s.posted|);
        case _ =>
      }
      PostedIsRequested(Next(s, actions[0]), actions[1..]);
    }
  }

  /** In every run: the events delivered and those still waiting are exactly the events
      that the run posted, each once and with what was posted in it; the normal ones keep
      their posting order throughout; and none of them carries the urgent bit. */
  lemma PostedIsDeliveredPlusPending(actions: seq<Action>)
    ensures var t := Run(EMPTY, actions);
            && t.posted == Requested(actions, 0)
            && multiset(t.delivered) + multiset(t.queue) == multiset(t.posted)
            && (forall x :: x in t.posted ==> multiset(t.posted)[x] == 1)
            && Normals(t.delivered) + Normals(t.queue) == Normals(t.posted)
            && forall i :: 0 <= i < |t.delivered| ==> !Urgent(t.delivered[i].event.kind)
  {
    hide Run, Requested, Normals, Urgent, Proper, Laned;
    EmptyHolds();
    RunKeeps(EMPTY, actions);
    PostedIsRequested(EMPTY, actions);
    var t := Run(EMPTY, actions);
    assert [] + Requested(actions, 0) == Requested(actions, 0);
    NormalsAppend(t.delivered, t.queue);
    forall x | x in t.posted ensures multiset(t.posted)[x] == 1 {
      EachOnce(t.posted, x);
    }
  }

  lemma {:induction false} EachOnce(items: seq<Item>, x: Item)
    requires forall i :: 0 <= i < |items| ==> items[i].id == i
    ensures multiset(items)[x] == if x in items then 1 else 0
    decreases |items|
  {
    if items != [] {
      var last := |items| - 1;
      assert items == items[..last] + [items[last]];
      EachOnce(items[..last], x);
    }
  }

  /** What is delivered next: the latest urgent event if one is waiting, else the earliest
      normal one. */
  lemma NextDelivered(actions: seq<Action>, work: seq<seq<Filter>>)
    requires Run(EMPTY, actions).queue != []
    ensures var t := Run(EMPTY, actions);
            var x := t.queue[0];
            && Next(t, Deliver(work)).delivered == t.delivered + [x]
            && forall i :: 0 < i < |t.queue| ==>
                 var y := t.queue[i];
                 if x.urgent then y.urgent ==> y.id < x.id else !y.urgent && x.id < y.id
  {
    hide Run, Dispatched;
    EmptyHolds();
    RunKeeps(EMPTY, actions);
  }

  // ----- which filters ever run

  /** In this run the filter was called for this event. */
  ghost predicate RunsIn(f: Filter, actions: seq<Action>, e: Event) {
    Callback(f, e) in Run(EMPTY, actions).ran
  }

  /** There is a run in which a filter is called exactly when it has a callback and asks for
      all events, or for a kind that has no urgent bit and is not EV_RPC. */
  lemma FilterCanRun(f: Filter)
    ensures (exists actions, e :: RunsIn(f, actions, e))
       <==> f.cb != NONE && (f.kind == EV_ALL || (!Urgent(f.kind) && f.kind != EV_RPC))
  {
    hide Run, Urgent;
    if f.cb != NONE && (f.kind == EV_ALL || (!Urgent(f.kind) && f.kind != EV_RPC)) {
      CalledForOwnKind(f);
      var e := Event(f.kind, 0, 0, 0);
      assert RunsIn(f, [RegisterFilter(f.kind, f.cb, f.priv), PostEvent(f.kind, 0, 0, true), Deliver([])], e);
    }
    if actions, e :| RunsIn(f, actions, e) {
      EmptyHolds();
      RunKeeps(EMPTY, actions);
      var ran := Run(EMPTY, actions).ran;
      var i :| 0 <= i < |ran| && ran[i] == Callback(f, e);
      assert Wants(f, e);
    }
  }

  lemma CalledForOwnKind(f: Filter)
    requires f.cb != NONE && (f.kind == EV_ALL || (!Urgent(f.kind) && f.kind != EV_RPC))
    ensures Run(EMPTY, [RegisterFilter(f.kind, f.cb, f.priv), PostEvent(f.kind, 0, 0, true), Deliver([])]).ran
         == [Callback(f, Event(f.kind, 0, 0, 0))]
  {
    hide Walk, Called;
    NotUrgentIsPlain(f.kind);
    var a, b, c := RegisterFilter(f.kind, f.cb, f.priv), PostEvent(f.kind, 0, 0, true), Deliver([]);
    var e := Event(f.kind, 0, 0, 0);
    var s1 := Next(EMPTY, a);
    var s2 := Next(s1, b);
    assert s1.filters == [f];
    assert s2.queue == [Item(e, false, 0)] && s2.filters == [f] && s2.ran == [];
    WalkServesAll([f], 0, e, []);
    OneFilter(f, e);
    RunOfThree(EMPTY, a, b, c);
  }

  lemma RunOfThree(s: State, a: Action, b: Action, c: Action)
    ensures Run(s, [a, b, c]) == Next(Next(Next(s, a), b), c)
  {
    hide Next;
    assert [a, b, c][1..] == [b, c] && [b, c][1..] == [c] && [c][1..] == [];
    assert Run(Next(Next(s, a), b), [c]) == Run(Next(Next(Next(s, a), b), c), []);
  }

  lemma OneFilter(f: Filter, e: Event)
    requires Wants(f, e)
    ensures Walk([f], 0, e, []) == ([f], [Callback(f, e)])
  {
    assert Walk([f], 1, e, []) == ([f], []);
    assert [Callback(f, e)] + [] == [Callback(f, e)];
  }

  lemma NotUrgentIsPlain(kind: bv16)
    ensures kind == EV_ALL || !Urgent(kind) ==> !Urgent(kind) && Plain(kind) == kind
    ensures !Urgent(EV_RPC) && EV_RPC != EV_ALL
  {}

  // ----- scheduled calls, read from the actions alone

  /** The handlers that the actions ask for: of scheduled calls, and of events posted with the
      type of a scheduled call, urgent or not. */
  function HandlersAsked(actions: seq<Action>): (hs: seq<Invocation>) {
    if actions == [] then []
    else
      var last := actions[|actions| - 1];
      HandlersAsked(actions[..|actions| - 1]) +
      match last
      case ScheduleCall(fun, arg, _, memory) => if memory && fun != 0 then [Handler(fun, arg)] else []
      case PostEvent(kind, _, value, memory) =>
        if memory && (kind == 0x0100 || kind == 0x8100) then [Handler(value, 0)] else []
      case _ => []
  }

  /** The handlers among what ran. */
  function HandlersRun(ran: seq<Invocation>): seq<Invocation> {
    if ran == [] then []
    else HandlersRun(ran[..|ran| - 1]) + if ran[|ran| - 1].Handler? then [ran[|ran| - 1]] else []
  }

  /** The handlers of events that wait. */
  function HandlersWaiting(queue: seq<Item>): seq<Invocation> {
    if queue == [] then []
    else
      var e := queue[|queue| - 1].event;
      HandlersWaiting(queue[..|queue| - 1]) + if e.kind == EV_RPC then [Handler(e.value, e.extra)] else []
  }

  lemma {:induction false} WaitingAppend(a: seq<Item>, b: seq<Item>)
    ensures HandlersWaiting(a + b) == HandlersWaiting(a) + HandlersWaiting(b)
    decreases |b|
  {
    if b == [] {
      assert a + b == a;
    } else {
      assert (a + b)[..|a + b| - 1] == a + b[..|b| - 1];
      WaitingAppend(a, b[..|b| - 1]);
    }
  }

  lemma WaitingOne(x: Item)
    ensures HandlersWaiting([x]) == if x.event.kind == EV_RPC then [Handler(x.event.value, x.event.extra)] else []
  {
    assert [x][..0] == [];
  }

  lemma {:induction false} RunAppendHandlers(a: seq<Invocation>, b: seq<Invocation>)
    ensures HandlersRun(a + b) == HandlersRun(a) + HandlersRun(b)
    decreases |b|
  {
    if b == [] {
      assert a + b == a;
    } else {
      assert (a + b)[..|a + b| - 1] == a + b[..|b| - 1];
      RunAppendHandlers(a, b[..|b| - 1]);
    }
  }

  lemma {:induction false} NoHandlersCalled(fs: seq<Filter>, e: Event)
    ensures HandlersRun(Called(fs, e)) == []
    decreases |fs|
  {
    if fs != [] {
      var last := |fs| - 1;
      NoHandlersCalled(fs[..last], e);
      var more := if Wants(fs[last], e) then [Callback(fs[last], e)] else [];
      RunAppendHandlers(Called(fs[..last], e), more);
      assert more != [] ==> more[..0] == [];
    }
  }

  lemma DispatchHandlers(filters: seq<Filter>, x: Item, work: seq<seq<Filter>>)
    ensures HandlersRun(Dispatched(filters, x.event, work).1) == HandlersWaiting([x])
  {
    hide Walk, Called;
    var (gs, ran) := Dispatched(filters, x.event, work);
    DispatchIs(filters, x.event, work);
    WaitingOne(x);
    if x.event.kind == EV_RPC {
      assert [Handler(x.event.value, x.event.extra)][..0] == [];
    } else {
      NoHandlersCalled(gs, x.event);
    }
  }

  /** What ran and what waits, together. */
  ghost function Handlers(s: State): multiset<Invocation> {
    multiset(HandlersRun(s.ran)) + multiset(HandlersWaiting(s.queue))
  }

  lemma DeliverHandlers(s: State, work: seq<seq<Filter>>)
    ensures Handlers(Next(s, Deliver(work))) == Handlers(s)
  {
    hide Dispatched, HandlersRun, HandlersWaiting;
    if s.queue != [] {
      var x := s.queue[0];
      assert s.queue == [x] + s.queue[1..];
      WaitingAppend([x], s.queue[1..]);
      DispatchHandlers(s.filters, x, work);
      RunAppendHandlers(s.ran, Dispatched(s.filters, x.event, work).1);
    }
  }

  lemma AddedHandlers(s: State, e: Event)
    ensures Handlers(Added(s, e, true)) == Handlers(s) + multiset(HandlersWaiting([ItemOf(e, |s.posted|)]))
  {
    hide HandlersRun, HandlersWaiting, ItemOf;
    var x := ItemOf(e, |s.posted|);
    WaitingAppend([x], s.queue);
    WaitingAppend(s.queue, [x]);
  }

  lemma KindsOfCalls(kind: bv16)
    ensures Plain(kind) == EV_RPC <==> kind == 0x0100 || kind == 0x8100
    ensures Plain(EV_RPC) == EV_RPC && Plain(EV_RPC | EV_FLAG_URGENT) == EV_RPC
  {}

  lemma PostHandlers(s: State, kind: bv16, code: bv16, value: bv32, memory: bool)
    ensures var a := PostEvent(kind, code, value, memory);
            Handlers(Next(s, a)) == Handlers(s) + multiset(HandlersAsked([a]))
  {
    hide Handlers, HandlersWaiting, Added, Plain, Urgent;
    var e := Event(kind, code, value, 0);
    assert [PostEvent(kind, code, value, memory)][..0] == [];
    if memory {
      KindsOfCalls(kind);
      AddedHandlers(s, e);
      WaitingOne(ItemOf(e, |s.posted|));
    } else {
      NotAdded(s, e);
    }
  }

  lemma CallHandlers(s: State, fun: bv32, arg: bv32, urgent: bool, memory: bool)
    ensures var a := ScheduleCall(fun, arg, urgent, memory);
            Handlers(Next(s, a)) == Handlers(s) + multiset(HandlersAsked([a]))
  {
    hide Handlers, HandlersWaiting, Added, Plain, Urgent;
    var e := CallEvent(fun, arg, urgent);
    assert [ScheduleCall(fun, arg, urgent, memory)][..0] == [];
    if memory && fun != 0 {
      KindsOfCalls(0);
      AddedHandlers(s, e);
      WaitingOne(ItemOf(e, |s.posted|));
    } else {
      NotAdded(s, e);
    }
  }

  lemma StepHandlers(s: State, a: Action)
    ensures Handlers(Next(s, a)) == Handlers(s) + multiset(HandlersAsked([a]))
  {
    hide Dispatched, HandlersRun, HandlersWaiting, Added, Plain, Urgent, Find;
    match a
    case PostEvent(kind, code, value, memory) => PostHandlers(s, kind, code, value, memory);
    case ScheduleCall(fun, arg, urgent, memory) => CallHandlers(s, fun, arg, urgent, memory);
    case Deliver(work) => DeliverHandlers(s, work); assert [a][..0] == [];
    case RegisterFilter(_, _, _) => assert [a][..0] == [];
    case UnregisterFilter(_, _, _) => assert [a][..0] == [];
  }

  lemma NotAdded(s: State, e: Event)
    ensures Added(s, e, false) == s
  {}

  /** Over every run: the handlers that ran, and those of the events still waiting, are exactly
      the functions with their arguments that the run scheduled. */
  lemma {:induction false} HandlersAreThoseAsked(actions: seq<Action>)
    ensures var t := Run(EMPTY, actions);
            multiset(HandlersRun(t.ran)) + multiset(HandlersWaiting(t.queue)) == multiset(HandlersAsked(actions))
    decreases |actions|
  {
    hide Run, Next, HandlersRun, HandlersWaiting;
    if actions == [] {
      assert Run(EMPTY, []) == EMPTY by { RunNothing(EMPTY); }
      NoHandlers();
    } else {
      var before, last := actions[..|actions| - 1], actions[|actions| - 1];
      HandlersAreThoseAsked(before);
      assert actions == before + [last];
      RunOneMore(EMPTY, before, last);
      StepHandlers(Run(EMPTY, before), last);
      AskedLast(actions);
    }
  }

  lemma AskedLast(actions: seq<Action>)
    requires actions != []
    ensures HandlersAsked(actions) == HandlersAsked(actions[..|actions| - 1]) + HandlersAsked([actions[|actions| - 1]])
  {
    assert [actions[|actions| - 1]][..0] == [];
  }

  lemma RunNothing(s: State)
    ensures Run(s, []) == s
  {}

  lemma NoHandlers()
    ensures HandlersRun([]) == [] && HandlersWaiting([]) == []
  {}

  lemma {:induction false} RunOneMore(s: State, actions: seq<Action>, a: Action)
    ensures Run(s, actions + [a]) == Next(Run(s, actions), a)
    decreases |actions|
  {
    hide Next;
    if actions == [] {
      assert [] + [a] == [a] && [a][1..] == [];
    } else {
      assert (actions + [a])[1..] == actions[1..] + [a];
      RunOneMore(Next(s, actions[0]), actions[1..], a);
    }
  }

  /** An urgent call runs next, with its argument, and leaves the queue as it was; so does a
      normal one when nothing waits. */
  lemma ScheduledCallRuns(s: State, fun: bv32, arg: bv32, urgent: bool, work: seq<seq<Filter>>)
    requires fun != 0 && (urgent || s.queue == [])
    ensures var t := Next(Next(s, ScheduleCall(fun, arg, urgent, true)), Deliver(work));
            t.ran == s.ran + [Handler(fun, arg)] && t.queue == s.queue
  {
    hide Walk, Plain, Urgent;
    KindsOfCalls(0);
    LanesOfCalls();
    var e := CallEvent(fun, arg, urgent);
    var x := ItemOf(e, |s.posted|);
    assert x.event == Event(EV_RPC, 0, fun, arg) && x.urgent == urgent;
    assert ([x] + s.queue)[1..] == s.queue && s.queue == [] ==> s.queue + [x] == [x] + s.queue;
  }

  lemma LanesOfCalls()
    ensures !Urgent(EV_RPC) && Urgent(EV_RPC | EV_FLAG_URGENT)
  {}

  // ----- the ioctl command word (event_device.h, device.c)

  /** The value of the low 32 bits as an int. */
  function ToInt(x: int): (r: int)
    ensures -0x8000_0000 <= r < 0x8000_0000
  {
    var low := x % TWO32;
    if low < 0x8000_0000 then low else low - TWO32
  }

  /** MK_CMD, for commands below 16, stored in an int. */
  function MkCmd(c: nat, l: nat): int
    requires c < 16
  {
    ToInt(16 * l + c)
  }

  /** _GET_LEN and _GET_CMD of an int: an arithmetic shift, and the low four bits. */
  function GetLen(cmd: int): int { cmd / 16 }
  function GetCmd(cmd: int): int { cmd % 16 }

  /** The lane always survives the packing; the length does exactly when it is below 2^27. */
  lemma CommandRoundTrip(c: nat, l: nat)
    requires c < 16
    ensures GetCmd(MkCmd(c, l)) == c
    ensures GetLen(MkCmd(c, l)) == l <==> l < 0x800_0000
  {
    var x := 16 * l + c;
    var low, q := x % TWO32, x / TWO32;
    assert x == TWO32 * q + low;
    assert low == 16 * (l - 0x1000_0000 * q) + c;
  }

  /** At 2^27 the length that event_ioctl sees is negative. */
  lemma LongestLengthFails(c: nat)
    requires c < 16
    ensures GetLen(MkCmd(c, 0x800_0000)) == -0x800_0000
  {}
}
