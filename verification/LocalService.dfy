/**
  local_event.c over device.c: events posted as bytes through the event device, read back
  and dispatched to the filters in the heap, on one loop.
 */
module LocalService {
  import opened DList
  import opened EventDevice
  import opened EventFilters
  import opened LocalEvents
  import opened WordsInMemory

  const SIZE: nat := 16             // sizeof(input_event_t)
  const WRITE_NORMAL: nat := 1      // IOCTL_WRITE_NORMAL
  const WRITE_URGENT: nat := 2      // IOCTL_WRITE_URGENT
  const EINVAL: int := 22

  // ----- events in memory

  /** The bytes of an event: time, type, code, value, extra. */
  function Encode(e: Event): (s: seq<bv8>)
    ensures |s| == SIZE
  {
    [0, 0, 0, 0] + HalfBytes(e.kind) + HalfBytes(e.code) + WordBytes(e.value) + WordBytes(e.extra)
  }

  function Decode(s: seq<bv8>): Event
    requires |s| == SIZE
  {
    Event(Half(s[4..6]), Half(s[6..8]), Word(s[8..12]), Word(s[12..16]))
  }

  lemma DecodeOfEncode(e: Event)
    ensures Decode(Encode(e)) == e
  {
    hide Half, HalfBytes, Word, WordBytes;
    var s := Encode(e);
    HalfOfBytes(e.kind);
    HalfOfBytes(e.code);
    WordOfBytes(e.value);
    WordOfBytes(e.extra);
    assert s[4..6] == HalfBytes(e.kind) && s[6..8] == HalfBytes(e.code);
    assert s[8..12] == WordBytes(e.value) && s[12..16] == WordBytes(e.extra);
  }

  function Encoded(items: seq<Item>): (bs: seq<seq<bv8>>)
    ensures |bs| == |items|
  {
    seq(|items|, i requires 0 <= i < |items| => Encode(items[i].event))
  }

  lemma EncodedAdded(s: State, e: Event)
    ensures Encoded(Added(s, e, true).queue)
         == if Urgent(e.kind) then [Encode(e.(kind := Plain(e.kind)))] + Encoded(s.queue)
            else Encoded(s.queue) + [Encode(e.(kind := Plain(e.kind)))]
  {
    hide Encode, Urgent, Plain;
  }

  // ----- the service

  /** The nodes that were not there are new. */
  twostate predicate NewOrOld<T>(before: set<Node<T>>, new after: set<Node<T>>) {
    forall n :: n in after ==> n in before || fresh(n)
  }

  class Service {
    const device: Device
    const filters: FilterList
    ghost var history: seq<Action>  // all that happened

    /** The state that the specification reaches over the same history. */
    ghost function Reached(): State
      reads this`history
    {
      Run(EMPTY, history)
    }

    ghost predicate Parts()
      reads device, device.bufs, device.bufCache, device.bufs.Footprint(), device.bufCache.Footprint()
      reads filters, filters.list, filters.list.Footprint()
    {
      device.Valid() && filters.Valid()
    }

    /** The nodes of the two lists of the device, and of the filter list. */
    ghost function BufNodes(): set<Node<Buf>>
      reads device, device.bufs, device.bufCache
    {
      device.bufs.Footprint() + device.bufCache.Footprint()
    }

    ghost function FilterNodes(): set<FilterNode>
      reads filters, filters.list
    {
      filters.list.Footprint()
    }

    /** The device holds the bytes of the events that wait, the list the filters. */
    ghost predicate Tied()
      reads this`history, device, filters
    {
      device.events == Encoded(Reached().queue) && filters.filters == Reached().filters
    }

    ghost predicate Valid()
      reads this, device, device.bufs, device.bufCache, device.bufs.Footprint(), device.bufCache.Footprint()
      reads filters, filters.list, filters.list.Footprint()
    {
      Parts() && Tied()
    }

    /** aos_event_service_init. */
    constructor ()
      ensures Valid() && history == []
      ensures fresh(device) && fresh(device.bufs) && fresh(device.bufCache) && fresh(BufNodes())
      ensures fresh(filters) && fresh(filters.list) && fresh(FilterNodes())
    {
      device := new Device();
      filters := new FilterList();
      history := [];
    }

    /** The step just made goes into the history. */
    ghost method Record(a: Action)
      requires Parts()
      requires device.events == Encoded(Next(Reached(), a).queue) && filters.filters == Next(Reached(), a).filters
      modifies this`history
      ensures Valid() && history == old(history) + [a]
      ensures Reached() == Next(old(Reached()), a)
      ensures BufNodes() == old(BufNodes()) && FilterNodes() == old(FilterNodes())
    {
      hide Next, Encoded, Run;
      RunOneMore(EMPTY, history, a);
      history := history + [a];
    }

    /** input_add_event and event_ioctl: the lane and the length travel in the command word. */
    method AddEvent(e: Event, memory: bool) returns (ret: int)
      requires Parts()
      modifies device, device.bufs`nodes, device.bufCache`nodes
      modifies device.bufs.Footprint(), device.bufCache.Footprint()
      ensures Parts() && filters.filters == old(filters.filters) && NewOrOld(old(BufNodes()), BufNodes())
      ensures FilterNodes() == old(FilterNodes())
      ensures ret == SIZE || ret == -1
      ensures memory ==> ret == SIZE
      ensures device.events
           == if ret == -1 then old(device.events)
              else if Urgent(e.kind) then [Encode(e.(kind := Plain(e.kind)))] + old(device.events)
              else old(device.events) + [Encode(e.(kind := Plain(e.kind)))]
    {
      hide Urgent, Plain, Encode;
      var urgent := Urgent(e.kind);
      var cmd := MkCmd(if urgent then WRITE_URGENT else WRITE_NORMAL, SIZE);
      CommandRoundTrip(if urgent then WRITE_URGENT else WRITE_NORMAL, SIZE);
      var buf := Encode(e.(kind := Plain(e.kind)));
      assert buf[..GetLen(cmd)] == buf;
      ret := device.Write(buf[..GetLen(cmd)], GetCmd(cmd) == WRITE_URGENT, memory);
    }

    /** aos_post_event: the length written, or -1. */
    method PostEvent(kind: bv16, code: bv16, value: bv32, memory: bool) returns (ret: int)
      requires Valid()
      modifies this`history, device, device.bufs`nodes, device.bufCache`nodes
      modifies device.bufs.Footprint(), device.bufCache.Footprint()
      ensures Valid() && (ret == SIZE || ret == -1) && (memory ==> ret == SIZE)
      ensures NewOrOld(old(BufNodes()), BufNodes())
      ensures history == old(history) + [LocalEvents.PostEvent(kind, code, value, ret == SIZE)]
      ensures Reached().ran == old(Reached().ran)
    {
      hide Run, Parts, Encode, Encoded, Urgent, Plain;
      var e := Event(kind, code, value, 0);
      EncodedAdded(Reached(), e);
      ret := AddEvent(e, memory);
      Record(LocalEvents.PostEvent(kind, code, value, ret == SIZE));
    }

    /** _schedule_call. */
    method ScheduleCall(fun: bv32, arg: bv32, urgent: bool, memory: bool) returns (ret: int)
      requires Valid()
      modifies this`history, device, device.bufs`nodes, device.bufCache`nodes
      modifies device.bufs.Footprint(), device.bufCache.Footprint()
      ensures Valid() && (fun == 0 <==> ret == -EINVAL) && (fun != 0 && memory ==> ret == SIZE)
      ensures NewOrOld(old(BufNodes()), BufNodes())
      ensures var stored := if fun == 0 then memory else ret == SIZE;
              history == old(history) + [LocalEvents.ScheduleCall(fun, arg, urgent, stored)]
      ensures Reached().ran == old(Reached().ran)
    {
      hide Run, Parts, Encode, Encoded, Urgent, Plain;
      if fun == 0 {
        ret := -EINVAL;
      } else {
        EncodedAdded(Reached(), CallEvent(fun, arg, urgent));
        ret := AddEvent(CallEvent(fun, arg, urgent), memory);
      }
      Record(LocalEvents.ScheduleCall(fun, arg, urgent, if fun == 0 then memory else ret == SIZE));
    }

    /** aos_read of one event. */
    method ReadEvent() returns (cnt: int, out: seq<bv8>)
      requires Parts()
      modifies device, device.bufs`nodes, device.bufCache`nodes
      modifies device.bufs.Footprint(), device.bufCache.Footprint()
      ensures Parts() && filters.filters == old(filters.filters) && NewOrOld(old(BufNodes()), BufNodes())
      ensures FilterNodes() == old(FilterNodes())
      ensures cnt == |out|
      ensures old(device.events) == [] ==> out == [] && device.events == []
      ensures old(device.events) != [] ==>
                var e := old(device.events)[0];
                out == (if SIZE > |e| then e else e[..SIZE]) && device.events == old(device.events)[1..]
    {
      cnt, out := device.Read(SIZE);
    }

    /** handle_events. */
    method Handle(e: Event, work: seq<seq<Filter>>) returns (ran: seq<Invocation>)
      requires Parts()
      modifies filters`filters, filters.list`nodes
      modifies filters.list.Footprint()`prev, filters.list.Footprint()`next
      ensures Parts() && device.events == old(device.events) && NewOrOld(old(FilterNodes()), FilterNodes())
      ensures (filters.filters, ran) == Dispatched(old(filters.filters), e, work)
      ensures BufNodes() == old(BufNodes())
    {
      hide Dispatched;
      ran := filters.HandleEvents(e, work);
    }

    /** event_read_cb: the next event is read, and dispatched as it was posted. */
    method Deliver(work: seq<seq<Filter>>) returns (ran: seq<Invocation>)
      requires Valid()
      modifies this`history, device, device.bufs`nodes, device.bufCache`nodes
      modifies device.bufs.Footprint(), device.bufCache.Footprint()
      modifies filters`filters, filters.list`nodes
      modifies filters.list.Footprint()`prev, filters.list.Footprint()`next
      ensures Valid() && history == old(history) + [LocalEvents.Deliver(work)]
      ensures Reached().ran == old(Reached().ran) + ran
      ensures NewOrOld(old(BufNodes()), BufNodes()) && NewOrOld(old(FilterNodes()), FilterNodes())
    {
      hide Run, Parts, Encode, Encoded, Dispatched, Decode, List.Footprint, Find, Added, BufNodes, FilterNodes;
      ghost var s := Reached();
      EncodedFirst(s.queue);
      var cnt, out := ReadEvent();
      ran := [];
      if cnt == SIZE {
        assert out == Encode(s.queue[0].event);
        DecodeOfEncode(s.queue[0].event);
        ran := Handle(Decode(out), work);
      }
      Record(LocalEvents.Deliver(work));
    }

    /** aos_register_event_filter, with room for the node. */
    method Register(kind: bv16, cb: int, priv: int) returns (ok: bool)
      requires Valid()
      modifies this`history, filters`filters, filters.list`nodes
      modifies filters.list.Footprint()`prev, filters.list.Footprint()`next
      ensures Valid() && ok == (cb != NONE)
      ensures history == old(history) + [RegisterFilter(kind, cb, priv)]
      ensures Reached().ran == old(Reached().ran)
      ensures NewOrOld(old(FilterNodes()), FilterNodes())
    {
      hide Run, Encoded;
      ok := filters.Register(kind, cb, priv, true);
      Record(RegisterFilter(kind, cb, priv));
    }

    method Remove(kind: bv16, cb: int, priv: int) returns (ok: bool)
      requires Parts()
      modifies filters`filters, filters`freed, filters.list`nodes
      modifies filters.list.Footprint()`prev, filters.list.Footprint()`next
      ensures Parts() && device.events == old(device.events) && NewOrOld(old(FilterNodes()), FilterNodes())
      ensures var k := Find(old(filters.filters), Filter(kind, cb, priv));
              && ok == (k < |old(filters.filters)|)
              && filters.filters == if ok then old(filters.filters)[..k] + old(filters.filters)[k + 1..]
                                    else old(filters.filters)
    {
      hide Find;
      ok := filters.Unregister(kind, cb, priv);
    }

    /** aos_unregister_event_filter. */
    method Unregister(kind: bv16, cb: int, priv: int) returns (ok: bool)
      requires Valid()
      modifies this`history, filters`filters, filters`freed, filters.list`nodes
      modifies filters.list.Footprint()`prev, filters.list.Footprint()`next
      ensures Valid() && ok == (Filter(kind, cb, priv) in old(Reached().filters))
      ensures history == old(history) + [UnregisterFilter(kind, cb, priv)]
      ensures Reached().ran == old(Reached().ran)
      ensures NewOrOld(old(FilterNodes()), FilterNodes())
    {
      hide Run, Encoded, Parts, Find, Dispatched, Added;
      ghost var f := Filter(kind, cb, priv);
      FindIn(filters.filters, f);
      ok := Remove(kind, cb, priv);
      Record(UnregisterFilter(kind, cb, priv));
    }

    /** In every service in use: the events in the device, decoded, and those delivered are
        together exactly those posted, each once with its contents; normal ones keep their
        order; and the filters called for an event are those that wanted it. */
    lemma EndToEnd()
      requires Valid()
      ensures var s := Reached();
              && s.posted == Requested(history, 0)
              && |device.events| == |s.queue|
              && (forall i :: 0 <= i < |s.queue| ==>
                    |device.events[i]| == SIZE && Decode(device.events[i]) == s.queue[i].event)
              && multiset(s.delivered) + multiset(s.queue) == multiset(s.posted)
              && Normals(s.delivered) + Normals(s.queue) == Normals(s.posted)
              && Proper(s.ran)
              && multiset(HandlersRun(s.ran)) + multiset(HandlersWaiting(s.queue)) == multiset(HandlersAsked(history))
    {
      hide Run, Parts, Encode, Decode, Requested, Normals, Proper, HandlersRun, HandlersWaiting, HandlersAsked;
      HandlersAreThoseAsked(history);
      PostedIsDeliveredPlusPending(history);
      EmptyHolds();
      RunKeeps(EMPTY, history);
      forall i | 0 <= i < |Reached().queue|
        ensures Decode(device.events[i]) == Reached().queue[i].event
      {
        DecodeOfEncode(Reached().queue[i].event);
      }
    }
  }

  /** Any script of calls on a new service runs what the specification says of its history,
      which is the script but for the calls that found no memory. */
  method RunScript(script: seq<Action>) returns (service: Service, ran: seq<Invocation>)
    ensures service.Valid() && |service.history| == |script|
    ensures forall i :: 0 <= i < |script| ==> SameCall(script[i], service.history[i])
    ensures ran == Run(EMPTY, service.history).ran
  {
    hide Run, Service.Valid, Service.BufNodes, Service.FilterNodes;
    service := new Service();
    ran := [];
    RunNothing();
    for i := 0 to |script|
      invariant service.Valid() && |service.history| == i
      invariant forall j :: 0 <= j < i ==> SameCall(script[j], service.history[j])
      invariant ran == service.Reached().ran
      invariant fresh(service) && fresh(service.device) && fresh(service.device.bufs) && fresh(service.device.bufCache)
      invariant fresh(service.filters) && fresh(service.filters.list)
      invariant forall n :: n in service.BufNodes() ==> fresh(n)
      invariant forall n :: n in service.FilterNodes() ==> fresh(n)
    {
      var more := Perform(service, script[i]);
      ran := ran + more;
    }
  }

  /** With memory enough, any script of calls runs exactly what the specification runs. */
  method RunWithMemory(script: seq<Action>) returns (ran: seq<Invocation>)
    requires forall i :: 0 <= i < |script| ==>
               (script[i].PostEvent? || script[i].ScheduleCall? ==> script[i].memory)
    ensures ran == Run(EMPTY, script).ran
  {
    hide Run, Service.Valid;
    var service;
    service, ran := RunScript(script);
    assert forall i :: 0 <= i < |script| ==> SameCall(script[i], service.history[i]) && service.history[i] == script[i];
    assert service.history == script;
  }

  /** The same call; a post that found memory once more or not. */
  predicate SameCall(a: Action, b: Action) {
    match a
    case PostEvent(kind, code, value, memory) =>
      b.PostEvent? && b == PostEvent(kind, code, value, b.memory) && (memory ==> b.memory)
    case ScheduleCall(fun, arg, urgent, memory) =>
      b.ScheduleCall? && b == ScheduleCall(fun, arg, urgent, b.memory) && (memory ==> b.memory)
    case _ => b == a
  }

  lemma FindIn(fs: seq<Filter>, f: Filter)
    ensures Find(fs, f) < |fs| <==> f in fs
  {
    hide Find;
  }

  lemma RunNothing()
    ensures Run(EMPTY, []).ran == []
  {}

  /** One call of the script. */
  method Perform(service: Service, a: Action) returns (ran: seq<Invocation>)
    requires service.Valid()
    modifies service`history, service.device, service.device.bufs`nodes, service.device.bufCache`nodes
    modifies service.BufNodes(), service.filters, service.filters.list`nodes, service.FilterNodes()
    ensures service.Valid() && |service.history| == |old(service.history)| + 1
    ensures service.history[..|old(service.history)|] == old(service.history)
    ensures SameCall(a, service.history[|old(service.history)|])
    ensures service.Reached().ran == old(service.Reached().ran) + ran
    ensures forall n :: n in service.BufNodes() ==> n in old(service.BufNodes()) || fresh(n)
    ensures forall n :: n in service.FilterNodes() ==> n in old(service.FilterNodes()) || fresh(n)
  {
    hide Run, Service.Valid, List.Footprint;
    ran := [];
    match a
    case PostEvent(kind, code, value, memory) =>
      var _ := service.PostEvent(kind, code, value, memory);
    case ScheduleCall(fun, arg, urgent, memory) =>
      var _ := service.ScheduleCall(fun, arg, urgent, memory);
    case Deliver(work) =>
      ran := service.Deliver(work);
    case RegisterFilter(kind, cb, priv) =>
      var _ := service.Register(kind, cb, priv);
    case UnregisterFilter(kind, cb, priv) =>
      var _ := service.Unregister(kind, cb, priv);
  }

  lemma EncodedFirst(items: seq<Item>)
    ensures items == [] ==> Encoded(items) == []
    ensures items != [] ==>
              && Encoded(items) != [] && Encoded(items)[0] == Encode(items[0].event)
              && Encoded(items)[1..] == Encoded(items[1..])
  {
    hide Encode;
  }
}
