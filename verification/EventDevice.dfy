/**
  kernel/vfs/device.c: the event device.  Events wait in a linked queue with an urgent
  lane; up to four spent buffers are kept in a second list and reused.
 */
module EventDevice {
  import opened DList

  const CACHE_LIMIT := 4

  /** dev_event_t: a buffer allocated with room for `cap` bytes. */
  datatype Buf = Buf(cap: nat, len: nat, bytes: seq<bv8>) {
    predicate Valid() {
      len == cap == |bytes|
    }
  }

  type EventNode = Node<Buf>

  ghost predicate AllValid(ns: seq<EventNode>)
    reads ns`data
  {
    forall i :: 0 <= i < |ns| ==> ns[i].data.Valid()
  }

  /** The buffers of these nodes carry these events. */
  ghost predicate Carry(ns: seq<EventNode>, events: seq<seq<bv8>>)
    reads ns`data
  {
    && |events| == |ns|
    && forall i :: 0 <= i < |ns| ==> ns[i].data == Buf(|events[i]|, |events[i]|, events[i])
  }

  lemma CarryFirst(n: EventNode, ns: seq<EventNode>, event: seq<bv8>, events: seq<seq<bv8>>)
    ensures Carry([n] + ns, [event] + events) <==> n.data == Buf(|event|, |event|, event) && Carry(ns, events)
  {
    var all, given := [n] + ns, [event] + events;
    assert all[1..] == ns && given[1..] == events;
    if Carry(all, given) {
      assert all[0] == n;
      assert forall i :: 0 <= i < |ns| ==> ns[i] == all[i + 1] && events[i] == given[i + 1];
    }
  }

  lemma CarryLength(ns: seq<EventNode>, events: seq<seq<bv8>>)
    requires Carry(ns, events)
    ensures |events| == |ns|
  {}

  lemma CarryPop(all: seq<EventNode>, n: EventNode, ns: seq<EventNode>, events: seq<seq<bv8>>)
    requires Carry(all, events) && all == [n] + ns
    ensures events != [] && n.data.Valid() && Carry(ns, events[1..]) && [n.data.bytes] + events[1..] == events
  {
    hide Carry;
    CarryLength(all, events);
    assert events == [events[0]] + events[1..];
    CarryFirst(n, ns, events[0], events[1..]);
  }

  lemma CarryLast(ns: seq<EventNode>, events: seq<seq<bv8>>, n: EventNode)
    requires Carry(ns, events) && n.data.Valid()
    ensures Carry(ns + [n], events + [n.data.bytes])
  {}

  ghost function Nodes(ns: seq<EventNode>): set<EventNode> {
    set n | n in ns
  }

  /** Every buffer ever issued is queued, cached, freed or in hand: in exactly one of the four. */
  ghost predicate Accounted(q: seq<EventNode>, c: seq<EventNode>, freed: set<EventNode>, hand: set<EventNode>,
                            issued: set<EventNode>)
  {
    && (forall n :: n in issued ==> n in q || n in c || n in freed || n in hand)
    && (forall n :: n in q ==> n in issued && n !in c && n !in freed && n !in hand)
    && (forall n :: n in c ==> n in issued && n !in freed && n !in hand)
    && freed <= issued && hand <= issued && freed !! hand
  }

  /** The first cached buffer is taken in hand. */
  lemma TakeCached(q: seq<EventNode>, e: EventNode, c: seq<EventNode>, freed: set<EventNode>, issued: set<EventNode>)
    requires Accounted(q, [e] + c, freed, {}, issued) && e !in c
    ensures Accounted(q, c, freed, {e}, issued)
  {
    assert e in [e] + c && forall n :: n in c ==> n in [e] + c;
  }

  lemma TakeQueued(e: EventNode, q: seq<EventNode>, c: seq<EventNode>, freed: set<EventNode>, issued: set<EventNode>)
    requires Accounted([e] + q, c, freed, {}, issued) && e !in q
    ensures Accounted(q, c, freed, {e}, issued)
  {
    assert e in [e] + q && forall n :: n in q ==> n in [e] + q;
  }

  lemma TakeNew(q: seq<EventNode>, c: seq<EventNode>, freed: set<EventNode>, e: EventNode, issued: set<EventNode>)
    requires Accounted(q, c, freed, {}, issued) && e !in issued
    ensures Accounted(q, c, freed, {e}, issued + {e})
  {}

  lemma PutQueued(q: seq<EventNode>, c: seq<EventNode>, freed: set<EventNode>, e: EventNode, issued: set<EventNode>)
    requires Accounted(q, c, freed, {e}, issued)
    ensures Accounted([e] + q, c, freed, {}, issued) && Accounted(q + [e], c, freed, {}, issued)
  {}

  lemma PutCached(q: seq<EventNode>, c: seq<EventNode>, freed: set<EventNode>, e: EventNode, issued: set<EventNode>)
    requires Accounted(q, c, freed, {e}, issued)
    ensures Accounted(q, [e] + c, freed, {}, issued)
  {}

  lemma PutFreed(q: seq<EventNode>, c: seq<EventNode>, freed: set<EventNode>, e: EventNode, issued: set<EventNode>)
    requires Accounted(q, c, freed, {e}, issued)
    ensures Accounted(q, c, freed + {e}, {}, issued)
  {}

  class Device {
    const bufs: List<Buf>           // the queue
    const bufCache: List<Buf>       // spent buffers
    var counter: int
    var cacheCount: int
    var hooked: bool                // poll_cb is set
    var pollin: bool                // POLLIN in the revents of the installed pollfd
    var signals: nat                // times the installed callback ran

    ghost var events: seq<seq<bv8>>   // the events waiting, in the order they will be read
    ghost var freed: set<EventNode>   // buffers given back with aos_free
    ghost var issued: set<EventNode>  // buffers taken from aos_malloc

    ghost predicate Lists()
      reads this`events, bufs, bufCache, bufs.Footprint(), bufCache.Footprint()
    {
      && bufs != bufCache
      && bufs.Valid() && bufCache.Valid()
      && bufs.Footprint() !! bufCache.Footprint()
      && Carry(bufs.nodes, events) && AllValid(bufCache.nodes)
    }

    ghost predicate Valid()
      reads this, bufs, bufCache, bufs.Footprint(), bufCache.Footprint()
    {
      && Lists()
      && Accounted(bufs.nodes, bufCache.nodes, freed, {}, issued)
      && bufs.head !in issued && bufCache.head !in issued
      && counter == |bufs.nodes|
      && cacheCount == |bufCache.nodes| <= CACHE_LIMIT
    }

    /** event_open. */
    constructor ()
      ensures Valid() && fresh(bufs) && fresh(bufCache) && fresh(bufs.head) && fresh(bufCache.head)
      ensures events == [] && issued == {} && !hooked
    {
      bufs := new List(Buf(0, 0, []));
      bufCache := new List(Buf(0, 0, []));
      counter, cacheCount := 0, 0;
      hooked, pollin, signals := false, false, 0;
      events, freed, issued := [], {}, {};
    }

    /** aos_free: only a buffer in hand, so none is freed twice or while in a list. */
    ghost method Free(n: EventNode)
      requires Accounted(bufs.nodes, bufCache.nodes, freed, {n}, issued)
      modifies this`freed
      ensures Accounted(bufs.nodes, bufCache.nodes, freed, {}, issued) && freed == old(freed) + {n}
    {
      hide Accounted;
      PutFreed(bufs.nodes, bufCache.nodes, freed, n, issued);
      freed := freed + {n};
    }

    /** The same with one buffer in hand. */
    ghost predicate Holding(evt: EventNode)
      reads this, bufs, bufCache, bufs.Footprint(), bufCache.Footprint()
    {
      && Lists()
      && Accounted(bufs.nodes, bufCache.nodes, freed, {evt}, issued)
      && bufs.head !in issued && bufCache.head !in issued
      && evt !in bufs.Footprint() && evt !in bufCache.Footprint()
      && counter == |bufs.nodes|
      && cacheCount == |bufCache.nodes| <= CACHE_LIMIT
    }

    /** The first spent buffer is unlinked for reuse. */
    method TakeSpent(first: EventNode)
      requires Valid() && cacheCount > 0 && first == bufCache.nodes[0]
      modifies this`cacheCount, bufCache`nodes, bufCache.Footprint()`prev, bufCache.Footprint()`next
      ensures Holding(first) && [first] + bufCache.nodes == old(bufCache.nodes)
      ensures bufCache.Footprint() <= old(bufCache.Footprint())
      ensures events == old(events)
    {
      hide Ring, Accounted;
      ghost var was := bufCache.nodes;
      bufCache.Remove(first, 0);
      assert was == [first] + bufCache.nodes;
      TakeCached(bufs.nodes, first, bufCache.nodes, freed, issued);
      cacheCount := cacheCount - 1;
    }

    /** A buffer for `len` bytes: the first spent one when its length matches, else a new
        one; null when the allocator gives none. */
    method Obtain(len: nat, memory: bool) returns (evt: Node?<Buf>)
      requires Valid()
      modifies this`cacheCount, this`issued, bufCache`nodes, bufCache.Footprint()`prev, bufCache.Footprint()`next
      ensures evt == null ==> Valid()
      ensures evt == null <==> !memory && !(old(cacheCount) > 0 && old(bufCache.nodes[0].data.len) == len)
      ensures evt != null ==> Holding(evt) && evt.data.cap == len
      ensures evt != null ==> fresh(evt) || evt in old(bufCache.nodes)
      ensures if old(cacheCount) > 0 && old(bufCache.nodes[0].data.len) == len then
                evt == old(bufCache.nodes[0]) && [evt] + bufCache.nodes == old(bufCache.nodes) && issued == old(issued)
              else
                bufCache.nodes == old(bufCache.nodes) && (evt != null ==> fresh(evt) && issued == old(issued) + {evt})
      ensures Nodes(bufCache.nodes) <= old(Nodes(bufCache.nodes))
      ensures events == old(events)
    {
      hide Ring, Accounted;
      var first := bufCache.First();
      if cacheCount > 0 && first.data.len == len {
        TakeSpent(first);
        evt := first;
      } else if memory {
        evt := new Node(Buf(len, 0, []));
        TakeNew(bufs.nodes, bufCache.nodes, freed, evt, issued);
        issued := issued + {evt};
      } else {
        evt := null;
      }
    }

    /** `evt->len = len; memcpy(evt->buf, buf, len)`: the bytes fit the buffer exactly. */
    method Fill(evt: EventNode, buf: seq<bv8>)
      requires Holding(evt) && evt.data.cap == |buf|
      modifies evt`data
      ensures Holding(evt) && evt.data == Buf(|buf|, |buf|, buf)
      ensures events == old(events)
    {
      hide Ring, Accounted;
      evt.data := Buf(evt.data.cap, |buf|, buf);
    }

    /** The filled buffer joins the queue. */
    method Enqueue(evt: EventNode, urgent: bool)
      requires Holding(evt) && evt.data.Valid()
      modifies this`counter, this`events, bufs`nodes, evt`prev, evt`next, bufs.Footprint()`prev, bufs.Footprint()`next
      ensures Valid()
      ensures bufs.nodes == if urgent then [evt] + old(bufs.nodes) else old(bufs.nodes) + [evt]
      ensures events == if urgent then [evt.data.bytes] + old(events) else old(events) + [evt.data.bytes]
    {
      hide Ring, Accounted, Carry, AllValid;
      PutQueued(bufs.nodes, bufCache.nodes, freed, evt, issued);
      CarryFirst(evt, bufs.nodes, evt.data.bytes, events);
      CarryLast(bufs.nodes, events, evt);
      counter := counter + 1;
      if urgent {
        bufs.AddFirst(evt);
        events := [evt.data.bytes] + events;
      } else {
        bufs.AddLast(evt);
        events := events + [evt.data.bytes];
      }
    }

    /** The first event leaves the queue. */
    method Dequeue() returns (evt: EventNode)
      requires Valid() && counter > 0
      modifies this`counter, this`events, bufs`nodes, bufs.Footprint()`prev, bufs.Footprint()`next
      ensures Holding(evt) && evt.data.Valid()
      ensures [evt] + bufs.nodes == old(bufs.nodes)
      ensures bufs.Footprint() <= old(bufs.Footprint())
      ensures [evt.data.bytes] + events == old(events)
    {
      hide Ring, Accounted, Lists;
      evt := Detach();
      TakeQueued(evt, bufs.nodes, bufCache.nodes, freed, issued);
      counter := counter - 1;
    }

    /** The first node leaves the list, and its event the queue. */
    method Detach() returns (evt: EventNode)
      requires Lists() && bufs.nodes != []
      modifies this`events, bufs`nodes, bufs.Footprint()`prev, bufs.Footprint()`next
      ensures Lists() && evt.data.Valid()
      ensures [evt] + bufs.nodes == old(bufs.nodes) && |bufs.nodes| == |old(bufs.nodes)| - 1
      ensures evt !in bufs.Footprint() && evt !in bufCache.Footprint() && evt !in bufs.nodes
      ensures bufs.Footprint() <= old(bufs.Footprint()) && bufs != bufCache
      ensures [evt.data.bytes] + events == old(events)
    {
      hide Ring, Carry, AllValid, List.Footprint, List.Valid;
      evt := UnlinkFirst();
      CarryPop(old(bufs.nodes), evt, bufs.nodes, events);
      events := events[1..];
    }

    method UnlinkFirst() returns (evt: EventNode)
      requires Lists() && bufs.nodes != []
      modifies bufs`nodes, bufs.Footprint()`prev, bufs.Footprint()`next
      ensures bufs != bufCache && bufs.Valid() && bufCache.Valid() && bufs.Footprint() !! bufCache.Footprint()
      ensures Carry(old(bufs.nodes), events) && AllValid(bufCache.nodes)
      ensures [evt] + bufs.nodes == old(bufs.nodes) && |bufs.nodes| == |old(bufs.nodes)| - 1
      ensures evt !in bufs.Footprint() && evt !in bufCache.Footprint() && evt !in bufs.nodes
      ensures bufs.Footprint() <= old(bufs.Footprint())
    {
      hide Ring, Carry, AllValid;
      evt := bufs.First();
      bufs.Remove(evt, 0);
      assert old(bufs.nodes) == [evt] + bufs.nodes;
    }

    /** A read buffer is kept for reuse, or freed when four are kept already. */
    method Retire(evt: EventNode)
      requires Holding(evt) && evt.data.Valid()
      modifies this`cacheCount, this`freed, bufCache`nodes, evt`prev, evt`next
      modifies bufCache.Footprint()`prev, bufCache.Footprint()`next
      ensures Valid() && events == old(events)
      ensures Nodes(bufCache.nodes) <= old(Nodes(bufCache.nodes)) + {evt}
      ensures if old(cacheCount) < 4 then bufCache.nodes == [evt] + old(bufCache.nodes) && freed == old(freed)
              else bufCache.nodes == old(bufCache.nodes) && freed == old(freed) + {evt}
    {
      hide Ring, Accounted;
      PutCached(bufs.nodes, bufCache.nodes, freed, evt, issued);
      if cacheCount < CACHE_LIMIT {
        bufCache.AddFirst(evt);
        cacheCount := cacheCount + 1;
      } else {
        Free(evt);
      }
    }

    /** _event_write: the event goes behind the others, or in front when urgent. */
    method Write(buf: seq<bv8>, urgent: bool, memory: bool) returns (ret: int)
      requires Valid()
      modifies this, bufs`nodes, bufCache`nodes, bufs.Footprint(), bufCache.Footprint()
      ensures Valid()
      ensures fresh(Nodes(bufs.nodes) - old(Nodes(bufs.nodes)) - old(Nodes(bufCache.nodes)))
      ensures Nodes(bufCache.nodes) <= old(Nodes(bufCache.nodes))
      ensures ret == -1 <==> !memory && !(old(cacheCount) > 0 && old(bufCache.nodes[0].data.len) == |buf|)
      ensures ret != -1 ==> ret == |buf|
      ensures events == if ret == -1 then old(events)
                          else if urgent then [buf] + old(events) else old(events) + [buf]
      ensures hooked == old(hooked)
      ensures pollin == (old(pollin) || (old(hooked) && ret != -1))
      ensures signals == old(signals) + (if old(hooked) && ret != -1 then 1 else 0)
    {
      assert bufs != bufCache;
      hide Valid, Holding, Lists, Accounted, Ring;
      ret := |buf|;
      var evt := Obtain(|buf|, memory);
      if evt == null {
        ret := -1;
        return;
      }
      Post(evt, buf, urgent);
    }

    /** The buffer in hand is filled and queued, and the poll callback is told. */
    method Post(evt: EventNode, buf: seq<bv8>, urgent: bool)
      requires Holding(evt) && evt.data.cap == |buf| && bufs != bufCache
      modifies this`counter, this`events, this`pollin, this`signals, bufs`nodes, evt
      modifies bufs.Footprint()`prev, bufs.Footprint()`next
      ensures Valid()
      ensures bufs.nodes == if urgent then [evt] + old(bufs.nodes) else old(bufs.nodes) + [evt]
      ensures events == if urgent then [buf] + old(events) else old(events) + [buf]
      ensures pollin == (old(pollin) || hooked)
      ensures signals == old(signals) + if hooked then 1 else 0
    {
      hide Valid, Holding, Lists, Accounted, Ring, List.Footprint;
      Fill(evt, buf);
      Enqueue(evt, urgent);
      Notify();
    }

    /** The installed poll callback, if any, is told of the event. */
    method Notify()
      requires Valid()
      modifies this`pollin, this`signals
      ensures Valid()
      ensures pollin == (old(pollin) || hooked)
      ensures signals == old(signals) + if hooked then 1 else 0
    {
      hide Ring, Accounted;
      if hooked {
        pollin := true;
        signals := signals + 1;
      }
    }

    /** event_read: the first event, cut to the caller's room. */
    method Read(len: nat) returns (cnt: int, out: seq<bv8>)
      requires Valid()
      modifies this, bufs`nodes, bufCache`nodes, bufs.Footprint(), bufCache.Footprint()
      ensures Valid()
      ensures Nodes(bufs.nodes) <= old(Nodes(bufs.nodes))
      ensures Nodes(bufCache.nodes) <= old(Nodes(bufCache.nodes) + Nodes(bufs.nodes))
      ensures cnt == |out|
      ensures old(events) == [] ==> out == [] && events == []
      ensures old(events) != [] ==>
                var e := old(events)[0];
                && out == (if len > |e| then e else e[..len])
                && events == old(events)[1..]
      ensures hooked == old(hooked) && pollin == old(pollin) && signals == old(signals)
    {
      assert counter == |events|;
      hide Valid, Holding, Lists, Accounted, Ring;
      cnt, out := counter, [];
      if cnt == 0 {
        return;
      }
      var evt := Dequeue();
      cnt := if len > evt.data.len then evt.data.len else len;
      out := evt.data.bytes[..cnt];
      Retire(evt);
    }

    /** event_poll. */
    method Poll(setup: bool)
      requires Valid()
      modifies this`hooked, this`pollin, this`signals
      ensures Valid() && events == old(events)
      ensures hooked == setup
      ensures setup ==> pollin == (old(pollin) || events != [])
      ensures setup ==> signals == old(signals) + if events != [] then 1 else 0
      ensures !setup ==> pollin == old(pollin) && signals == old(signals)
    {
      hide Ring, Accounted;
      hooked := setup;
      if setup && counter != 0 {
        pollin := true;
        signals := signals + 1;
      }
    }

    /** Unlinks and frees every buffer of the queue. */
    method FreeQueue()
      requires Valid()
      modifies this`counter, this`events, this`freed, bufs`nodes, bufs.Footprint()`prev, bufs.Footprint()`next
      ensures Valid() && bufs.nodes == [] && bufCache.nodes == old(bufCache.nodes)
      ensures issued == old(issued)
    {
      assert bufs != bufCache;
      hide Valid, Holding, Lists, Accounted, Ring, List.Footprint;
      var empty := QueueEmpty();
      while !empty
        invariant Valid() && (empty <==> bufs.nodes == []) && (!empty ==> counter > 0)
        invariant bufs.Footprint() <= old(bufs.Footprint())
        decreases |bufs.nodes|
      {
        empty := DropQueued();
      }
    }

    method DropQueued() returns (empty: bool)
      requires Valid() && counter > 0
      modifies this`counter, this`events, this`freed, bufs`nodes, bufs.Footprint()`prev, bufs.Footprint()`next
      ensures Valid() && |bufs.nodes| == old(|bufs.nodes|) - 1
      ensures bufs.Footprint() <= old(bufs.Footprint())
      ensures (empty <==> bufs.nodes == []) && (!empty ==> counter > 0)
    {
      hide Valid, Holding, Lists, Accounted, Ring;
      var n := Dequeue();
      assert |[n] + bufs.nodes| == |bufs.nodes| + 1;
      Discard(n);
      empty := QueueEmpty();
    }

    /** The same for the spent buffers. */
    method FreeCache()
      requires Valid()
      modifies this`cacheCount, this`freed, bufCache`nodes, bufCache.Footprint()`prev, bufCache.Footprint()`next
      ensures Valid() && bufCache.nodes == [] && bufs.nodes == old(bufs.nodes)
      ensures issued == old(issued)
    {
      assert bufs != bufCache;
      hide Valid, Holding, Lists, Accounted, Ring, List.Footprint;
      var empty, first := CacheFirst();
      while !empty
        invariant Valid() && (empty <==> bufCache.nodes == [])
        invariant !empty ==> bufCache.nodes != [] && first == bufCache.nodes[0] && cacheCount > 0
        invariant bufCache.Footprint() <= old(bufCache.Footprint())
        decreases |bufCache.nodes|
      {
        empty, first := DropSpent(first);
      }
    }

    method DropSpent(first: EventNode) returns (empty: bool, next: EventNode)
      requires Valid() && cacheCount > 0 && bufCache.nodes != [] && first == bufCache.nodes[0]
      modifies this`cacheCount, this`freed, bufCache`nodes, bufCache.Footprint()`prev, bufCache.Footprint()`next
      ensures Valid() && |bufCache.nodes| == old(|bufCache.nodes|) - 1
      ensures bufCache.Footprint() <= old(bufCache.Footprint())
      ensures empty <==> bufCache.nodes == []
      ensures !empty ==> next == bufCache.nodes[0] && cacheCount > 0
    {
      hide Valid, Holding, Lists, Accounted, Ring;
      TakeSpent(first);
      assert |[first] + bufCache.nodes| == |bufCache.nodes| + 1;
      Discard(first);
      empty, next := CacheFirst();
    }

    method QueueEmpty() returns (empty: bool)
      requires Valid()
      ensures Valid()
      ensures empty <==> bufs.nodes == []
      ensures !empty ==> counter > 0
    {
      hide Ring, Accounted;
      empty := bufs.IsEmpty();
    }

    method CacheFirst() returns (empty: bool, first: EventNode)
      requires Valid()
      ensures Valid()
      ensures empty <==> bufCache.nodes == []
      ensures !empty ==> first == bufCache.nodes[0] && cacheCount > 0
    {
      hide Ring, Accounted;
      empty := bufCache.IsEmpty();
      first := bufCache.First();
    }

    /** The buffer in hand is freed. */
    method Discard(n: EventNode)
      requires Holding(n)
      modifies this`freed
      ensures Valid()
    {
      hide Ring, Accounted;
      Free(n);
    }

    /** event_close: every buffer ever issued has been freed, each once. */
    method Close()
      requires Valid()
      modifies this, bufs`nodes, bufCache`nodes, bufs.Footprint()`prev, bufs.Footprint()`next
      modifies bufCache.Footprint()`prev, bufCache.Footprint()`next
      ensures freed == issued == old(issued)
    {
      FreeQueue();
      FreeCache();
      assert Accounted([], [], freed, {}, issued);
    }
  }
}
