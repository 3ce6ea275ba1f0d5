/** kernel/yloop/yloop.c: the table of polled readers and its dispatch. */
module Readers {

  datatype Reader = Reader(sock: int, cb: int, param: int)
  datatype PollFd = PollFd(fd: int, pollin: bool)

  const MAX_READERS := 255          // reader_count is a uint8_t

  /** The first reader of a socket, or the length. */
  function Find(rs: seq<Reader>, sock: int): (k: nat)
    ensures k <= |rs|
    ensures forall i :: 0 <= i < k ==> rs[i].sock != sock
    ensures k < |rs| ==> rs[k].sock == sock
  {
    if rs == [] || rs[0].sock == sock then 0 else 1 + Find(rs[1..], sock)
  }

  lemma {:induction false} FindIs(rs: seq<Reader>, sock: int, k: nat)
    requires k <= |rs| && (forall i :: 0 <= i < k ==> rs[i].sock != sock)
    requires k < |rs| ==> rs[k].sock == sock
    ensures k == Find(rs, sock)
    decreases |rs|
  {
    if k > 0 {
      FindIs(rs[1..], sock, k - 1);
    }
  }

  /** The list without that reader. */
  function Without(rs: seq<Reader>, sock: int): seq<Reader> {
    var k := Find(rs, sock);
    if k < |rs| then rs[..k] + rs[k + 1..] else rs
  }

  /** The slots after memmove: the tail moves down, the last slot keeps what it held. */
  function Shifted(slots: seq<Reader>, count: nat, k: nat): seq<Reader>
    requires k < count <= |slots|
  {
    slots[..k] + slots[k + 1..count] + slots[count - 1..]
  }

  lemma ShiftedList(slots: seq<Reader>, count: nat, k: nat)
    requires k < count <= |slots|
    ensures |Shifted(slots, count, k)| == |slots|
    ensures Shifted(slots, count, k)[..count - 1] == slots[..count][..k] + slots[..count][k + 1..]
  {}

  ghost predicate DistinctSocks(rs: seq<Reader>) {
    forall i, j :: 0 <= i < j < |rs| ==> rs[i].sock != rs[j].sock
  }

  /** A registration made from a callback. */
  datatype Registration = Registration(sock: int, cb: int, param: int)

  /** A callback called for slot `index`: the fd that was polled there, and the reader called. */
  datatype Call = Call(index: nat, polled: int, reader: Reader)

  /** The calls for the ready ones among the first n readers, in order, each for its own socket. */
  function Selected(rs: seq<Reader>, ready: nat -> bool, n: nat): seq<Call>
    requires n <= |rs|
  {
    if n == 0 then []
    else Selected(rs, ready, n - 1) + if ready(n - 1) then [Call(n - 1, rs[n - 1].sock, rs[n - 1])] else []
  }

  lemma {:induction false} SelectedOwn(rs: seq<Reader>, ready: nat -> bool, n: nat)
    requires n <= |rs|
    ensures forall c :: c in Selected(rs, ready, n) <==>
              c.index < n && ready(c.index) && c == Call(c.index, rs[c.index].sock, rs[c.index])
  {
    if n > 0 {
      SelectedOwn(rs, ready, n - 1);
    }
  }

  /** The slots are called in ascending order. */
  lemma {:induction false} SelectedInOrder(rs: seq<Reader>, ready: nat -> bool, n: nat)
    requires n <= |rs|
    ensures forall i, j :: 0 <= i < j < |Selected(rs, ready, n)| ==>
              Selected(rs, ready, n)[i].index < Selected(rs, ready, n)[j].index
  {
    if n > 0 {
      SelectedInOrder(rs, ready, n - 1);
      SelectedOwn(rs, ready, n - 1);
    }
  }

  /** One turn of the loop as seen by the readers: what the poll finds and returns, what the
      callback of a due timer registers, and what the callback of each slot registers. */
  datatype Turn = Turn(ready: nat -> bool, res: int, timer: seq<Registration>, work: nat -> seq<Registration>)

  // ----- cancelling during a dispatch

  /** The slots and the count after these sockets are cancelled. */
  function CancelAll(slots: seq<Reader>, count: nat, socks: seq<int>): (r: (seq<Reader>, nat))
    requires count <= |slots|
    ensures |r.0| == |slots| && r.1 <= count
    decreases |socks|
  {
    if socks == [] then (slots, count)
    else
      var k := Find(slots[..count], socks[0]);
      if k < count then CancelAll(Shifted(slots, count, k), count - 1, socks[1..])
      else CancelAll(slots, count, socks[1..])
  }

  /** What is called from slot i on, when the callback of slot j cancels the sockets work(j). */
  function Walk(slots: seq<Reader>, count: nat, fds: seq<int>, ready: nat -> bool, work: nat -> seq<int>, i: nat)
    : seq<Call>
    requires i <= |fds| <= |slots| && count <= |slots|
    decreases |fds| - i
  {
    if i == |fds| then []
    else if !ready(i) then Walk(slots, count, fds, ready, work, i + 1)
    else
      var (after, left) := CancelAll(slots, count, work(i));
      [Call(i, fds[i], slots[i])] + Walk(after, left, fds, ready, work, i + 1)
  }

  /** What is called from slot i on when these are the readers. */
  function Ready(rs: seq<Reader>, fds: seq<int>, ready: nat -> bool, i: nat): seq<Call>
    requires i <= |fds| <= |rs|
    decreases |fds| - i
  {
    if i == |fds| then []
    else (if ready(i) then [Call(i, fds[i], rs[i])] else []) + Ready(rs, fds, ready, i + 1)
  }

  /** Without further cancels the slots are served as they are. */
  lemma {:induction false} WalkQuiet(slots: seq<Reader>, count: nat, fds: seq<int>, ready: nat -> bool,
                                     work: nat -> seq<int>, i: nat)
    requires i <= |fds| <= |slots| && count <= |slots|
    requires forall j: nat :: i <= j ==> work(j) == []
    ensures Walk(slots, count, fds, ready, work, i) == Ready(slots, fds, ready, i)
    decreases |fds| - i
  {
    if i < |fds| {
      WalkQuiet(slots, count, fds, ready, work, i + 1);
    }
  }

  /** One cancel, of the reader in slot c by the callback of slot j, while the first n slots
      are dispatched.  Slots up to j and before c are served as polled; from c on each slot
      calls the reader of the next one, but the last slot calls its own reader again, so that a
      cancelled last reader is called all the same. */
  lemma {:induction false} CancelShiftsCalls(slots: seq<Reader>, n: nat, fds: seq<int>, ready: nat -> bool,
                                             work: nat -> seq<int>, j: nat, c: nat, i: nat)
    requires i <= j < n == |fds| <= |slots| && c < n && DistinctSocks(slots[..n])
    requires ready(j) && work(j) == [slots[c].sock] && forall k: nat :: k != j ==> work(k) == []
    ensures Walk(slots, n, fds, ready, work, i)
         == Ready(slots[..j + 1] + Shifted(slots, n, c)[j + 1..], fds, ready, i)
    decreases j - i
  {
    hide Shifted, Walk, Ready, CancelAll, Find;
    var after := Shifted(slots, n, c);
    ShiftedList(slots, n, c);
    var mixed := slots[..j + 1] + after[j + 1..];
    WalkStep(slots, n, fds, ready, work, i);
    ReadyStep(mixed, fds, ready, i);
    assert mixed[i] == slots[i];
    if i < j {
      CancelStep(slots, n, []);
      CancelShiftsCalls(slots, n, fds, ready, work, j, c, i + 1);
    } else {
      FindIs(slots[..n], slots[c].sock, c);
      CancelOne(slots, n, slots[c].sock);
      WalkQuiet(after, n - 1, fds, ready, work, j + 1);
      ReadySame(after, mixed, fds, ready, j + 1);
    }
  }

  lemma ReadyStep(rs: seq<Reader>, fds: seq<int>, ready: nat -> bool, i: nat)
    requires i < |fds| <= |rs|
    ensures Ready(rs, fds, ready, i)
         == (if ready(i) then [Call(i, fds[i], rs[i])] else []) + Ready(rs, fds, ready, i + 1)
    ensures !ready(i) ==> Ready(rs, fds, ready, i) == Ready(rs, fds, ready, i + 1)
  {}

  lemma CancelOne(slots: seq<Reader>, count: nat, sock: int)
    requires count <= |slots|
    ensures var k := Find(slots[..count], sock);
            CancelAll(slots, count, [sock])
              == if k < count then (Shifted(slots, count, k), count - 1) else (slots, count)
  {
    hide Find, Shifted;
    assert [sock][1..] == [];
  }

  lemma {:induction false} ReadySame(a: seq<Reader>, b: seq<Reader>, fds: seq<int>, ready: nat -> bool, i: nat)
    requires i <= |fds| <= |a| && |fds| <= |b| && forall k :: i <= k < |fds| ==> a[k] == b[k]
    ensures Ready(a, fds, ready, i) == Ready(b, fds, ready, i)
    decreases |fds| - i
  {
    if i < |fds| {
      ReadySame(a, b, fds, ready, i + 1);
    }
  }

  /** With that cancel, a slot that is called calls the reader polled there exactly when it
      is no later than the cancelling one, lies before the cancelled one, or is the last. */
  lemma CancelMovesSlots(slots: seq<Reader>, n: nat, j: nat, c: nat, i: nat)
    requires j < n <= |slots| && c < n && i < n && DistinctSocks(slots[..n])
    ensures var served := slots[..j + 1] + Shifted(slots, n, c)[j + 1..];
            && (served[i].sock == slots[i].sock <==> i <= j || i < c || i == n - 1)
            && served[i] == if i <= j || i < c || i == n - 1 then slots[i] else slots[i + 1]
  {
    if i < n - 1 {
      assert slots[..n][i].sock != slots[..n][i + 1].sock;
    }
  }

  lemma {:induction false} ReadyHas(rs: seq<Reader>, fds: seq<int>, ready: nat -> bool, i: nat, k: nat)
    requires i <= k < |fds| <= |rs| && ready(k)
    ensures Call(k, fds[k], rs[k]) in Ready(rs, fds, ready, i)
    decreases k - i
  {
    if i < k {
      ReadyHas(rs, fds, ready, i + 1, k);
    }
  }

  /** A ready last reader is called even after an earlier callback has cancelled it. */
  lemma CancelledLastIsCalled(slots: seq<Reader>, n: nat, fds: seq<int>, ready: nat -> bool,
                              work: nat -> seq<int>, j: nat)
    requires j + 1 < n == |fds| <= |slots| && DistinctSocks(slots[..n]) && ready(j) && ready(n - 1)
    requires work(j) == [slots[n - 1].sock] && forall k: nat :: k != j ==> work(k) == []
    ensures Call(n - 1, fds[n - 1], slots[n - 1]) in Walk(slots, n, fds, ready, work, 0)
  {
    hide Walk, Ready;
    CancelShiftsCalls(slots, n, fds, ready, work, j, n - 1, 0);
    var served := slots[..j + 1] + Shifted(slots, n, n - 1)[j + 1..];
    assert served[n - 1] == slots[n - 1];
    ReadyHas(served, fds, ready, 0, n - 1);
  }

  class Table {
    var readers: array<Reader>
    var pollfds: array<PollFd>
    var count: nat

    ghost predicate Valid()
      reads this
    {
      count <= MAX_READERS && count <= readers.Length && count <= pollfds.Length
    }

    /** The registered readers in order. */
    ghost function List(): seq<Reader>
      requires Valid()
      reads this, readers
    {
      readers[..count]
    }

    constructor ()
      ensures Valid() && List() == [] && fresh(readers) && fresh(pollfds)
    {
      readers := new Reader[0];
      pollfds := new PollFd[0];
      count := 0;
    }

    /** aos_poll_read_fd: both arrays grow together and keep what they held. */
    method Add(sock: int, cb: int, param: int, memory: bool) returns (ok: bool)
      requires Valid() && count < MAX_READERS
      modifies this
      ensures Valid()
      ensures ok == (sock >= 0 && memory)
      ensures !ok ==> readers == old(readers) && pollfds == old(pollfds) && count == old(count)
      ensures ok ==> fresh(readers) && fresh(pollfds) && count == old(count) + 1
      ensures ok ==> readers[..count] == old(List()) + [Reader(sock, cb, param)]
      ensures ok ==> pollfds[..old(count)] == old(pollfds[..count])
    {
      ok := false;
      if sock < 0 || !memory {
        return;
      }
      var cnt := count + 1;
      var newReaders := new Reader[cnt](i requires 0 <= i reads this, readers =>
        if i < count && i < readers.Length then readers[i] else Reader(sock, cb, param));
      var newPollfds := new PollFd[cnt](i requires 0 <= i reads this, pollfds =>
        if i < count && i < pollfds.Length then pollfds[i] else PollFd(0, false));
      count := cnt;
      readers := newReaders;
      pollfds := newPollfds;
      ok := true;
    }

    /** aos_cancel_poll_read_fd: the first reader of the socket goes, the others keep their order. */
    method Cancel(sock: int)
      requires Valid()
      modifies this`count, readers
      ensures Valid()
      ensures List() == Without(old(List()), sock)
      ensures var k := Find(old(List()), sock);
              readers[..] == if k < old(count) then Shifted(old(readers[..]), old(count), k) else old(readers[..])
    {
      var i := 0;
      while i < count && readers[i].sock != sock
        invariant 0 <= i <= count
        invariant forall j :: 0 <= j < i ==> readers[j].sock != sock
      {
        i := i + 1;
      }
      FindIs(List(), sock, i);
      if i == count {
        return;
      }
      ghost var was := readers[..];
      MoveDown(i);
      ShiftedList(was, count, i);
      count := count - 1;
    }

    /** memmove of the readers behind slot k. */
    method MoveDown(k: nat)
      requires Valid() && k < count
      modifies readers
      ensures readers[..] == Shifted(old(readers[..]), count, k)
    {
      ghost var was := readers[..];
      var j := k;
      while j < count - 1
        invariant k <= j <= count - 1
        invariant forall m :: 0 <= m < k ==> readers[m] == was[m]
        invariant forall m :: k <= m < j ==> readers[m] == was[m + 1]
        invariant forall m :: j <= m < readers.Length ==> readers[m] == was[m]
      {
        readers[j] := readers[j + 1];
        j := j + 1;
      }
    }

    /** Sets the first n pollfds from the readers. */
    method Prepare(n: nat)
      requires Valid() && n <= count
      modifies pollfds
      ensures forall i :: 0 <= i < n ==> pollfds[i].fd == readers[i].sock
    {
      for i := 0 to n
        invariant forall k :: 0 <= k < i ==> pollfds[k].fd == readers[k].sock
      {
        pollfds[i] := PollFd(readers[i].sock, false);
      }
    }

    /** aos_poll: POLLIN of each of the first n; the fds that it polled. */
    method Poll(n: nat, ready: nat -> bool) returns (polled: seq<int>)
      requires Valid() && n <= count
      modifies pollfds
      ensures |polled| == n && forall i :: 0 <= i < n ==> polled[i] == old(pollfds[i]).fd
      ensures forall i :: 0 <= i < n ==> pollfds[i].pollin == ready(i)
    {
      polled := [];
      for i := 0 to n
        invariant |polled| == i && forall k :: 0 <= k < i ==> polled[k] == old(pollfds[k]).fd
        invariant forall k :: 0 <= k < i ==> pollfds[k].pollin == ready(k)
        invariant forall k :: i <= k < n ==> pollfds[k] == old(pollfds[k])
      {
        polled := polled + [pollfds[i].fd];
        pollfds[i] := PollFd(pollfds[i].fd, ready(i));
      }
    }

    method PollReaders(n: nat, ready: nat -> bool) returns (polled: seq<int>)
      requires Valid() && n <= count
      modifies pollfds
      ensures |polled| == n && List() == old(List())
      ensures forall i :: 0 <= i < n ==> polled[i] == readers[i].sock && pollfds[i].pollin == ready(i)
    {
      Prepare(n);
      polled := Poll(n, ready);
    }

    /** A callback that registers further readers, while the table has room. */
    method Register(regs: seq<Registration>, ghost n: nat)
      requires Valid() && n <= count
      modifies this
      ensures Valid() && count >= old(count) && Fresh(old(readers), old(pollfds))
      ensures readers[..old(count)] == old(List())
      ensures pollfds[..n] == old(pollfds[..n])
    {
      ghost var before := List();
      ghost var fds := pollfds[..n];
      for i := 0 to |regs|
        invariant Valid() && count >= |before| && Fresh(old(readers), old(pollfds))
        invariant readers[..|before|] == before
        invariant pollfds[..n] == fds
      {
        ghost var rs, ps := readers[..count], pollfds[..count];
        if count < MAX_READERS {
          var ok := Add(regs[i].sock, regs[i].cb, regs[i].param, true);
          assert readers[..|before|] == rs[..|before|];
          assert pollfds[..n] == ps[..n];
        }
      }
    }

    /** The arrays are the given ones or new. */
    twostate predicate Fresh(rs: array<Reader>, ps: array<PollFd>)
      reads this
    {
      (readers == rs || fresh(readers)) && (pollfds == ps || fresh(pollfds))
    }

    /** The dispatch of a poll result over the first n slots, when callbacks only register. */
    method Dispatch(n: nat, polled: seq<int>, ready: nat -> bool, work: nat -> seq<Registration>)
      returns (called: seq<Call>)
      requires Valid() && n <= count && |polled| == n
      requires forall i :: 0 <= i < n ==> polled[i] == readers[i].sock && pollfds[i].pollin == ready(i)
      modifies this
      ensures Valid() && count >= old(count) && Fresh(old(readers), old(pollfds))
      ensures readers[..old(count)] == old(List())
      ensures called == Selected(old(List()), ready, n)
    {
      ghost var rs := List();
      called := [];
      for i := 0 to n
        invariant Valid() && count >= |rs| && Fresh(old(readers), old(pollfds))
        invariant readers[..|rs|] == rs
        invariant forall k :: 0 <= k < n ==> pollfds[..n][k].pollin == ready(k)
        invariant called == Selected(rs, ready, i)
      {
        if pollfds[i].pollin {
          assert pollfds[..n][i].pollin && readers[..|rs|][i] == rs[i];
          called := called + [Call(i, polled[i], readers[i])];
          ghost var all := readers[..count];
          Register(work(i), n);
          assert readers[..|rs|] == all[..|rs|];
        } else {
          assert !pollfds[..n][i].pollin;
        }
      }
    }

    /** One turn of aos_loop_run: the pollfds are set up and polled, the callback of a due
        timer may register readers, and then the readers that were polled are dispatched.
        Every callback called for a slot is that of the socket polled there. */
    method Serve(t: Turn) returns (called: seq<Call>)
      requires Valid()
      modifies this, pollfds
      ensures Valid() && old(List()) <= List() && Fresh(old(readers), old(pollfds))
      ensures called == if t.res > 0 then Selected(old(List()), t.ready, old(count)) else []
    {
      hide Selected;
      var n := count;
      var polled := PollReaders(n, t.ready);
      ghost var rs := List();
      ghost var fds := pollfds[..n];
      Register(t.timer, n);
      called := [];
      if t.res > 0 {
        ghost var now := List();
        assert rs == now[..n];
        assert forall i :: 0 <= i < n ==> now[i] == rs[i] && pollfds[..n][i] == fds[i];
        SelectedPrefix(rs, now, t.ready, n);
        called := Dispatch(n, polled, t.ready, t.work);
      }
    }

    /** Over any number of turns whose callbacks only register, every callback called for a
        slot is that of the socket polled there, and registered readers keep their places. */
    method ServeAll(turns: seq<Turn>) returns (called: seq<Call>)
      requires Valid()
      modifies this, pollfds
      ensures Valid() && old(List()) <= List()
      ensures forall c :: c in called ==> c.reader.sock == c.polled
    {
      called := [];
      for i := 0 to |turns|
        invariant Valid() && old(List()) <= List() && Fresh(old(readers), old(pollfds))
        invariant forall c :: c in called ==> c.reader.sock == c.polled
      {
        ghost var rs := List();
        var more := Serve(turns[i]);
        SelectedOwn(rs, turns[i].ready, |rs|);
        called := called + more;
      }
    }

    /** The dispatch over the first n slots when callbacks cancel readers. */
    method DispatchCancelling(n: nat, polled: seq<int>, ready: nat -> bool, work: nat -> seq<int>)
      returns (called: seq<Call>)
      requires Valid() && n <= readers.Length && n <= pollfds.Length && |polled| == n
      requires forall i :: 0 <= i < n ==> pollfds[i].pollin == ready(i)
      modifies this`count, readers
      ensures Valid()
      ensures called == Walk(old(readers[..]), old(count), polled, ready, work, 0)
    {
      hide Walk, CancelAll;
      called := [];
      for i := 0 to n
        invariant Valid()
        invariant called + Walk(readers[..], count, polled, ready, work, i)
               == Walk(old(readers[..]), old(count), polled, ready, work, 0)
      {
        WalkStep(readers[..], count, polled, ready, work, i);
        if pollfds[i].pollin {
          ghost var done, call := called, Call(i, polled[i], readers[i]);
          called := called + [Call(i, polled[i], readers[i])];
          CancelEach(work(i));
          ghost var rest := Walk(readers[..], count, polled, ready, work, i + 1);
          assert (done + [call]) + rest == done + ([call] + rest);
        }
      }
      WalkStep(readers[..], count, polled, ready, work, n);
      assert called + [] == called;
    }

    /** A callback that cancels these sockets in turn. */
    method CancelEach(socks: seq<int>)
      requires Valid()
      modifies this`count, readers
      ensures Valid() && (readers[..], count) == CancelAll(old(readers[..]), old(count), socks)
    {
      hide CancelAll, Shifted, Find;
      for i := 0 to |socks|
        invariant Valid() && CancelAll(readers[..], count, socks[i..]) == CancelAll(old(readers[..]), old(count), socks)
      {
        CancelStep(readers[..], count, socks[i..]);
        assert socks[i..][1..] == socks[i + 1..];
        Cancel(socks[i]);
      }
      CancelStep(readers[..], count, socks[|socks|..]);
    }
  }

  lemma CancelStep(slots: seq<Reader>, count: nat, socks: seq<int>)
    requires count <= |slots|
    ensures socks == [] ==> CancelAll(slots, count, socks) == (slots, count)
    ensures socks != [] ==>
              var k := Find(slots[..count], socks[0]);
              CancelAll(slots, count, socks)
                == if k < count then CancelAll(Shifted(slots, count, k), count - 1, socks[1..])
                   else CancelAll(slots, count, socks[1..])
  {}

  lemma WalkStep(slots: seq<Reader>, count: nat, fds: seq<int>, ready: nat -> bool, work: nat -> seq<int>, i: nat)
    requires i <= |fds| <= |slots| && count <= |slots|
    ensures i == |fds| ==> Walk(slots, count, fds, ready, work, i) == []
    ensures i < |fds| ==>
              Walk(slots, count, fds, ready, work, i)
                == if !ready(i) then Walk(slots, count, fds, ready, work, i + 1)
                   else
                     var (after, left) := CancelAll(slots, count, work(i));
                     [Call(i, fds[i], slots[i])] + Walk(after, left, fds, ready, work, i + 1)
  {}

  lemma {:induction false} SelectedPrefix(rs: seq<Reader>, more: seq<Reader>, ready: nat -> bool, n: nat)
    requires n <= |rs| && rs <= more
    ensures Selected(more, ready, n) == Selected(rs, ready, n)
  {
    if n > 0 {
      SelectedPrefix(rs, more, ready, n - 1);
    }
  }
}
