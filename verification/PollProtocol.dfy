/**
  aos_poll over event devices (kernel/vfs/vfs.c, kernel/vfs/device.c), step by step.
  One thread polls; writers, readers, openers and closers run between any two of its
  steps.  A step is what runs under one device mutex, or between two of them.
 */
module PollProtocol {
  import opened Options

  /** An event device behind an open fd: events waiting, and the pollfd whose callback is installed. */
  datatype Dev = Dev(counter: nat, hook: Option<nat>)

  /** Where the poller stands. */
  datatype Phase =
    | Clear(i: nat)                 // pre_poll: zeroing revents
    | Install(i: nat)               // pre_poll: setting up fds[i]
    | Wait                          // wait_io: on the semaphore
    | Mark                          // aos_poll: after the wait
    | Tear(i: nat, ready: nat)      // post_poll: tearing down fds[i]
    | Done(result: nat)

  datatype State = State(
    offset: int,                    // AOS_CONFIG_VFS_FD_OFFSET
    fds: seq<int>,
    revents: seq<bool>,             // POLLIN of each pollfd
    sem: nat,                       // the semaphore in poll_arg
    devs: map<int, Dev>,            // event devices by fd
    phase: Phase,
    failed: bool,                   // pre_poll met an fd that is not open
    installed: nat,                 // history: pollfds set up when the tear-down began
    skipped: nat,                   // history: pollfds with POLLIN that post_poll found closed
    closed: bool,                   // history: an fd was closed while set up
    reopened: set<int>)             // history: the fds opened again while set up

  datatype Action =
    | Poller                        // the poller moves
    | Timeout                       // its wait times out
    | Write(fd: int)
    | Read(fd: int)
    | Open(fd: int)
    | Close(fd: int)

  /** An fd below the offset is none of VFS's. */
  predicate Foreign(s: State, i: nat)
    requires i < |s.fds|
  {
    s.fds[i] < s.offset
  }

  ghost predicate WellFormed(s: State) {
    && |s.revents| == |s.fds|
    && (forall fd :: fd in s.devs ==> fd >= s.offset)
    && (forall fd :: fd in s.devs && s.devs[fd].hook.Some? ==> s.devs[fd].hook.value < |s.fds|)
    && match s.phase
       case Clear(i) => i <= |s.fds|
       case Install(i) => i <= |s.fds|
       case Tear(i, _) => i <= |s.fds|
       case _ => true
  }

  /** vfs_poll_notify with revents, for the pollfd in the hook. */
  function Notified(s: State, fd: int): State
    requires fd in s.devs && (s.devs[fd].hook.Some? ==> s.devs[fd].hook.value < |s.revents|)
  {
    match s.devs[fd].hook
    case None => s
    case Some(i) => s.(revents := s.revents[i := true], sem := s.sem + 1)
  }

  /** One step of aos_poll. */
  function PollerStep(s: State): (t: State)
    requires |s.revents| == |s.fds|
    ensures |t.revents| == |t.fds| && t.fds == s.fds
  {
    match s.phase
    case Clear(i) =>
      if i < |s.fds| then s.(revents := s.revents[i := false], phase := Clear(i + 1))
      else s.(phase := Install(0))
    case Install(i) =>
      if i >= |s.fds| then s.(phase := Wait)
      else if Foreign(s, i) then s.(phase := Install(i + 1))
      else if s.fds[i] !in s.devs then s.(phase := Tear(0, 0), failed := true, installed := i)
      else
        var d := s.devs[s.fds[i]];
        var t := s.(devs := s.devs[s.fds[i] := d.(hook := Some(i))], phase := Install(i + 1));
        if d.counter > 0 then Notified(t, s.fds[i]) else t
    case Wait =>
      if s.sem > 0 then s.(sem := s.sem - 1, phase := Mark) else s
    case Mark =>
      s.(revents := seq(|s.fds|, i requires 0 <= i < |s.fds| => Foreign(s, i) || s.revents[i]),
         phase := Tear(0, 0), installed := |s.fds|)
    case Tear(i, ready) =>
      if i >= |s.fds| then s.(phase := Done(if s.failed then 0 else ready))
      else if Foreign(s, i) then s.(phase := Tear(i + 1, ready))
      else if s.fds[i] !in s.devs then
        s.(phase := Tear(i + 1, ready), skipped := if s.revents[i] then s.skipped + 1 else s.skipped)
      else
        s.(devs := s.devs[s.fds[i] := s.devs[s.fds[i]].(hook := None)],
           phase := Tear(i + 1, if s.revents[i] then ready + 1 else ready))
    case Done(_) => s
  }

  /** fds[i] has been set up and not yet torn down. */
  predicate Armed(s: State, i: nat) {
    match s.phase
    case Clear(_) => false
    case Install(k) => i < k
    case Wait => true
    case Mark => true
    case Tear(k, _) => k <= i < s.installed
    case Done(_) => false
  }

  /** The fd stands in a pollfd that is set up. */
  predicate SetUp(s: State, fd: int) {
    exists i :: 0 <= i < |s.fds| && s.fds[i] == fd && Armed(s, i)
  }

  /** fds[i] is set up, and an event waits on its device. */
  predicate Waiting(s: State, i: nat) {
    && i < |s.fds| && !Foreign(s, i) && Armed(s, i)
    && s.fds[i] in s.devs && s.devs[s.fds[i]].counter > 0
  }

  /** One step of anyone; an action that cannot happen changes nothing. */
  function Next(s: State, a: Action): State
    requires WellFormed(s)
  {
    match a
    case Poller => PollerStep(s)
    case Timeout => if s.phase.Wait? then s.(phase := Mark) else s
    case Write(fd) =>
      if fd !in s.devs then s
      else
        var d := s.devs[fd];
        Notified(s.(devs := s.devs[fd := d.(counter := d.counter + 1)]), fd)
    case Read(fd) =>
      if fd !in s.devs || s.devs[fd].counter == 0 then s
      else s.(devs := s.devs[fd := s.devs[fd].(counter := s.devs[fd].counter - 1)])
    case Open(fd) =>
      if fd < s.offset || fd in s.devs then s
      else s.(devs := s.devs[fd := Dev(0, None)], reopened := if SetUp(s, fd) then s.reopened + {fd} else s.reopened)
    case Close(fd) =>
      if fd !in s.devs then s
      else s.(devs := s.devs - {fd}, closed := s.closed || SetUp(s, fd))
  }

  /** aos_poll is entered: nothing is hooked, the semaphore is new. */
  ghost predicate Start(s: State) {
    && |s.revents| == |s.fds|
    && s.phase == Clear(0) && s.sem == 0 && !s.failed && !s.closed && s.reopened == {} && s.skipped == 0
    && (forall fd :: fd in s.devs ==> fd >= s.offset && s.devs[fd].hook.None?)
  }

  ghost predicate DistinctFds(s: State) {
    forall i, j :: 0 <= i < j < |s.fds| && !Foreign(s, i) ==> s.fds[i] != s.fds[j]
  }

  /** Pollfds counted by post_poll so far. */
  function Ready(s: State, n: nat): nat
    requires n <= |s.fds| == |s.revents|
  {
    if n == 0 then 0
    else Ready(s, n - 1) + if !Foreign(s, n - 1) && s.revents[n - 1] then 1 else 0
  }

  /** A callback is installed only for a pollfd that is armed, and for that fd. */
  ghost predicate HooksBelong(s: State)
    requires WellFormed(s)
  {
    forall fd :: fd in s.devs && s.devs[fd].hook.Some? ==>
      var i := s.devs[fd].hook.value; s.fds[i] == fd && Armed(s, i)
  }

  /** fds[i] is still to be set up. */
  predicate Ahead(s: State, i: nat) {
    match s.phase
    case Clear(_) => true
    case Install(k) => i >= k
    case _ => false
  }

  /** A device in an armed pollfd has its callback installed, exactly when it was not opened
      again since. */
  ghost predicate HooksStay(s: State)
    requires WellFormed(s)
  {
    && (forall i :: 0 <= i < |s.fds| && !Foreign(s, i) && Armed(s, i) && s.fds[i] in s.devs ==>
          (s.devs[s.fds[i]].hook == Some(i) <==> s.fds[i] !in s.reopened))
    && (forall i :: 0 <= i < |s.fds| && !Foreign(s, i) && Ahead(s, i) ==> s.fds[i] !in s.reopened)
  }

  /** Unless one was closed, the fds of armed pollfds are open. */
  ghost predicate OpenStay(s: State)
    requires WellFormed(s)
  {
    !s.closed ==>
      forall i :: 0 <= i < |s.fds| && !Foreign(s, i) && Armed(s, i) ==> s.fds[i] in s.devs
  }

  /** An event waiting on a hooked device shows in its pollfd, and has been signalled. */
  ghost predicate Shown(s: State)
    requires WellFormed(s)
  {
    && (forall fd :: fd in s.devs && s.devs[fd].hook.Some? && s.devs[fd].counter > 0 ==>
          s.revents[s.devs[fd].hook.value])
    && (s.phase.Install? || s.phase.Wait? ==> forall i :: 0 <= i < |s.fds| && s.revents[i] ==> s.sem > 0)
  }

  ghost predicate Counted(s: State)
    requires WellFormed(s)
  {
    && (!s.failed ==>
          match s.phase
          case Tear(i, ready) => ready + s.skipped == Ready(s, i)
          case Done(result) => result + s.skipped == Ready(s, |s.fds|)
          case _ => s.skipped == 0)
    && (!s.failed && !s.closed ==> s.skipped == 0)
  }

  ghost predicate Bookkeeping(s: State)
    requires WellFormed(s)
  {
    && (s.phase.Clear? ==> forall i :: 0 <= i < s.phase.i ==> !s.revents[i])
    && (s.failed ==> s.phase.Tear? || s.phase.Done?)
    && (s.phase.Tear? && !s.failed ==> s.installed == |s.fds|)
    && (s.failed && s.phase.Done? ==> s.phase.result == 0)
  }

  ghost predicate Inv(s: State) {
    && WellFormed(s) && DistinctFds(s)
    && HooksBelong(s) && HooksStay(s) && OpenStay(s) && Shown(s) && Counted(s) && Bookkeeping(s)
  }

  // ----- every step keeps the invariant

  lemma {:induction false} SameReady(s: State, t: State, n: nat)
    requires n <= |s.fds| == |s.revents| && |t.revents| == |s.revents| && t.fds == s.fds && t.offset == s.offset
    requires forall i :: 0 <= i < n ==> !Foreign(s, i) ==> t.revents[i] == s.revents[i]
    ensures Ready(t, n) == Ready(s, n)
    decreases n
  {
    if n > 0 {
      SameReady(s, t, n - 1);
    }
  }

  /** One pollfd torn down: with POLLIN it is counted or skipped. */
  lemma TearOne(s: State)
    requires |s.revents| == |s.fds| && s.phase.Tear? && s.phase.i < |s.fds|
    ensures var t := PollerStep(s);
            var k := s.phase.i;
            && t.phase.Tear? && t.phase.i == k + 1
            && t == s.(devs := t.devs, phase := t.phase, skipped := t.skipped)
            && t.phase.ready + t.skipped
               == s.phase.ready + s.skipped + (if !Foreign(s, k) && s.revents[k] then 1 else 0)
            && (Foreign(s, k) || s.fds[k] in s.devs || !s.revents[k] ==> t.skipped == s.skipped)
            && (Foreign(s, k) || !s.revents[k] ==> t.phase.ready == s.phase.ready)
            && t.devs == if Foreign(s, k) || s.fds[k] !in s.devs then s.devs
                         else s.devs[s.fds[k] := s.devs[s.fds[k]].(hook := None)]
  {}

  lemma TearLast(s: State)
    requires |s.revents| == |s.fds| && s.phase.Tear? && s.phase.i >= |s.fds|
    ensures PollerStep(s) == s.(phase := Done(if s.failed then 0 else s.phase.ready))
  {}

  /** The two lemmas above, for the phase that it is. */
  lemma TearStep(s: State)
    requires |s.revents| == |s.fds| && s.phase.Tear?
    ensures var t := PollerStep(s);
            && t == s.(devs := t.devs, phase := t.phase, skipped := t.skipped)
            && if s.phase.i < |s.fds| then
                 var fd := s.fds[s.phase.i];
                 && t.phase.Tear? && t.phase.i == s.phase.i + 1
                 && t.devs == if fd < s.offset || fd !in s.devs then s.devs else s.devs[fd := s.devs[fd].(hook := None)]
               else t.phase.Done? && t.devs == s.devs
  {
    hide PollerStep;
    if s.phase.i < |s.fds| {
      TearOne(s);
    } else {
      TearLast(s);
    }
  }

  lemma InstallIsWellFormed(s: State)
    requires WellFormed(s) && s.phase.Install?
    ensures WellFormed(PollerStep(s))
  {}

  lemma TearIsWellFormed(s: State)
    requires WellFormed(s) && s.phase.Tear?
    ensures WellFormed(PollerStep(s))
  {
    hide PollerStep;
    TearStep(s);
  }

  lemma OtherIsWellFormed(s: State)
    requires WellFormed(s) && !s.phase.Install? && !s.phase.Tear?
    ensures WellFormed(PollerStep(s))
  {}

  lemma WriteIsWellFormed(s: State, fd: int)
    requires WellFormed(s)
    ensures WellFormed(Next(s, Write(fd)))
  {}

  lemma OpenIsWellFormed(s: State, fd: int)
    requires WellFormed(s)
    ensures WellFormed(Next(s, Open(fd))) && WellFormed(Next(s, Close(fd)))
  {
    hide SetUp;
  }

  lemma ReadIsWellFormed(s: State, fd: int)
    requires WellFormed(s)
    ensures WellFormed(Next(s, Read(fd)))
  {}

  lemma PollerIsWellFormed(s: State)
    requires WellFormed(s)
    ensures WellFormed(PollerStep(s))
  {
    hide PollerStep;
    if s.phase.Install? {
      InstallIsWellFormed(s);
    } else if s.phase.Tear? {
      TearIsWellFormed(s);
    } else {
      OtherIsWellFormed(s);
    }
  }

  lemma StepIsWellFormed(s: State, a: Action)
    requires WellFormed(s)
    ensures WellFormed(Next(s, a))
  {
    hide PollerStep, Notified, SetUp;
    match a
    case Poller => PollerIsWellFormed(s);
    case Timeout =>
    case Write(fd) => WriteIsWellFormed(s, fd);
    case Read(fd) => ReadIsWellFormed(s, fd);
    case Open(fd) => OpenIsWellFormed(s, fd);
    case Close(fd) => OpenIsWellFormed(s, fd);
  }

  lemma ClearKeeps(s: State)
    requires Inv(s) && s.phase.Clear?
    ensures Inv(PollerStep(s))
  {}

  lemma InstallKeepsHooks(s: State)
    requires Inv(s) && s.phase.Install?
    ensures var t := PollerStep(s); WellFormed(t) && DistinctFds(t) && HooksBelong(t)
  {
    hide HooksStay, OpenStay, Shown, Counted;
    InstallIsWellFormed(s);
  }

  lemma InstallKeepsStay(s: State)
    requires Inv(s) && s.phase.Install?
    ensures var t := PollerStep(s); WellFormed(t) && HooksStay(t) && OpenStay(t)
  {
    hide HooksBelong, Shown, Counted;
    InstallIsWellFormed(s);
  }

  lemma InstallKeepsEvents(s: State)
    requires Inv(s) && s.phase.Install?
    ensures var t := PollerStep(s); WellFormed(t) && Shown(t) && Counted(t) && Bookkeeping(t)
  {
    hide HooksStay, OpenStay, HooksBelong;
    InstallIsWellFormed(s);
  }

  lemma InstallKeeps(s: State)
    requires Inv(s) && s.phase.Install?
    ensures Inv(PollerStep(s))
  {
    hide PollerStep;
    InstallKeepsHooks(s);
    InstallKeepsStay(s);
    InstallKeepsEvents(s);
  }

  lemma WaitKeeps(s: State)
    requires Inv(s) && s.phase.Wait?
    ensures Inv(PollerStep(s)) && Inv(s.(phase := Mark))
  {}

  lemma MarkKeeps(s: State)
    requires Inv(s) && s.phase.Mark?
    ensures Inv(PollerStep(s))
  {}

  lemma TearKeepsHooks(s: State)
    requires Inv(s) && s.phase.Tear?
    ensures var t := PollerStep(s); WellFormed(t) && DistinctFds(t) && HooksBelong(t)
  {
    hide HooksStay, OpenStay, Shown, Counted, Ready, PollerStep;
    TearIsWellFormed(s);
    TearStep(s);
  }

  lemma TearKeepsStay(s: State)
    requires Inv(s) && s.phase.Tear?
    ensures var t := PollerStep(s); WellFormed(t) && HooksStay(t) && OpenStay(t)
  {
    hide HooksBelong, Shown, Counted, Ready, PollerStep;
    TearIsWellFormed(s);
    TearStep(s);
  }

  lemma TearKeepsEvents(s: State)
    requires Inv(s) && s.phase.Tear?
    ensures var t := PollerStep(s); WellFormed(t) && Shown(t) && Bookkeeping(t)
  {
    hide HooksStay, OpenStay, HooksBelong, Counted, Ready;
    TearIsWellFormed(s);
  }

  lemma TearKeepsCount(s: State)
    requires Inv(s) && s.phase.Tear?
    ensures var t := PollerStep(s); WellFormed(t) && Counted(t)
  {
    hide Shown, HooksStay, HooksBelong, PollerStep;
    TearIsWellFormed(s);
    if s.phase.i < |s.fds| {
      TearOne(s);
    } else {
      TearLast(s);
    }
    SameReady(s, PollerStep(s), s.phase.i);
  }

  lemma TearKeeps(s: State)
    requires Inv(s) && s.phase.Tear?
    ensures Inv(PollerStep(s))
  {
    hide PollerStep;
    TearKeepsHooks(s);
    TearKeepsStay(s);
    TearKeepsEvents(s);
    TearKeepsCount(s);
  }

  lemma WriteKeepsHooks(s: State, fd: int)
    requires Inv(s)
    ensures var t := Next(s, Write(fd)); WellFormed(t) && DistinctFds(t) && HooksBelong(t)
  {
    hide HooksStay, OpenStay, Shown, Counted, Ready;
    WriteIsWellFormed(s, fd);
  }

  lemma WriteKeepsStay(s: State, fd: int)
    requires Inv(s)
    ensures var t := Next(s, Write(fd)); WellFormed(t) && HooksStay(t) && OpenStay(t)
  {
    hide HooksBelong, Shown, Counted, Ready;
    WriteIsWellFormed(s, fd);
  }

  lemma WriteKeepsEvents(s: State, fd: int)
    requires Inv(s)
    ensures var t := Next(s, Write(fd)); WellFormed(t) && Shown(t) && Bookkeeping(t)
  {
    hide HooksStay, OpenStay, Counted, Ready;
    WriteIsWellFormed(s, fd);
  }

  lemma WriteKeepsCount(s: State, fd: int)
    requires Inv(s)
    ensures var t := Next(s, Write(fd)); WellFormed(t) && Counted(t)
  {
    hide HooksStay, OpenStay, Shown;
    WriteIsWellFormed(s, fd);
    var t := Next(s, Write(fd));
    if s.phase.Tear? {
      SameReady(s, t, s.phase.i);
    } else if s.phase.Done? {
      SameReady(s, t, |s.fds|);
    }
  }

  lemma WriteKeeps(s: State, fd: int)
    requires Inv(s)
    ensures Inv(Next(s, Write(fd)))
  {
    hide Next;
    WriteKeepsHooks(s, fd);
    WriteKeepsStay(s, fd);
    WriteKeepsEvents(s, fd);
    WriteKeepsCount(s, fd);
  }

  lemma ReadKeepsHooks(s: State, fd: int)
    requires Inv(s)
    ensures var t := Next(s, Read(fd));
            WellFormed(t) && DistinctFds(t) && HooksBelong(t) && HooksStay(t) && OpenStay(t)
  {
    hide Shown, Counted, Ready;
    ReadIsWellFormed(s, fd);
  }

  lemma ReadKeepsEvents(s: State, fd: int)
    requires Inv(s)
    ensures var t := Next(s, Read(fd)); WellFormed(t) && Shown(t) && Counted(t) && Bookkeeping(t)
  {
    hide HooksBelong, HooksStay, OpenStay, SetUp;
    ReadIsWellFormed(s, fd);
    var t := Next(s, Read(fd));
    if s.phase.Tear? {
      SameReady(s, t, s.phase.i);
    } else if s.phase.Done? {
      SameReady(s, t, |s.fds|);
    }
  }

  lemma OpenKeepsHooks(s: State, fd: int)
    requires Inv(s)
    ensures var t := Next(s, Open(fd));
            WellFormed(t) && DistinctFds(t) && HooksBelong(t) && HooksStay(t) && OpenStay(t)
  {
    hide Shown, Counted, Ready;
    OpenIsWellFormed(s, fd);
  }

  lemma OpenKeepsEvents(s: State, fd: int)
    requires Inv(s)
    ensures var t := Next(s, Open(fd)); WellFormed(t) && Shown(t) && Counted(t) && Bookkeeping(t)
  {
    hide HooksBelong, HooksStay, OpenStay, SetUp;
    OpenIsWellFormed(s, fd);
    var t := Next(s, Open(fd));
    if s.phase.Tear? {
      SameReady(s, t, s.phase.i);
    } else if s.phase.Done? {
      SameReady(s, t, |s.fds|);
    }
  }

  lemma CloseKeepsHooks(s: State, fd: int)
    requires Inv(s)
    ensures var t := Next(s, Close(fd));
            WellFormed(t) && DistinctFds(t) && HooksBelong(t) && HooksStay(t) && OpenStay(t)
  {
    hide Shown, Counted, Ready;
    OpenIsWellFormed(s, fd);
  }

  lemma CloseKeepsEvents(s: State, fd: int)
    requires Inv(s)
    ensures var t := Next(s, Close(fd)); WellFormed(t) && Shown(t) && Counted(t) && Bookkeeping(t)
  {
    hide HooksBelong, HooksStay, OpenStay, SetUp;
    OpenIsWellFormed(s, fd);
    var t := Next(s, Close(fd));
    if s.phase.Tear? {
      SameReady(s, t, s.phase.i);
    } else if s.phase.Done? {
      SameReady(s, t, |s.fds|);
    }
  }

  lemma DoneStays(s: State)
    requires |s.revents| == |s.fds| && s.phase.Done?
    ensures PollerStep(s) == s
  {}

  lemma StepKeeps(s: State, a: Action)
    requires Inv(s)
    ensures Inv(Next(s, a))
  {
    hide PollerStep, Notified, SetUp, HooksBelong, HooksStay, OpenStay, Shown, Counted, Bookkeeping;
    match a
    case Poller =>
      match s.phase {
        case Clear(_) => ClearKeeps(s);
        case Install(_) => InstallKeeps(s);
        case Wait => WaitKeeps(s);
        case Mark => MarkKeeps(s);
        case Tear(_, _) => TearKeeps(s);
        case Done(_) => DoneStays(s);
      }
    case Timeout => if s.phase.Wait? { WaitKeeps(s); }
    case Write(fd) => WriteKeeps(s, fd);
    case Read(fd) => ReadKeepsHooks(s, fd); ReadKeepsEvents(s, fd);
    case Open(fd) => OpenKeepsHooks(s, fd); OpenKeepsEvents(s, fd);
    case Close(fd) => CloseKeepsHooks(s, fd); CloseKeepsEvents(s, fd);
  }

  // ----- every interleaving

  lemma StartHolds(s: State)
    requires Start(s) && DistinctFds(s)
    ensures Inv(s)
  {}

  /** The state after any sequence of steps by anyone. */
  ghost function Run(s: State, actions: seq<Action>): (t: State)
    requires WellFormed(s)
    ensures WellFormed(t)
    decreases |actions|
  {
    if actions == [] then s
    else
      StepIsWellFormed(s, actions[0]);
      Run(Next(s, actions[0]), actions[1..])
  }

  lemma {:induction false} RunKeeps(s: State, actions: seq<Action>)
    requires Inv(s)
    ensures Inv(Run(s, actions))
    decreases |actions|
  {
    hide Next, Inv;
    assert WellFormed(s) by { InvIsWellFormed(s); }
    if actions != [] {
      StepKeeps(s, actions[0]);
      RunKeeps(Next(s, actions[0]), actions[1..]);
    }
  }

  lemma InvIsWellFormed(s: State)
    requires Inv(s)
    ensures WellFormed(s)
  {}

  /** No lost wakeup: while the poller waits, an event on a polled device has set POLLIN and
      signalled the semaphore, so its next step ends the wait; unless that fd itself was closed
      and opened again while it was set up. */
  lemma NoLostWakeup(s0: State, actions: seq<Action>, i: nat)
    requires Start(s0) && DistinctFds(s0)
    requires var t := Run(s0, actions); t.phase.Wait? && Waiting(t, i) && t.fds[i] !in t.reopened
    ensures var t := Run(s0, actions); t.revents[i] && t.sem > 0 && Next(t, Poller).phase.Mark?
  {
    hide Run;
    StartHolds(s0);
    RunKeeps(s0, actions);
    WaitingShows(Run(s0, actions), i);
  }

  lemma WaitingShows(s: State, i: nat)
    requires Inv(s) && Waiting(s, i) && s.fds[i] !in s.reopened
    ensures s.revents[i]
  {
    assert s.devs[s.fds[i]].hook == Some(i);
  }

  /** Set up and not torn down, an event waiting on the device has set POLLIN; with the same
      exception. */
  lemma PendingShows(s0: State, actions: seq<Action>, i: nat)
    requires Start(s0) && DistinctFds(s0)
    requires var t := Run(s0, actions); Waiting(t, i) && t.fds[i] !in t.reopened
    ensures Run(s0, actions).revents[i]
  {
    hide Run;
    StartHolds(s0);
    RunKeeps(s0, actions);
    WaitingShows(Run(s0, actions), i);
  }

  /** Whatever happened, a returned poll has left no callback behind: no writer can touch
      its pollfds or its semaphore any more. */
  lemma NothingLeftBehind(s0: State, actions: seq<Action>, fd: int)
    requires Start(s0) && DistinctFds(s0)
    requires Run(s0, actions).phase.Done? && fd in Run(s0, actions).devs
    ensures Run(s0, actions).devs[fd].hook == None
  {
    hide Run;
    StartHolds(s0);
    RunKeeps(s0, actions);
  }

  // ----- what POLLIN says about the run

  /** An event waits on the device of fds[i], which is set up and was not opened again since. */
  predicate Untouched(s: State, i: nat) {
    Waiting(s, i) && s.fds[i] !in s.reopened
  }

  /** At some point of the run that was so. */
  ghost predicate SeenUntouched(s: State, actions: seq<Action>, i: nat)
    requires WellFormed(s)
    decreases |actions|
  {
    || Untouched(s, i)
    || (actions != [] && (StepIsWellFormed(s, actions[0]); SeenUntouched(Next(s, actions[0]), actions[1..], i)))
  }

  /** At some point of the run an event waited on the device of fds[i] while that was set up. */
  ghost predicate Seen(s: State, actions: seq<Action>, i: nat)
    requires WellFormed(s)
    decreases |actions|
  {
    || Waiting(s, i)
    || (actions != [] && (StepIsWellFormed(s, actions[0]); Seen(Next(s, actions[0]), actions[1..], i)))
  }

  /** POLLIN as the caller will find it: what pre_poll has not yet cleared does not count. */
  predicate Shows(s: State, i: nat)
    requires i < |s.revents|
  {
    !s.phase.Clear? && s.revents[i]
  }

  /** A step sets POLLIN exactly where it leaves an event waiting on a device not opened again,
      and never takes it back. */
  ghost predicate ShowsMore(s: State, t: State, i: nat)
    requires i < |s.revents|
  {
    && |t.revents| == |s.revents| && t.fds == s.fds && t.offset == s.offset
    && (Shows(t, i) <==> Shows(s, i) || Untouched(t, i))
  }

  lemma ShownUntouched(s: State, i: nat)
    requires Inv(s) && Untouched(s, i)
    ensures Shows(s, i)
  {
    WaitingShows(s, i);
  }

  /** What is shown was shown before, or is an event on a hooked device. */
  ghost predicate ShowsOnly(s: State, t: State, i: nat)
    requires i < |s.revents|
  {
    && |t.revents| == |s.revents| && t.fds == s.fds && t.offset == s.offset
    && (Shows(s, i) ==> Shows(t, i))
    && (Shows(t, i) ==> Shows(s, i) || (Waiting(t, i) && t.devs[t.fds[i]].hook == Some(i)))
  }

  lemma InstallShows(s: State, i: nat)
    requires Inv(s) && i < |s.fds| && s.phase.Install?
    ensures ShowsOnly(s, PollerStep(s), i)
  {
    hide HooksStay, OpenStay, HooksBelong, Shown, Counted;
  }

  lemma OtherShows(s: State, i: nat)
    requires Inv(s) && i < |s.fds| && !Foreign(s, i) && !s.phase.Install?
    ensures ShowsOnly(s, PollerStep(s), i)
  {
    hide HooksStay, OpenStay, HooksBelong, Shown, Counted, Waiting;
  }

  lemma WriteShows(s: State, i: nat, fd: int)
    requires Inv(s) && i < |s.fds| && !Foreign(s, i)
    ensures ShowsOnly(s, Next(s, Write(fd)), i)
  {
    hide HooksStay, OpenStay, Shown, Counted;
  }

  lemma AnyShows(s: State, a: Action, i: nat)
    requires Inv(s) && i < |s.fds| && !Foreign(s, i)
    ensures ShowsOnly(s, Next(s, a), i)
  {
    hide HooksStay, OpenStay, HooksBelong, Shown, Counted, PollerStep, Waiting, SetUp, Notified;
    match a
    case Poller => if s.phase.Install? { InstallShows(s, i); } else { OtherShows(s, i); }
    case Write(fd) => WriteShows(s, i, fd);
    case _ =>
  }

  lemma StepShows(s: State, a: Action, i: nat)
    requires Inv(s) && i < |s.fds| && !Foreign(s, i)
    ensures ShowsMore(s, Next(s, a), i)
  {
    hide Next, OpenStay, HooksBelong, Shown, Counted, Bookkeeping;
    var t := Next(s, a);
    AnyShows(s, a, i);
    StepKeeps(s, a);
    if Untouched(t, i) {
      ShownUntouched(t, i);
    }
  }

  /** From every state of a poll: POLLIN at the end is POLLIN before, or an event on the way
      that waited on the device before that was opened again. */
  lemma {:induction false} ShowsWhatWasSeen(s: State, actions: seq<Action>, i: nat)
    requires Inv(s) && i < |s.fds| && !Foreign(s, i)
    ensures var t := Run(s, actions);
            && |t.revents| == |t.fds| == |s.fds|
            && (Shows(t, i) <==> Shows(s, i) || SeenUntouched(s, actions, i))
    decreases |actions|
  {
    hide Next;
    if Untouched(s, i) {
      ShownUntouched(s, i);
    }
    if actions != [] {
      StepShows(s, actions[0], i);
      StepKeeps(s, actions[0]);
      ShowsWhatWasSeen(Next(s, actions[0]), actions[1..], i);
    }
  }

  /** After the return, in every run: POLLIN of a device is set exactly when at some point
      between its set-up and its tear-down an event waited on it, and it had not been closed
      and opened again since the set-up.  The result counts those pollfds but the ones that
      post_poll found closed, or is 0 when an fd was not open to begin with. */
  lemma ResultIsExact(s0: State, actions: seq<Action>, i: nat)
    requires Start(s0) && DistinctFds(s0)
    requires Run(s0, actions).phase.Done? && i < |s0.fds| && !Foreign(s0, i)
    ensures var t := Run(s0, actions);
            |t.revents| == |s0.fds| && (t.revents[i] <==> SeenUntouched(s0, actions, i))
    ensures var t := Run(s0, actions);
            && (t.failed ==> t.phase.result == 0)
            && (!t.failed ==> t.phase.result + t.skipped == Ready(t, |t.fds|))
            && (!t.failed && !t.closed ==> t.skipped == 0)
  {
    hide Run, SeenUntouched;
    StartHolds(s0);
    RunKeeps(s0, actions);
    ShowsWhatWasSeen(s0, actions, i);
  }

  // ----- the wait ends only for an event or the time

  /** POLLIN of some device is set. */
  ghost predicate SomeShown(s: State)
    requires |s.revents| == |s.fds|
  {
    exists i :: 0 <= i < |s.fds| && !Foreign(s, i) && s.revents[i]
  }

  predicate PastWait(s: State) {
    s.phase.Mark? || s.phase.Tear? || s.phase.Done?
  }

  /** A signal, or the end of the wait, has its cause. */
  ghost predicate Caused(s: State)
    requires WellFormed(s)
  {
    && (s.phase.Clear? ==> s.sem == 0)
    && (s.sem > 0 && !s.phase.Clear? ==> SomeShown(s))
    && (PastWait(s) && !s.failed ==> SomeShown(s))
  }

  lemma SomeShownStays(s: State, t: State)
    requires |s.revents| == |s.fds| && SomeShown(s)
    requires t.fds == s.fds && t.offset == s.offset && |t.revents| == |s.revents|
    requires forall i :: 0 <= i < |s.fds| && s.revents[i] ==> t.revents[i]
    ensures SomeShown(t)
  {
    var i :| 0 <= i < |s.fds| && !Foreign(s, i) && s.revents[i];
    assert !Foreign(t, i) && t.revents[i];
  }

  lemma NotifiedShown(s: State, fd: int)
    requires WellFormed(s) && fd in s.devs && s.devs[fd].hook.Some?
    requires s.fds[s.devs[fd].hook.value] == fd
    ensures SomeShown(Notified(s, fd))
  {
    var i := s.devs[fd].hook.value;
    var t := Notified(s, fd);
    assert !Foreign(t, i) && t.revents[i];
  }

  lemma InstallCaused(s: State)
    requires Inv(s) && Caused(s) && s.phase.Install?
    ensures WellFormed(PollerStep(s)) && Caused(PollerStep(s))
  {
    hide HooksStay, OpenStay, Shown, Counted, Bookkeeping, HooksBelong, SomeShown;
    InstallIsWellFormed(s);
    var i, t := s.phase.i, PollerStep(s);
    if SomeShown(s) {
      SomeShownStays(s, t);
    }
    if i < |s.fds| && !Foreign(s, i) && s.fds[i] in s.devs && s.devs[s.fds[i]].counter > 0 {
      var d := s.devs[s.fds[i]].(hook := Some(i));
      NotifiedShown(s.(devs := s.devs[s.fds[i] := d], phase := Install(i + 1)), s.fds[i]);
    }
  }

  lemma OtherCaused(s: State)
    requires Inv(s) && Caused(s) && !s.phase.Install?
    ensures WellFormed(PollerStep(s)) && Caused(PollerStep(s))
  {
    hide HooksStay, OpenStay, Shown, Counted, Bookkeeping, HooksBelong, SomeShown;
    PollerIsWellFormed(s);
    if SomeShown(s) && !s.phase.Clear? {
      SomeShownStays(s, PollerStep(s));
    }
  }

  lemma WriteCaused(s: State, fd: int)
    requires Inv(s) && Caused(s)
    ensures WellFormed(Next(s, Write(fd))) && Caused(Next(s, Write(fd)))
  {
    hide HooksStay, OpenStay, Shown, Counted, Bookkeeping, SomeShown;
    WriteIsWellFormed(s, fd);
    var t := Next(s, Write(fd));
    if SomeShown(s) {
      SomeShownStays(s, t);
    }
    if fd in s.devs && s.devs[fd].hook.Some? {
      NotifiedShown(s.(devs := s.devs[fd := s.devs[fd].(counter := s.devs[fd].counter + 1)]), fd);
    }
  }

  lemma StepCaused(s: State, a: Action)
    requires Inv(s) && Caused(s) && a != Timeout
    ensures WellFormed(Next(s, a)) && Caused(Next(s, a))
  {
    hide HooksStay, OpenStay, HooksBelong, Shown, Counted, Bookkeeping, PollerStep, Notified, SetUp, SomeShown;
    StepIsWellFormed(s, a);
    match a
    case Poller => if s.phase.Install? { InstallCaused(s); } else { OtherCaused(s); }
    case Write(fd) => WriteCaused(s, fd);
    case Timeout =>
    case Read(_) => if SomeShown(s) { SomeShownStays(s, Next(s, a)); }
    case Open(_) => if SomeShown(s) { SomeShownStays(s, Next(s, a)); }
    case Close(_) => if SomeShown(s) { SomeShownStays(s, Next(s, a)); }
  }

  lemma {:induction false} RunCaused(s: State, actions: seq<Action>)
    requires Inv(s) && Caused(s) && Timeout !in actions
    ensures Caused(Run(s, actions))
    decreases |actions|
  {
    hide Next, Caused, Inv;
    InvIsWellFormed(s);
    if actions != [] {
      StepCaused(s, actions[0]);
      StepKeeps(s, actions[0]);
      RunCaused(Next(s, actions[0]), actions[1..]);
    }
  }

  /** A poll that is not timed out, and does not fail, returns only after an event was seen. */
  lemma ReturnsOnlyForEvents(s0: State, actions: seq<Action>)
    requires Start(s0) && DistinctFds(s0) && Timeout !in actions
    requires Run(s0, actions).phase.Done? && !Run(s0, actions).failed
    ensures exists i :: 0 <= i < |s0.fds| && !Foreign(s0, i) && SeenUntouched(s0, actions, i)
  {
    hide Run, SeenUntouched;
    StartHolds(s0);
    RunCaused(s0, actions);
    var t := Run(s0, actions);
    RunSame(s0, actions);
    var i :| 0 <= i < |t.fds| && !Foreign(t, i) && t.revents[i];
    assert !Foreign(s0, i);
    ResultIsExact(s0, actions, i);
  }

  lemma {:induction false} RunSame(s: State, actions: seq<Action>)
    requires WellFormed(s)
    ensures Run(s, actions).fds == s.fds && Run(s, actions).offset == s.offset
    decreases |actions|
  {
    hide PollerStep;
    if actions != [] {
      StepIsWellFormed(s, actions[0]);
      StepSame(s, actions[0]);
      RunSame(Next(s, actions[0]), actions[1..]);
    }
  }

  lemma StepSame(s: State, a: Action)
    requires WellFormed(s)
    ensures Next(s, a).fds == s.fds && Next(s, a).offset == s.offset
  {}

  // ----- failing, and the fds that are not VFS's

  /** While nobody opens or closes: which pollfds were found open so far. */
  ghost predicate FoundOpen(s: State, open: set<int>)
    requires WellFormed(s)
  {
    && s.devs.Keys == open
    && (s.phase.Install? ==> AllOpen(s, open, s.phase.i))
    && (s.phase.Wait? || s.phase.Mark? ==> AllOpen(s, open, |s.fds|))
    && (s.phase.Tear? || s.phase.Done? ==> (s.failed <==> !AllOpen(s, open, |s.fds|)))
  }

  ghost predicate AllOpen(s: State, open: set<int>, n: nat)
    requires n <= |s.fds|
  {
    forall i :: 0 <= i < n && !Foreign(s, i) ==> s.fds[i] in open
  }

  lemma StepFoundOpen(s: State, a: Action, open: set<int>)
    requires Inv(s) && FoundOpen(s, open) && !a.Open? && !a.Close?
    ensures WellFormed(Next(s, a)) && FoundOpen(Next(s, a), open)
  {
    hide HooksStay, OpenStay, HooksBelong, Shown, Counted, PollerStep;
    StepIsWellFormed(s, a);
    if a.Poller? {
      PollerFoundOpen(s, open);
    }
  }

  lemma PollerFoundOpen(s: State, open: set<int>)
    requires Inv(s) && FoundOpen(s, open)
    ensures WellFormed(PollerStep(s)) && FoundOpen(PollerStep(s), open)
  {
    hide HooksStay, OpenStay, HooksBelong, Shown, Counted, Notified;
    PollerIsWellFormed(s);
    if s.phase.Install? {
      InstallFoundOpen(s, open);
    }
  }

  lemma InstallFoundOpen(s: State, open: set<int>)
    requires Inv(s) && FoundOpen(s, open) && s.phase.Install?
    ensures WellFormed(PollerStep(s)) && FoundOpen(PollerStep(s), open)
  {
    hide HooksStay, OpenStay, HooksBelong, Shown, Counted;
    InstallIsWellFormed(s);
    var t := PollerStep(s);
    var i := s.phase.i;
    if i < |s.fds| && !Foreign(s, i) && s.fds[i] !in s.devs {
      assert !Foreign(t, i) && t.fds[i] !in open;
    }
  }

  /** When nobody opens or closes meanwhile, a poll fails exactly when one of its fds is not open. */
  lemma FailsIffNotOpen(s0: State, actions: seq<Action>)
    requires Start(s0) && DistinctFds(s0) && forall k :: 0 <= k < |actions| ==> !actions[k].Open? && !actions[k].Close?
    requires Run(s0, actions).phase.Done?
    ensures Run(s0, actions).failed <==> exists i :: 0 <= i < |s0.fds| && !Foreign(s0, i) && s0.fds[i] !in s0.devs
  {
    hide Run;
    StartHolds(s0);
    RunFoundOpen(s0, actions, s0.devs.Keys);
    RunSame(s0, actions);
    var t := Run(s0, actions);
    assert forall i :: 0 <= i < |s0.fds| ==> Foreign(t, i) == Foreign(s0, i);
  }

  lemma {:induction false} RunFoundOpen(s: State, actions: seq<Action>, open: set<int>)
    requires Inv(s) && FoundOpen(s, open) && forall k :: 0 <= k < |actions| ==> !actions[k].Open? && !actions[k].Close?
    ensures FoundOpen(Run(s, actions), open)
    decreases |actions|
  {
    hide Next, FoundOpen, Inv;
    InvIsWellFormed(s);
    if actions != [] {
      StepFoundOpen(s, actions[0], open);
      StepKeeps(s, actions[0]);
      RunFoundOpen(Next(s, actions[0]), actions[1..], open);
    }
  }

  /** The pollfds of fds that are not VFS's are marked after the wait. */
  ghost predicate ForeignMarked(s: State)
    requires WellFormed(s)
  {
    && (s.phase.Clear? ==> forall i :: 0 <= i < s.phase.i ==> !s.revents[i])
    && (!s.phase.Clear? ==> forall i :: 0 <= i < |s.fds| && Foreign(s, i) ==>
          (s.revents[i] <==> (s.phase.Tear? || s.phase.Done?) && !s.failed))
  }

  lemma StepForeign(s: State, a: Action)
    requires Inv(s) && ForeignMarked(s)
    ensures WellFormed(Next(s, a)) && ForeignMarked(Next(s, a))
  {
    hide HooksStay, OpenStay, Shown, Counted, PollerStep, SetUp;
    StepIsWellFormed(s, a);
    if a.Poller? {
      PollerForeign(s);
    }
  }

  lemma PollerForeign(s: State)
    requires Inv(s) && ForeignMarked(s)
    ensures WellFormed(PollerStep(s)) && ForeignMarked(PollerStep(s))
  {
    hide HooksStay, OpenStay, HooksBelong, Shown, Counted;
    PollerIsWellFormed(s);
  }

  lemma {:induction false} RunForeign(s: State, actions: seq<Action>)
    requires Inv(s) && ForeignMarked(s)
    ensures ForeignMarked(Run(s, actions))
    decreases |actions|
  {
    hide Next, ForeignMarked, Inv;
    InvIsWellFormed(s);
    if actions != [] {
      StepForeign(s, actions[0]);
      StepKeeps(s, actions[0]);
      RunForeign(Next(s, actions[0]), actions[1..]);
    }
  }

  /** In this variant of the wait every fd that is not VFS's is reported ready, unless the poll failed. */
  lemma ForeignIsReady(s0: State, actions: seq<Action>, i: nat)
    requires Start(s0) && DistinctFds(s0) && Run(s0, actions).phase.Done? && i < |s0.fds| && Foreign(s0, i)
    ensures var t := Run(s0, actions); |t.revents| == |s0.fds| && (t.revents[i] <==> !t.failed)
  {
    hide Run;
    StartHolds(s0);
    RunForeign(s0, actions);
    RunSame(s0, actions);
    assert Foreign(Run(s0, actions), i);
  }

  // ----- an undisturbed poll

  function PollerSteps(s: State, n: nat): (t: State)
    requires |s.revents| == |s.fds|
    ensures |t.revents| == |t.fds|
    decreases n
  {
    if n == 0 then s else PollerSteps(PollerStep(s), n - 1)
  }

  /** The devices after the first k pollfds are set up, when no event waits. */
  ghost function Hooked(s: State, k: nat): map<int, Dev>
    requires k <= |s.fds|
  {
    if k == 0 then s.devs
    else if Foreign(s, k - 1) then Hooked(s, k - 1)
    else Hooked(s, k - 1)[s.fds[k - 1] := Dev(0, Some(k - 1))]
  }

  /** Every polled fd is an open device without events. */
  ghost predicate Idle(s: State) {
    forall i :: 0 <= i < |s.fds| && !Foreign(s, i) ==> s.fds[i] in s.devs && s.devs[s.fds[i]].counter == 0
  }

  lemma {:induction false} ClearRun(s: State, k: nat)
    requires |s.revents| == |s.fds| && s.phase == Clear(0) && k <= |s.fds|
    ensures var t := PollerSteps(s, k);
            && t == s.(revents := t.revents, phase := Clear(k))
            && forall i :: 0 <= i < k ==> !t.revents[i]
  {
    if k > 0 {
      ClearRun(s, k - 1);
      MoreSteps(s, k - 1, 1);
      OneStep(PollerSteps(s, k - 1));
    }
  }

  lemma NoStep(s: State)
    requires |s.revents| == |s.fds|
    ensures PollerSteps(s, 0) == s
  {}

  lemma OneStep(s: State)
    requires |s.revents| == |s.fds|
    ensures PollerSteps(s, 1) == PollerStep(s)
  {}

  lemma {:induction false} InstallRun(s: State, k: nat)
    requires |s.revents| == |s.fds| && s.phase == Install(0) && k <= |s.fds| && Idle(s)
    ensures PollerSteps(s, k) == s.(devs := Hooked(s, k), phase := Install(k))
    ensures forall i :: 0 <= i < |s.fds| && !Foreign(s, i) ==>
              s.fds[i] in Hooked(s, k) && Hooked(s, k)[s.fds[i]].counter == 0
  {
    if k > 0 {
      InstallRun(s, k - 1);
      MoreSteps(s, k - 1, 1);
      OneStep(PollerSteps(s, k - 1));
    }
  }

  /** The last set-up of an fd is the one that stays. */
  lemma {:induction false} LastHook(s: State, i: nat, k: nat)
    requires i < k <= |s.fds| && !Foreign(s, i)
    ensures s.fds[i] in Hooked(s, k)
    ensures var h := Hooked(s, k)[s.fds[i]].hook; h.Some? && i <= h.value < k
    ensures forall j :: i < j < k && s.fds[j] == s.fds[i] ==> j <= Hooked(s, k)[s.fds[i]].hook.value
    decreases k
  {
    if i < k - 1 {
      LastHook(s, i, k - 1);
    }
  }

  /** Undisturbed, the poller comes to wait with every pollfd set up and nothing shown. */
  lemma ComesToWait(s: State)
    requires Start(s) && Idle(s)
    ensures var w := PollerSteps(s, 2 * |s.fds| + 2);
            && w == s.(revents := w.revents, devs := Hooked(s, |s.fds|), phase := Wait)
            && forall i :: 0 <= i < |s.fds| ==> !w.revents[i]
  {
    hide PollerSteps, PollerStep, Hooked, Idle;
    var n := |s.fds|;
    ComesToInstall(s);
    var a := PollerSteps(s, n + 1);
    SameIdle(s, a);
    InstallRun(a, n);
    SameHooked(s, a, n);
    var b := PollerSteps(a, n);
    OneStep(b);
    PhaseEnds(b);
    MoreSteps(s, n + 1, n);
    MoreSteps(s, n + 1 + n, 1);
  }

  lemma SameIdle(s: State, t: State)
    requires Idle(s) && t.fds == s.fds && t.devs == s.devs && t.offset == s.offset
    ensures Idle(t)
  {
    assert forall i :: 0 <= i < |s.fds| ==> Foreign(s, i) == Foreign(t, i);
  }

  lemma ComesToInstall(s: State)
    requires |s.revents| == |s.fds| && s.phase == Clear(0)
    ensures var a := PollerSteps(s, |s.fds| + 1);
            && a == s.(revents := a.revents, phase := Install(0))
            && forall i :: 0 <= i < |s.fds| ==> !a.revents[i]
  {
    hide PollerSteps, PollerStep;
    var n := |s.fds|;
    ClearRun(s, n);
    var c := PollerSteps(s, n);
    OneStep(c);
    PhaseEnds(c);
    MoreSteps(s, n, 1);
  }

  /** Past the last pollfd only the phase changes. */
  lemma PhaseEnds(s: State)
    requires |s.revents| == |s.fds|
    ensures s.phase == Clear(|s.fds|) ==> PollerStep(s) == s.(phase := Install(0))
    ensures s.phase == Install(|s.fds|) ==> PollerStep(s) == s.(phase := Wait)
  {}

  lemma {:induction false} SameHooked(s: State, t: State, k: nat)
    requires k <= |s.fds| && t.fds == s.fds && t.devs == s.devs && t.offset == s.offset
    ensures Hooked(s, k) == Hooked(t, k)
    decreases k
  {
    if k > 0 {
      SameHooked(s, t, k - 1);
    }
  }

  lemma {:induction false} MoreSteps(s: State, m: nat, n: nat)
    requires |s.revents| == |s.fds|
    ensures PollerSteps(PollerSteps(s, m), n) == PollerSteps(s, m + n)
    decreases m
  {
    if m > 0 {
      MoreSteps(PollerStep(s), m - 1, n);
    }
  }

  // ----- longer runs

  lemma {:induction false} RunAppend(s: State, a: seq<Action>, b: seq<Action>)
    requires WellFormed(s)
    ensures Run(s, a + b) == Run(Run(s, a), b)
    decreases |a|
  {
    hide Next;
    if a == [] {
      assert a + b == b;
    } else {
      StepIsWellFormed(s, a[0]);
      assert (a + b)[1..] == a[1..] + b;
      RunAppend(Next(s, a[0]), a[1..], b);
    }
  }

  lemma {:induction false} SeenWithin(s: State, a: seq<Action>, b: seq<Action>, i: nat)
    requires WellFormed(s) && Waiting(Run(s, a), i)
    ensures Seen(s, a + b, i)
    decreases |a|
  {
    hide Next, Waiting;
    if a != [] {
      StepIsWellFormed(s, a[0]);
      assert (a + b)[1..] == a[1..] + b;
      SeenWithin(Next(s, a[0]), a[1..], b, i);
    }
  }

  function Times(n: nat): (actions: seq<Action>)
    ensures |actions| == n
  {
    seq(n, _ => Poller)
  }

  lemma {:induction false} PollerStepsRun(s: State, n: nat)
    requires WellFormed(s)
    ensures Run(s, Times(n)) == PollerSteps(s, n)
    decreases n
  {
    hide PollerStep;
    if n > 0 {
      StepIsWellFormed(s, Poller);
      assert Times(n)[1..] == Times(n - 1);
      PollerStepsRun(PollerStep(s), n - 1);
    }
  }

  /** Before anything is set up, the fds are closed if need be and opened. */
  function Freshen(fds: seq<int>): seq<Action> {
    if fds == [] then [] else Freshen(fds[..|fds| - 1]) + [Close(fds[|fds| - 1]), Open(fds[|fds| - 1])]
  }

  /** That leads every start to one with only open devices without events. */
  lemma {:induction false} Freshens(s: State, k: nat)
    requires Start(s) && k <= |s.fds|
    ensures var t := Run(s, Freshen(s.fds[..k]));
            && t == s.(devs := t.devs) && Start(t)
            && forall i :: 0 <= i < k && !Foreign(s, i) ==> s.fds[i] in t.devs && t.devs[s.fds[i]].counter == 0
    decreases k
  {
    hide Run;
    if k == 0 {
      assert s.fds[..0] == [];
      RunNothing(s);
    } else {
      Freshens(s, k - 1);
      assert s.fds[..k][..k - 1] == s.fds[..k - 1];
      var t := Run(s, Freshen(s.fds[..k - 1]));
      RunAppend(s, Freshen(s.fds[..k - 1]), [Close(s.fds[k - 1]), Open(s.fds[k - 1])]);
      OneFresh(t, s.fds[k - 1]);
    }
  }

  lemma RunNothing(s: State)
    requires WellFormed(s)
    ensures Run(s, []) == s
  {}

  lemma OneFresh(s: State, fd: int)
    requires Start(s)
    ensures var t := Run(s, [Close(fd), Open(fd)]);
            && t == s.(devs := t.devs)
            && t.devs == if fd < s.offset then s.devs else s.devs[fd := Dev(0, None)]
  {
    hide Run;
    var c := Next(s, Close(fd));
    RunStep(s, Close(fd), [Open(fd)]);
    RunStep(c, Open(fd), []);
    assert [Close(fd)] + [Open(fd)] == [Close(fd), Open(fd)] && [Open(fd)] + [] == [Open(fd)];
    assert !SetUp(s, fd) && !SetUp(c, fd);
    if fd >= s.offset {
      assert Next(c, Open(fd)).devs == s.devs[fd := Dev(0, None)];
    }
  }

  /** To the wait, from any start. */
  function WaitRun(s: State): seq<Action> {
    Freshen(s.fds) + Times(2 * |s.fds| + 2)
  }

  /** Every start has a run in which the poller waits with all its devices set up, open and
      without events, and nothing shown. */
  lemma WaitsIdle(s: State)
    requires Start(s)
    ensures var w := Run(s, WaitRun(s));
            && w.phase.Wait? && w.fds == s.fds && w.offset == s.offset && w.reopened == {} && !w.failed
            && (forall i :: 0 <= i < |s.fds| ==> !w.revents[i])
            && (forall i :: 0 <= i < |s.fds| && !Foreign(s, i) ==> HookedLast(w, i))
  {
    hide Run, PollerSteps, Hooked, Freshen, HookedLast;
    Freshens(s, |s.fds|);
    assert s.fds[..|s.fds|] == s.fds;
    var t := Run(s, Freshen(s.fds));
    RunAppend(s, Freshen(s.fds), Times(2 * |s.fds| + 2));
    PollerStepsRun(t, 2 * |s.fds| + 2);
    assert Idle(t) by {
      assert forall i :: 0 <= i < |s.fds| && !Foreign(t, i) ==> !Foreign(s, i);
    }
    ComesToWait(t);
    forall i | 0 <= i < |s.fds| && !Foreign(s, i)
      ensures HookedLast(Run(s, WaitRun(s)), i)
    {
      assert !Foreign(t, i);
      HookedAtWait(t, i);
    }
  }

  /** The device of fds[i] is open without events, and hooked to the last pollfd that names it. */
  ghost predicate HookedLast(w: State, i: nat) {
    && i < |w.fds| && w.fds[i] in w.devs && w.devs[w.fds[i]].counter == 0
    && w.devs[w.fds[i]].hook.Some?
    && forall j :: i < j < |w.fds| && w.fds[j] == w.fds[i] ==> j <= w.devs[w.fds[i]].hook.value
  }

  lemma HookedAtWait(s: State, i: nat)
    requires Start(s) && Idle(s) && i < |s.fds| && !Foreign(s, i)
    ensures HookedLast(PollerSteps(s, 2 * |s.fds| + 2), i)
  {
    hide PollerSteps, Hooked;
    ComesToWait(s);
    LastHook(s, i, |s.fds|);
    HookedCounts(s, i, |s.fds|);
  }

  lemma {:induction false} HookedCounts(s: State, i: nat, k: nat)
    requires Idle(s) && i < |s.fds| && !Foreign(s, i) && k <= |s.fds|
    ensures s.fds[i] in Hooked(s, k) && Hooked(s, k)[s.fds[i]].counter == 0
    decreases k
  {
    if k > 0 {
      HookedCounts(s, i, k - 1);
    }
  }

  // ----- one fd twice

  /** After this run an event waits on the device of fds[i], which is set up and was not
      opened again, and POLLIN is not set. */
  ghost predicate Missed(s: State, actions: seq<Action>, i: nat)
    requires WellFormed(s)
  {
    var t := Run(s, actions); Untouched(t, i) && !t.revents[i]
  }

  /** With one device in two pollfds, an event can be missed by the earlier one. */
  lemma TwiceTheSameFd(s: State, i: nat, j: nat)
    requires Start(s) && i < j < |s.fds| && !Foreign(s, i) && s.fds[i] == s.fds[j]
    ensures Missed(s, WaitRun(s) + [Write(s.fds[i])], i)
  {
    hide Run, WaitRun;
    WaitsIdle(s);
    var w := Run(s, WaitRun(s));
    RunAppend(s, WaitRun(s), [Write(s.fds[i])]);
    RunStep(w, Write(s.fds[i]), []);
    assert [Write(s.fds[i])] + [] == [Write(s.fds[i])];
    assert HookedLast(w, i);
    assert Armed(w, i) && !Foreign(w, i);
  }

  /** Over every interleaving of every poll: no event is missed if and only if the fds of VFS
      are distinct. */
  lemma NoneMissedIffDistinct(s: State)
    requires Start(s)
    ensures (forall actions, i :: !Missed(s, actions, i)) <==> DistinctFds(s)
  {
    hide Run, WaitRun;
    if DistinctFds(s) {
      forall actions, i ensures !Missed(s, actions, i) {
        if Untouched(Run(s, actions), i) {
          PendingShows(s, actions, i);
        }
      }
    } else {
      var i, j :| 0 <= i < j < |s.fds| && !Foreign(s, i) && s.fds[i] == s.fds[j];
      TwiceTheSameFd(s, i, j);
    }
  }

  // ----- an fd closed and opened again

  /** Without POLLIN on any device, post_poll counts nothing. */
  lemma {:induction false} TearRun(s: State, k: nat)
    requires |s.revents| == |s.fds| && s.phase == Tear(0, 0) && k <= |s.fds|
    requires forall i :: 0 <= i < |s.fds| && !Foreign(s, i) ==> !s.revents[i]
    ensures var t := PollerSteps(s, k); t == s.(devs := t.devs, phase := Tear(k, 0))
  {
    hide PollerSteps, PollerStep;
    if k == 0 {
      NoStep(s);
    } else {
      TearRun(s, k - 1);
      MoreSteps(s, k - 1, 1);
      OneStep(PollerSteps(s, k - 1));
      TearOne(PollerSteps(s, k - 1));
    }
  }

  lemma MarkThenDone(s: State)
    requires |s.revents| == |s.fds| && s.phase == Mark && !s.failed
    requires forall i :: 0 <= i < |s.fds| && !Foreign(s, i) ==> !s.revents[i]
    ensures var t := PollerSteps(s, |s.fds| + 2);
            && t.phase == Done(0)
            && forall i :: 0 <= i < |s.fds| && !Foreign(s, i) ==> i < |t.revents| && !t.revents[i]
  {
    hide PollerSteps;
    var n := |s.fds|;
    var m := PollerStep(s);
    OneStep(s);
    MoreSteps(s, 1, n);
    TearRun(m, n);
    OneStep(PollerSteps(m, n));
    MoreSteps(s, 1 + n, 1);
  }

  /** The fd is closed and opened again, and an event is written to it. */
  function Reopening(fd: int): seq<Action> {
    [Close(fd), Open(fd), Write(fd)]
  }

  /** Whenever fds[i] is set up without POLLIN, closing and opening it again makes the next
      event on it invisible. */
  lemma ReopenHides(s: State, i: nat)
    requires Inv(s) && i < |s.fds| && !Foreign(s, i) && Armed(s, i)
    requires s.fds[i] in s.devs && !s.revents[i]
    ensures var t := Run(s, Reopening(s.fds[i]));
            && t == s.(devs := t.devs, closed := true, reopened := s.reopened + {s.fds[i]}) && Waiting(t, i)
  {
    hide Run, HooksStay, OpenStay, HooksBelong, Shown, Counted, Bookkeeping, WellFormed, SetUp;
    var fd := s.fds[i];
    InvIsWellFormed(s);
    InvIsOffset(s);
    RunOfThree(s, Close(fd), Open(fd), Write(fd));
    SetUpNow(s, i);
    SetUpNow(Next(s, Close(fd)), i);
  }

  lemma InvIsOffset(s: State)
    requires WellFormed(s)
    ensures forall fd :: fd in s.devs ==> fd >= s.offset
  {}

  lemma SetUpNow(s: State, i: nat)
    requires i < |s.fds| && Armed(s, i)
    ensures SetUp(s, s.fds[i])
  {}

  lemma RunOfThree(s: State, a: Action, b: Action, c: Action)
    requires WellFormed(s)
    ensures WellFormed(Next(s, a)) && WellFormed(Next(Next(s, a), b))
    ensures Run(s, [a, b, c]) == Next(Next(Next(s, a), b), c)
  {
    hide Next, Run, WellFormed;
    RunStep(s, a, [b, c]);
    RunStep(Next(s, a), b, [c]);
    RunStep(Next(Next(s, a), b), c, []);
    assert [a] + [b, c] == [a, b, c] && [b] + [c] == [b, c] && [c] + [] == [c];
  }

  lemma RunStep(s: State, a: Action, rest: seq<Action>)
    requires WellFormed(s)
    ensures WellFormed(Next(s, a)) && Run(s, [a] + rest) == Run(Next(s, a), rest)
    ensures rest == [] ==> Run(s, [a] + rest) == Next(s, a)
  {
    hide Next, WellFormed;
    StepIsWellFormed(s, a);
    assert ([a] + rest)[1..] == rest;
  }

  /** The whole poll, from its start to its return. */
  function ReopenRun(s: State, i: nat): seq<Action>
    requires i < |s.fds|
  {
    WaitRun(s) + Reopening(s.fds[i]) + [Timeout] + Times(|s.fds| + 2)
  }

  /** The condition on the fd is needed: for every fd of every poll there is a run in which an
      event waits on it while it is set up, and the poll returns 0 without POLLIN. */
  lemma ReopenedIsMissed(s: State, i: nat)
    requires Start(s) && DistinctFds(s) && i < |s.fds| && !Foreign(s, i)
    ensures var t := Run(s, ReopenRun(s, i));
            && Seen(s, ReopenRun(s, i), i)
            && t.phase == Done(0) && i < |t.revents| && !t.revents[i]
  {
    hide Next, PollerStep, PollerSteps, Run, Seen, Waiting, Times, Inv, WaitRun;
    var first, last := WaitRun(s), Times(|s.fds| + 2);
    var middle := Reopening(s.fds[i]);
    StartHolds(s);
    InvIsWellFormed(s);
    RunKeeps(s, first);
    WaitsIdle(s);
    var w := Run(s, first);
    assert HookedLast(w, i) && !Foreign(w, i);
    ReopenHides(w, i);
    var u := Run(w, middle);
    RunAppend(s, first, middle);
    SeenWithin(s, first + middle, [Timeout] + last, i);
    assert first + middle + [Timeout] + last == (first + middle) + ([Timeout] + last);
    RunAppend(s, first + middle, [Timeout] + last);
    RunAppend(u, [Timeout], last);
    TimesOut(u);
    MarkThenDone(u.(phase := Mark));
    PollerStepsRun(u.(phase := Mark), |s.fds| + 2);
    assert !Foreign(u.(phase := Mark), i);
  }

  lemma TimesOut(s: State)
    requires WellFormed(s) && s.phase.Wait?
    ensures Run(s, [Timeout]) == s.(phase := Mark) && WellFormed(s.(phase := Mark))
  {
    assert [Timeout][1..] == [];
  }
}
