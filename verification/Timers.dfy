/**
  kernel/yloop/yloop.c: delayed actions.  What the list of pending timers holds, over every
  run in which timers are posted, cancelled and fired, from callbacks or from outside.
 */
module Timers {
  import opened Widths

  const NONE: int := 0              // the null callback
  const ANY_MS: int := -1           // aos_cancel_delayed_action: any delay

  /** yloop_timeout_t; `id` tells the allocations apart, in posting order. */
  datatype Timer = Timer(deadline: int, ms: int, cb: int, param: int, id: nat)

  // ----- the operations on the list

  /** Where a new deadline goes: before the first later one. */
  function Position(ts: seq<Timer>, deadline: int): (k: nat)
    ensures k <= |ts|
    ensures forall i :: 0 <= i < k ==> ts[i].deadline <= deadline
    ensures k < |ts| ==> deadline < ts[k].deadline
  {
    if ts == [] || deadline < ts[0].deadline then 0 else 1 + Position(ts[1..], deadline)
  }

  function Posted(ts: seq<Timer>, t: Timer): seq<Timer> {
    var k := Position(ts, t.deadline);
    ts[..k] + [t] + ts[k..]
  }

  predicate Matches(t: Timer, ms: int, cb: int, param: int) {
    (ms == ANY_MS || t.ms == ms) && t.cb == cb && t.param == param
  }

  /** The first match, or the length. */
  function Match(ts: seq<Timer>, ms: int, cb: int, param: int): (k: nat)
    ensures k <= |ts|
    ensures forall i :: 0 <= i < k ==> !Matches(ts[i], ms, cb, param)
    ensures k < |ts| ==> Matches(ts[k], ms, cb, param)
  {
    if ts == [] || Matches(ts[0], ms, cb, param) then 0 else 1 + Match(ts[1..], ms, cb, param)
  }

  function Cancelled(ts: seq<Timer>, ms: int, cb: int, param: int): seq<Timer> {
    var k := Match(ts, ms, cb, param);
    if k < |ts| then ts[..k] + ts[k + 1..] else ts
  }

  /** How long aos_loop_run lets the poll wait. */
  function PollDelay(ts: seq<Timer>, now: int): int {
    if ts == [] then -1 else if now < ts[0].deadline then ts[0].deadline - now else 0
  }

  // ----- runs

  datatype Shot = Shot(timer: Timer, at: int)

  datatype State = State(
    now: int,
    pending: seq<Timer>,
    posted: seq<Timer>,             // history: every timer ever posted
    fired: seq<Shot>,
    cancelled: seq<Timer>,
    destroyed: seq<Timer>)

  datatype Action =
    | Tick(elapsed: nat)                            // the clock moves
    | Post(ms: int, cb: int, param: int)            // aos_post_delayed_action
    | Cancel(ms: int, cb: int, param: int)          // aos_cancel_delayed_action
    | Check                                         // aos_loop_run looks at the first timer
    | Destroy                                       // aos_loop_destroy frees what is left

  function Next(s: State, a: Action): State {
    match a
    case Tick(ms) => s.(now := s.now + ms)
    case Post(ms, cb, param) =>
      if cb == NONE then s
      else
        var t := Timer(s.now + ms, ms, cb, param, |s.posted|);
        s.(pending := Posted(s.pending, t), posted := s.posted + [t])
    case Cancel(ms, cb, param) =>
      var k := Match(s.pending, ms, cb, param);
      if k < |s.pending| then
        s.(pending := Cancelled(s.pending, ms, cb, param), cancelled := s.cancelled + [s.pending[k]])
      else s
    case Check =>
      if s.pending != [] && s.now >= s.pending[0].deadline then
        s.(pending := s.pending[1..], fired := s.fired + [Shot(s.pending[0], s.now)])
      else s
    case Destroy => s.(pending := [], destroyed := s.destroyed + s.pending)
  }

  function Run(s: State, actions: seq<Action>): State
    decreases |actions|
  {
    if actions == [] then s else Run(Next(s, actions[0]), actions[1..])
  }

  lemma {:induction false} RunAppend(s: State, a: seq<Action>, b: seq<Action>)
    ensures Run(s, a + b) == Run(Run(s, a), b)
    decreases |a|
  {
    hide Next;
    if a == [] {
      assert a + b == b;
    } else {
      assert (a + b)[1..] == a[1..] + b;
      RunAppend(Next(s, a[0]), a[1..], b);
    }
  }

  predicate Start(s: State) {
    s == State(s.now, [], [], [], [], [])
  }

  // ----- order

  /** Earlier deadline, or the same deadline and posted earlier. */
  predicate Before(a: Timer, b: Timer) {
    a.deadline < b.deadline || (a.deadline == b.deadline && a.id < b.id)
  }

  ghost predicate Ordered(ts: seq<Timer>) {
    forall i, j :: 0 <= i < j < |ts| ==> Before(ts[i], ts[j])
  }

  lemma PostedOrdered(ts: seq<Timer>, t: Timer)
    requires Ordered(ts) && forall i :: 0 <= i < |ts| ==> ts[i].id < t.id
    ensures Ordered(Posted(ts, t))
  {
    var k := Position(ts, t.deadline);
    forall i | k <= i < |ts| ensures Before(t, ts[i]) {
      if i > k { assert Before(ts[k], ts[i]); }
    }
  }

  // ----- every posted timer is in one place

  /** The timers that are pending, fired, cancelled or destroyed, with all they hold. */
  ghost function Known(s: State): multiset<Timer> {
    multiset(s.pending) + multiset(ShotTimers(s.fired)) + multiset(s.cancelled) + multiset(s.destroyed)
  }

  function ShotTimers(shots: seq<Shot>): (ts: seq<Timer>)
    ensures |ts| == |shots|
  {
    seq(|shots|, i requires 0 <= i < |shots| => shots[i].timer)
  }

  /** Together they are the timers posted, and each of these was given its own id. */
  ghost predicate Conserved(s: State) {
    && Known(s) == multiset(s.posted)
    && forall i :: 0 <= i < |s.posted| ==> s.posted[i].id == i
  }

  /** Taking a timer out of the list moves that one. */
  lemma CutOne(ts: seq<Timer>, k: nat)
    requires k < |ts|
    ensures multiset(ts) == multiset(ts[..k] + ts[k + 1..]) + multiset{ts[k]}
  {
    assert ts == ts[..k] + ([ts[k]] + ts[k + 1..]);
  }

  lemma PutOne(ts: seq<Timer>, t: Timer)
    ensures multiset(Posted(ts, t)) == multiset(ts) + multiset{t}
  {
    hide Position;
    var k := Position(ts, t.deadline);
    CutOne(Posted(ts, t), k);
    assert Posted(ts, t)[..k] + Posted(ts, t)[k + 1..] == ts;
  }

  lemma PostConserves(s: State, ms: int, cb: int, param: int)
    requires Conserved(s)
    ensures Conserved(Next(s, Post(ms, cb, param)))
  {
    hide Posted;
    PutOne(s.pending, Timer(s.now + ms, ms, cb, param, |s.posted|));
  }

  lemma CancelConserves(s: State, ms: int, cb: int, param: int)
    requires Conserved(s)
    ensures Conserved(Next(s, Cancel(ms, cb, param)))
  {
    hide Match;
    var k := Match(s.pending, ms, cb, param);
    if k < |s.pending| {
      CutOne(s.pending, k);
    }
  }

  lemma CheckConserves(s: State)
    requires Conserved(s)
    ensures Conserved(Next(s, Check))
  {
    hide ShotTimers;
    if s.pending != [] && s.now >= s.pending[0].deadline {
      var t := s.pending[0];
      FirstOut(s.pending);
      ShotTimersAppend(s.fired, Shot(t, s.now));
      LastIn(ShotTimers(s.fired), t);
    }
  }

  lemma FirstOut(ts: seq<Timer>)
    requires ts != []
    ensures multiset(ts) == multiset(ts[1..]) + multiset{ts[0]}
  {
    assert ts == [ts[0]] + ts[1..];
  }

  lemma LastIn(ts: seq<Timer>, t: Timer)
    ensures multiset(ts + [t]) == multiset(ts) + multiset{t}
  {}

  lemma ShotTimersAppend(shots: seq<Shot>, shot: Shot)
    ensures ShotTimers(shots + [shot]) == ShotTimers(shots) + [shot.timer]
  {}

  lemma StepConserves(s: State, a: Action)
    requires Conserved(s)
    ensures Conserved(Next(s, a))
  {
    match a
    case Tick(_) =>
    case Post(ms, cb, param) => PostConserves(s, ms, cb, param);
    case Cancel(ms, cb, param) => CancelConserves(s, ms, cb, param);
    case Check => CheckConserves(s);
    case Destroy =>
  }

  /** Over every run the timers posted are those pending, fired, cancelled and destroyed,
      each with the deadline, callback and argument it was posted with. */
  lemma {:induction false} TimersAreConserved(s: State, actions: seq<Action>)
    requires Conserved(s)
    ensures Conserved(Run(s, actions))
    decreases |actions|
  {
    hide Conserved, Next;
    if actions != [] {
      StepConserves(s, actions[0]);
      TimersAreConserved(Next(s, actions[0]), actions[1..]);
    }
  }

  lemma {:induction false} EachOnce(ts: seq<Timer>, t: Timer)
    requires forall i :: 0 <= i < |ts| ==> ts[i].id == i
    ensures multiset(ts)[t] == if t in ts then 1 else 0
    decreases |ts|
  {
    if ts != [] {
      var last := |ts| - 1;
      assert ts == ts[..last] + [ts[last]];
      EachOnce(ts[..last], t);
    }
  }

  /** In every run from a new loop, each posted timer is exactly one of pending, fired,
      cancelled or destroyed, and is so exactly once; nothing else is. */
  lemma EveryTimerOnce(s: State, actions: seq<Action>, t: Timer)
    requires Start(s)
    ensures Known(Run(s, actions))[t] == if t in Run(s, actions).posted then 1 else 0
  {
    hide Run;
    StartConserved(s);
    TimersAreConserved(s, actions);
    EachOnce(Run(s, actions).posted, t);
  }

  lemma StartConserved(s: State)
    requires Start(s)
    ensures Conserved(s)
  {
    assert ShotTimers([]) == [];
  }

  // ----- what holds in every run

  ghost predicate Inv(s: State) {
    && Ordered(s.pending)
    && (forall i :: 0 <= i < |s.pending| ==> s.pending[i].id < |s.posted|)
    && (forall i :: 0 <= i < |s.pending| ==> s.pending[i].deadline - s.pending[i].ms <= s.now)
    && (forall i :: 0 <= i < |s.fired| ==> s.fired[i].timer.deadline <= s.fired[i].at <= s.now)
  }

  lemma PostKeeps(s: State, ms: int, cb: int, param: int)
    requires Inv(s)
    ensures Inv(Next(s, Post(ms, cb, param)))
  {
    hide Position, Ordered;
    PostedOrdered(s.pending, Timer(s.now + ms, ms, cb, param, |s.posted|));
  }

  lemma CancelKeeps(s: State, ms: int, cb: int, param: int)
    requires Inv(s)
    ensures Inv(Next(s, Cancel(ms, cb, param)))
  {
    hide Match, Before;
  }

  lemma CheckKeeps(s: State)
    requires Inv(s)
    ensures Inv(Next(s, Check))
  {
    hide Before;
  }

  lemma StepKeeps(s: State, a: Action)
    requires Inv(s)
    ensures Inv(Next(s, a))
  {
    match a
    case Tick(_) =>
    case Post(ms, cb, param) => PostKeeps(s, ms, cb, param);
    case Cancel(ms, cb, param) => CancelKeeps(s, ms, cb, param);
    case Check => CheckKeeps(s);
    case Destroy =>
  }

  /** In every run the list stays sorted by deadline with ties in posting order, and no
      timer has fired before its deadline. */
  lemma {:induction false} RunKeeps(s: State, actions: seq<Action>)
    requires Inv(s)
    ensures Inv(Run(s, actions))
    decreases |actions|
  {
    if actions != [] {
      StepKeeps(s, actions[0]);
      RunKeeps(Next(s, actions[0]), actions[1..]);
    }
  }

  /** The timer the loop fires is the earliest of all pending ones, and it is due. */
  lemma FiresTheEarliest(s: State, actions: seq<Action>)
    requires Start(s)
    requires var t := Run(s, actions); Next(t, Check) != t
    ensures var t := Run(s, actions);
            && t.pending != [] && t.pending[0].deadline <= t.now
            && Next(t, Check).fired == t.fired + [Shot(t.pending[0], t.now)]
            && forall i :: 0 < i < |t.pending| ==> Before(t.pending[0], t.pending[i])
  {
    hide Run;
    RunKeeps(s, actions);
  }

  /** With delays that are ints the poll's wait is one too, never negative while a timer is
      pending, and it ends exactly at the earliest deadline unless that has passed. */
  lemma PollDelayFits(s: State, actions: seq<Action>)
    requires Start(s)
    requires var t := Run(s, actions);
             t.pending != [] && forall i :: 0 <= i < |t.pending| ==> t.pending[i].ms <= INT_MAX
    ensures var t := Run(s, actions);
            var d := PollDelay(t.pending, t.now);
            && 0 <= d <= INT_MAX
            && (forall i :: 0 <= i < |t.pending| ==> d == 0 || t.now + d <= t.pending[i].deadline)
            && (d == 0 <==> t.pending[0].deadline <= t.now)
            && Next(t.(now := t.now + d), Check).fired == t.fired + [Shot(t.pending[0], t.now + d)]
  {
    hide Run;
    RunKeeps(s, actions);
    var t := Run(s, actions);
    forall i | 0 < i < |t.pending| ensures t.pending[0].deadline <= t.pending[i].deadline {
      assert Before(t.pending[0], t.pending[i]);
    }
  }

  // ----- the order of firing, over a whole run

  ghost predicate InOrder(s: State) {
    && (forall i, j :: 0 <= i < j < |s.fired| ==> Before(s.fired[i].timer, s.fired[j].timer))
    && (forall i, j :: 0 <= i < |s.fired| && 0 <= j < |s.pending| ==> Before(s.fired[i].timer, s.pending[j]))
    && (forall i :: 0 <= i < |s.fired| ==> s.fired[i].timer.id < |s.posted|)
  }

  predicate NonNegative(a: Action) {
    a.Post? ==> a.ms >= 0
  }

  lemma StepKeepsOrder(s: State, a: Action)
    requires Inv(s) && InOrder(s) && NonNegative(a)
    ensures InOrder(Next(s, a))
  {
    hide Before, Position, Match, Ordered;
    match a
    case Post(ms, cb, param) => PostKeepsOrder(s, ms, cb, param);
    case Check => CheckKeepsOrder(s);
    case _ =>
  }

  lemma PostKeepsOrder(s: State, ms: int, cb: int, param: int)
    requires Inv(s) && InOrder(s) && ms >= 0
    ensures InOrder(Next(s, Post(ms, cb, param)))
  {
    hide Position;
  }

  lemma CheckKeepsOrder(s: State)
    requires Inv(s) && InOrder(s)
    ensures InOrder(Next(s, Check))
  {
    hide Before;
  }

  lemma {:induction false} RunKeepsOrder(s: State, actions: seq<Action>)
    requires Inv(s) && InOrder(s) && forall i :: 0 <= i < |actions| ==> NonNegative(actions[i])
    ensures InOrder(Run(s, actions))
    decreases |actions|
  {
    if actions != [] {
      StepKeeps(s, actions[0]);
      StepKeepsOrder(s, actions[0]);
      RunKeepsOrder(Next(s, actions[0]), actions[1..]);
    }
  }

  /** When no delay is negative, all timers of a run fire in the order of their deadlines,
      ties in posting order, however callbacks post and cancel in between. */
  lemma FiresInDeadlineOrder(s: State, actions: seq<Action>, i: nat, j: nat)
    requires Start(s) && forall k :: 0 <= k < |actions| ==> NonNegative(actions[k])
    requires i < j < |Run(s, actions).fired|
    ensures Before(Run(s, actions).fired[i].timer, Run(s, actions).fired[j].timer)
  {
    RunKeepsOrder(s, actions);
  }

  /** Every negative delay can break that order. */
  lemma NegativeDelayOvertakes(s: State, ms: int, cb: int)
    requires Start(s) && ms < 0 && cb != NONE
    ensures var t := Run(s, [Post(0, cb, 0), Check, Post(ms, cb, 0), Check]);
            |t.fired| == 2 && Before(t.fired[1].timer, t.fired[0].timer)
  {
    var a0, a1, a2 := Post(0, cb, 0), Post(ms, cb, 0), Check;
    var s1 := Next(s, a0);
    assert s1.pending == [Timer(s.now, 0, cb, 0, 0)];
    var s2 := Next(s1, Check);
    assert s2.pending == [];
    var s3 := Next(s2, a1);
    assert s3.pending == [Timer(s.now + ms, ms, cb, 0, 1)];
    var s4 := Next(s3, Check);
    calc {
      Run(s, [a0, Check, a1, Check]);
      { assert [a0, Check, a1, Check][1..] == [Check, a1, Check]; }
      Run(s1, [Check, a1, Check]);
      { assert [Check, a1, Check][1..] == [a1, Check]; }
      Run(s2, [a1, Check]);
      { assert [a1, Check][1..] == [a2]; }
      Run(s3, [a2]);
      { assert [a2][1..] == []; }
      Run(s4, []);
    }
  }

  // ----- what the run asked for, read from its actions alone

  /** The clock after these actions. */
  function Clock(now: int, actions: seq<Action>): int {
    if actions == [] then now
    else
      var last := actions[|actions| - 1];
      Clock(now, actions[..|actions| - 1]) + if last.Tick? then last.elapsed else 0
  }

  /** The timers asked for: each due its delay after the clock at its post. */
  function Asked(actions: seq<Action>, now: int): seq<Timer> {
    if actions == [] then []
    else
      var before, last := actions[..|actions| - 1], actions[|actions| - 1];
      var asked := Asked(before, now);
      if last.Post? && last.cb != NONE then
        asked + [Timer(Clock(now, before) + last.ms, last.ms, last.cb, last.param, |asked|)]
      else asked
  }

  lemma RunLast(s: State, actions: seq<Action>)
    requires actions != []
    ensures Run(s, actions) == Next(Run(s, actions[..|actions| - 1]), actions[|actions| - 1])
  {
    hide Next;
    var before, last := actions[..|actions| - 1], actions[|actions| - 1];
    assert actions == before + [last] && [last][1..] == [];
    RunAppend(s, before, [last]);
  }

  /** The timers posted in a run are those its actions asked for, and its clock is theirs. */
  lemma {:induction false} PostedIsAsked(s: State, actions: seq<Action>)
    requires Start(s)
    ensures Run(s, actions).posted == Asked(actions, s.now)
    ensures Run(s, actions).now == Clock(s.now, actions)
    decreases |actions|
  {
    hide Run, Posted, Match;
    if actions == [] {
      RunNothing(s);
    } else {
      RunLast(s, actions);
      PostedIsAsked(s, actions[..|actions| - 1]);
    }
  }

  lemma RunNothing(s: State)
    ensures Run(s, []) == s
  {}

  /** This timer was asked for by the post at position k. */
  predicate AskedAt(actions: seq<Action>, now: int, k: nat, t: Timer) {
    && k < |actions| && actions[k].Post? && actions[k].cb != NONE
    && t.cb == actions[k].cb && t.param == actions[k].param && t.ms == actions[k].ms
    && t.deadline == Clock(now, actions[..k]) + actions[k].ms
  }

  lemma {:induction false} AskedSomewhere(actions: seq<Action>, now: int, t: Timer)
    requires t in Asked(actions, now)
    ensures exists k: nat :: AskedAt(actions, now, k, t)
    decreases |actions|
  {
    var before := actions[..|actions| - 1];
    if t in Asked(before, now) {
      AskedSomewhere(before, now, t);
      var k: nat :| AskedAt(before, now, k, t);
      assert actions[..k] == before[..k];
      assert AskedAt(actions, now, k, t);
    } else {
      assert AskedAt(actions, now, |before|, t);
    }
  }

  /** This shot was fired by the check at position c, with the clock as it was then. */
  predicate FiredAt(actions: seq<Action>, now: int, c: nat, shot: Shot) {
    c < |actions| && actions[c] == Check && shot.at == Clock(now, actions[..c])
  }

  lemma {:induction false} FiredSomewhere(s: State, actions: seq<Action>, shot: Shot)
    requires Start(s) && shot in Run(s, actions).fired
    ensures exists c: nat :: FiredAt(actions, s.now, c, shot)
    decreases |actions|
  {
    hide Run, Posted, Match, Clock;
    if actions == [] {
      RunNothing(s);
    } else {
      var before := actions[..|actions| - 1];
      RunLast(s, actions);
      if shot in Run(s, before).fired {
        FiredSomewhere(s, before, shot);
        var c: nat :| FiredAt(before, s.now, c, shot);
        assert actions[..c] == before[..c];
        assert FiredAt(actions, s.now, c, shot);
      } else {
        PostedIsAsked(s, before);
        assert FiredAt(actions, s.now, |before|, shot);
      }
    }
  }

  /** Whatever fired was posted by the run, with that callback and argument, and fired at a
      check whose clock was at least the clock at the post and the delay. */
  lemma NoneFiresEarly(s: State, actions: seq<Action>, shot: Shot)
    requires Start(s) && shot in Run(s, actions).fired
    ensures exists k: nat, c: nat ::
              && AskedAt(actions, s.now, k, shot.timer) && FiredAt(actions, s.now, c, shot)
              && Clock(s.now, actions[..c]) >= Clock(s.now, actions[..k]) + actions[k].ms
  {
    hide Run, Clock;
    var t := Run(s, actions);
    StartConserved(s);
    TimersAreConserved(s, actions);
    RunKeeps(s, actions);
    PostedIsAsked(s, actions);
    FiredIsPosted(t, shot);
    AskedSomewhere(actions, s.now, shot.timer);
    FiredSomewhere(s, actions, shot);
    var k: nat :| AskedAt(actions, s.now, k, shot.timer);
    var c: nat :| FiredAt(actions, s.now, c, shot);
    assert shot.at >= shot.timer.deadline;
  }

  lemma FiredIsPosted(s: State, shot: Shot)
    requires Conserved(s) && shot in s.fired
    ensures shot.timer in s.posted
  {
    var i :| 0 <= i < |s.fired| && s.fired[i] == shot;
    assert ShotTimers(s.fired)[i] == shot.timer;
    assert shot.timer in Known(s);
  }

  /** x is the earliest of these timers with that callback and argument, and with that delay
      unless any will do. */
  ghost predicate Earliest(ts: seq<Timer>, ms: int, cb: int, param: int, x: Timer) {
    && x in ts && (ms == -1 || x.ms == ms) && x.cb == cb && x.param == param
    && forall y :: y in ts && Before(y, x) ==> !((ms == -1 || y.ms == ms) && y.cb == cb && y.param == param)
  }

  /** A cancel takes that timer out of the pending ones; without one it changes nothing. */
  lemma CancelsTheEarliest(s: State, actions: seq<Action>, ms: int, cb: int, param: int)
    requires Start(s)
    ensures var t := Run(s, actions);
            var u := Next(t, Cancel(ms, cb, param));
            || (u == t && forall x :: x in t.pending ==> !((ms == -1 || x.ms == ms) && x.cb == cb && x.param == param))
            || exists x :: Earliest(t.pending, ms, cb, param, x) && u.cancelled == t.cancelled + [x]
                           && multiset(u.pending) + multiset{x} == multiset(t.pending)
  {
    hide Run, Match;
    RunKeeps(s, actions);
    var t := Run(s, actions);
    var k := Match(t.pending, ms, cb, param);
    if k < |t.pending| {
      CutOne(t.pending, k);
      FirstIsEarliest(t.pending, ms, cb, param);
    } else {
      forall x | x in t.pending ensures !Matches(x, ms, cb, param) {
        var i :| 0 <= i < |t.pending| && t.pending[i] == x;
      }
    }
  }

  lemma FirstIsEarliest(ts: seq<Timer>, ms: int, cb: int, param: int)
    requires Ordered(ts) && Match(ts, ms, cb, param) < |ts|
    ensures Earliest(ts, ms, cb, param, ts[Match(ts, ms, cb, param)])
  {
    hide Match;
    var k := Match(ts, ms, cb, param);
    assert Matches(ts[k], ms, cb, param);
    forall y | y in ts && Before(y, ts[k]) ensures !Matches(y, ms, cb, param) {
      var i :| 0 <= i < |ts| && ts[i] == y;
      assert i <= k || Before(ts[k], ts[i]);
    }
  }
}
