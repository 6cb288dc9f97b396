/**
 Refresh and Shutdown of the monitor as their callers see them. Before each statement any other calls,
 ticks and publications may happen; a statement that has to wait lets the others run until it can go on.
 */
module HealthMonitorMethods {
  import opened HealthMonitor

  predicate By(a: Action, t: ThreadId) {
    (a.CallRefresh? || a.CallStart? || a.CallShutdown? || a.Move?) && a.t == t
  }

  predicate ByOthers(t: ThreadId, actions: seq<Action>) {
    forall i :: 0 <= i < |actions| ==> !By(actions[i], t)
  }

  /** What was published stays published, and a stopped monitor stays stopped. */
  predicate Later(m: Monitor, m': Monitor) {
    m.log <= m'.log && (m.stopped ==> m'.stopped) && m'.usable == m.usable && m'.hasPublisher == m.hasPublisher
  }

  predicate SameThread(m: Monitor, m': Monitor, t: ThreadId) {
    (t in m'.threads <==> t in m.threads) && (t in m.threads ==> m'.threads[t] == m.threads[t])
  }

  lemma StepInIsLater(m: Monitor, s: Step, self: Holder, healthy: bool)
    ensures Later(m, StepIn(m, s, self, healthy).m)
  {
    if s.Holding? { assert m.log <= m.log + [SetReady(s.healthy)]; }
  }

  lemma RefreshIsLater(m: Monitor, t: ThreadId, healthy: bool)
    requires CanMove(m, t) && (m.threads[t].Refreshing? || m.threads[t].Starting?)
    ensures Later(m, MoveIn(m, t, healthy))
  {
    StepInIsLater(m, m.threads[t].step, ByThread(t), healthy);
  }

  lemma OtherMoveIsLater(m: Monitor, t: ThreadId, healthy: bool)
    requires CanMove(m, t) && !(m.threads[t].Refreshing? || m.threads[t].Starting?)
    ensures Later(m, MoveIn(m, t, healthy))
  {
    assert forall e :: m.log <= m.log + [e];
  }

  lemma MoveIsLater(m: Monitor, t: ThreadId, healthy: bool)
    requires CanMove(m, t)
    ensures Later(m, MoveIn(m, t, healthy))
  {
    if m.threads[t].Refreshing? || m.threads[t].Starting? { RefreshIsLater(m, t, healthy); }
    else { OtherMoveIsLater(m, t, healthy); }
  }

  lemma RefreshIsOnlyItsOwn(m: Monitor, t: ThreadId, healthy: bool, u: ThreadId)
    requires CanMove(m, t) && u != t && (m.threads[t].Refreshing? || m.threads[t].Starting?)
    ensures SameThread(m, MoveIn(m, t, healthy), u)
  {
    assert StepIn(m, m.threads[t].step, ByThread(t), healthy).m.threads == m.threads;
  }

  lemma MoveIsOnlyItsOwn(m: Monitor, t: ThreadId, healthy: bool, u: ThreadId)
    requires CanMove(m, t) && u != t
    ensures SameThread(m, MoveIn(m, t, healthy), u)
  {
    match m.threads[t]
    case Refreshing(_) => RefreshIsOnlyItsOwn(m, t, healthy, u);
    case Starting(_) => RefreshIsOnlyItsOwn(m, t, healthy, u);
    case _ =>
  }

  lemma StepIsLater(m: Monitor, a: Action, t: ThreadId)
    requires Enabled(m, a)
    ensures Later(m, Apply(m, a))
    ensures !By(a, t) ==> SameThread(m, Apply(m, a), t)
  {
    match a
    case Move(u, healthy) =>
      MoveIsLater(m, u, healthy);
      if u != t { MoveIsOnlyItsOwn(m, u, healthy, t); }
    case _ =>
  }

  lemma {:induction false} OthersKeep(m: Monitor, t: ThreadId, actions: seq<Action>)
    requires Inv(m) && Runs(m, actions) && ByOthers(t, actions)
    ensures Inv(Final(m, actions)) && Later(m, Final(m, actions)) && SameThread(m, Final(m, actions), t)
    decreases |actions|
  {
    if |actions| > 0 {
      StepKeepsInv(m, actions[0]);
      StepIsLater(m, actions[0], t);
      OthersKeep(Apply(m, actions[0]), t, actions[1..]);
    }
  }

  datatype Answer = Published | ShuttingDown | NotConfigured

  class MonitorProcess {
    var m: Monitor

    constructor(usable: bool, hasPublisher: bool)
      requires usable ==> hasPublisher
      ensures Inv(m) && m == NewMonitor(usable, hasPublisher)
    {
      m := NewMonitor(usable, hasPublisher);
      NewMonitorInv(usable, hasPublisher);
    }

    method Interleave(t: ThreadId)
      requires Inv(m)
      modifies this
      ensures Inv(m) && Later(old(m), m) && SameThread(old(m), m, t)
    {
      assert Runs(m, []) && ByOthers(t, []);
      var actions: seq<Action> :| Runs(m, actions) && ByOthers(t, actions);
      OthersKeep(m, t, actions);
      m := Final(m, actions);
    }

    method Do(a: Action)
      requires Inv(m) && Enabled(m, a)
      modifies this
      ensures m == Apply(old(m), a) && Inv(m) && Later(old(m), m)
    {
      StepKeepsInv(m, a);
      StepIsLater(m, a, 0);
      m := Apply(m, a);
    }

    /** stateMu.Lock: whoever holds the lock gives it back in finitely many statements. */
    method AwaitLock(t: ThreadId)
      requires Inv(m) && t in m.threads && !HoldsLock(m.threads[t])
      modifies this
      ensures Inv(m) && Later(old(m), m) && SameThread(old(m), m, t) && m.lock == Nobody
    {
      Interleave(t);
      while m.lock != Nobody
        invariant Inv(m) && Later(old(m), m) && SameThread(old(m), m, t)
        decreases LockDistance(m)
      {
        LockDistanceFalls(m, t);
        StepIsLater(m, Unlocking(m), t);
        Do(Unlocking(m));
      }
    }

    /** Refresh: publishes what it found, or finds the monitor stopped and publishes nothing. */
    method Refresh(t: ThreadId, healthy: bool) returns (answer: Answer)
      requires Inv(m) && t !in m.threads
      modifies this
      ensures Inv(m) && Later(old(m), m) && t !in m.threads
      ensures answer.Published? ==> !m.stopped && |m.log| > 0 && m.log[|m.log| - 1] == SetReady(healthy)
      ensures answer.ShuttingDown? ==> m.stopped
      ensures answer.NotConfigured? <==> !m.usable
      ensures old(m.stopped) && m.usable ==> answer.ShuttingDown?
    {
      Do(CallRefresh(t));
      Interleave(t);
      Do(Move(t, healthy));
      if !m.usable { return NotConfigured; }
      answer := Publish(t, healthy);
    }

    /** The part of Refresh under the state lock. */
    method Publish(t: ThreadId, healthy: bool) returns (answer: Answer)
      requires Inv(m) && t in m.threads && m.threads[t] == Refreshing(Waiting(healthy))
      modifies this
      ensures Inv(m) && Later(old(m), m) && t !in m.threads && !answer.NotConfigured?
      ensures answer.Published? ==> !m.stopped && |m.log| > 0 && m.log[|m.log| - 1] == SetReady(healthy)
      ensures answer.ShuttingDown? <==> m.stopped
    {
      TakeLock(t, healthy);
      answer := if m.stopped then ShuttingDown else Published;
      Do(Move(t, healthy));
    }

    method TakeLock(t: ThreadId, healthy: bool)
      requires Inv(m) && t in m.threads && m.threads[t] == Refreshing(Waiting(healthy))
      modifies this
      ensures Inv(m) && Later(old(m), m) && t in m.threads && m.threads[t] == Refreshing(Holding(healthy))
    {
      AwaitLock(t);
      Do(Move(t, healthy));
      Interleave(t);
    }

    /** The next statement of an effective Shutdown, once its lock, once or channel lets it. */
    method TakeTurn(t: ThreadId)
      requires Inv(m) && t in m.threads && InStop(m.threads[t])
      modifies this
      ensures Inv(m) && Later(old(m), m)
      ensures t in m.threads ==> InStop(m.threads[t]) && StopRank(m.threads[t]) < StopRank(old(m).threads[t])
      ensures t !in m.threads ==> m.stopOnce.Finished?
    {
      Interleave(t);
      while !CanMove(m, t)
        invariant Inv(m) && Later(old(m), m) && SameThread(old(m), m, t)
        decreases if CanMove(m, t) then 0 else 1, StartRank(m), RunnerRank(m), LockRank(m)
      {
        OneStepCloser(m, t);
        StepIsLater(m, NextFor(m, t), t);
        WaitsForOthers(m, t);
        Do(NextFor(m, t));
      }
      assert ThreadOk(m, t);
      if m.threads[t].StopReceiving? { Do(Move(t, true)); } else { OwnStepCloser(m, t); OwnStepFalls(m, t); Do(Move(t, true)); }
    }

    /** Shutdown returns, and by then the channel is closed and the publisher has been told. */
    method ShutDown(t: ThreadId)
      requires Inv(m) && t !in m.threads
      modifies this
      ensures Inv(m) && Later(old(m), m) && t !in m.threads
      ensures m.stopOnce.Finished? && m.stopped && m.closes == 1
      ensures m.hasPublisher ==> Shutdown in m.log
    {
      Do(CallShutdown(t));
      Interleave(t);
      if m.stopOnce.Running? { AwaitOtherShutdown(t); }
      Do(Move(t, true));
      while t in m.threads
        invariant Inv(m) && Later(old(m), m)
        invariant if t in m.threads then InStop(m.threads[t]) else m.stopOnce.Finished?
        decreases if t in m.threads then 1 + StopRank(m.threads[t]) else 0
      {
        TakeTurn(t);
      }
    }

    /** stopOnce.Do of a second caller waits for the first. */
    method AwaitOtherShutdown(t: ThreadId)
      requires Inv(m) && t in m.threads && m.threads[t].StopCalled? && m.stopOnce.Running?
      modifies this
      ensures Inv(m) && Later(old(m), m) && SameThread(old(m), m, t) && m.stopOnce.Finished?
    {
      assert ThreadOk(m, m.stopOnce.t);
      ghost var way := EffectiveShutdownCanReturn(m, m.stopOnce.t);
      assert KeepsWaiting(m, Final(m, way), t);
      RunIsLater(m, way);
      assert SameThread(m, Final(m, way), t);
      var actions: seq<Action> :|
        Runs(m, actions) && Final(m, actions).stopOnce.Finished? && SameThread(m, Final(m, actions), t);
      RunIsLater(m, actions);
      RunKeepsInv(m, actions);
      m := Final(m, actions);
    }
  }

  lemma {:induction false} RunIsLater(m: Monitor, actions: seq<Action>)
    requires Runs(m, actions)
    ensures Later(m, Final(m, actions))
    decreases |actions|
  {
    if |actions| > 0 {
      StepIsLater(m, actions[0], 0);
      RunIsLater(Apply(m, actions[0]), actions[1..]);
    }
  }

  function LockDistance(m: Monitor): nat {
    match m.lock
    case Nobody => 0
    case ByRunner => 1
    case ByThread(u) =>
      if u in m.threads && m.threads[u].StopHolding? then 3 else if u in m.threads && m.threads[u].StopMarked? then 2 else 1
  }

  lemma LockDistanceFalls(m: Monitor, t: ThreadId)
    requires Inv(m) && m.lock != Nobody && t in m.threads && !HoldsLock(m.threads[t])
    ensures Enabled(m, Unlocking(m)) && !By(Unlocking(m), t)
    ensures LockDistance(Apply(m, Unlocking(m))) < LockDistance(m)
  {
    assert ThreadOk(m, t);
    if m.lock.ByThread? { assert ThreadOk(m, m.lock.t); }
  }

  lemma WaitsForOthers(m: Monitor, t: ThreadId)
    requires Inv(m) && t in m.threads && InStop(m.threads[t]) && !CanMove(m, t)
    ensures !By(NextFor(m, t), t)
  {
    assert ThreadOk(m, t);
    if m.lock.ByThread? { assert ThreadOk(m, m.lock.t); }
  }

  lemma OwnStepFalls(m: Monitor, t: ThreadId)
    requires CanMove(m, t) && InStop(m.threads[t]) && !m.threads[t].StopReceiving?
    ensures var m' := MoveIn(m, t, true); t in m'.threads && StopRank(m'.threads[t]) < StopRank(m.threads[t])
  {
  }

}
