/**
 The readiness monitor: Start, Refresh, the ticking goroutine and Shutdown, interleaved at every lock,
 once, publication and channel operation.
 */
module HealthMonitor {

  type ThreadId = nat

  datatype Event = SetReady(ready: bool) | Shutdown

  /** Refresh: check first, then publish under the state lock. */
  datatype Step = Checking | Waiting(healthy: bool) | Holding(healthy: bool)

  datatype Thread =
    | Refreshing(step: Step)        // a caller of Refresh
    | StartCalled                   // Start, before startOnce.Do
    | Starting(step: Step)          // inside startOnce.Do, in Refresh
    | Spawning                      // inside startOnce.Do, about to start the goroutine
    | StopCalled                    // Shutdown, before stopOnce.Do
    | StopLocking                   // inside stopOnce.Do from here on
    | StopHolding                   // the state lock is held
    | StopMarked                    // stopped is set
    | StopPublished                 // the publisher knows
    | StopCancelling                // the lock is released
    | StopOnce                      // the context is cancelled, before startOnce.Do
    | StopReceiving                 // at <-done

  datatype Runner = NotStarted | Selecting | Ticking(step: Step) | Closing | Exited

  datatype Once = Fresh | Running(t: ThreadId) | Finished

  datatype Holder = Nobody | ByThread(t: ThreadId) | ByRunner

  /** `usable`: the checker and the publisher are there. */
  datatype Monitor = Monitor(
    usable: bool,
    hasPublisher: bool,
    stopped: bool,
    cancelled: bool,
    lock: Holder,
    startOnce: Once,
    stopOnce: Once,
    runner: Runner,
    closes: nat,                    // how often close(done) ran
    threads: map<ThreadId, Thread>,
    log: seq<Event>)                // what the publisher was told

  datatype Action =
    | CallRefresh(t: ThreadId)
    | CallStart(t: ThreadId)
    | CallShutdown(t: ThreadId)
    | Move(t: ThreadId, healthy: bool)
    | Tick
    | RunnerMoves(healthy: bool)
    | SeeCancellation

  function NewMonitor(usable: bool, hasPublisher: bool): Monitor
    requires usable ==> hasPublisher
  {
    Monitor(usable, hasPublisher, false, false, Nobody, Fresh, Fresh, NotStarted, 0, map[], [])
  }

  /** Where the next statement of a Refresh can run. */
  predicate CanStep(m: Monitor, s: Step) {
    s.Waiting? ==> m.lock == Nobody
  }

  predicate CanMove(m: Monitor, t: ThreadId) {
    t in m.threads &&
    match m.threads[t]
    case Refreshing(s) => CanStep(m, s)
    case StartCalled => !m.startOnce.Running?
    case Starting(s) => CanStep(m, s)
    case Spawning => true
    case StopCalled => !m.stopOnce.Running?
    case StopLocking => m.lock == Nobody
    case StopHolding => true
    case StopMarked => true
    case StopPublished => true
    case StopCancelling => true
    case StopOnce => !m.startOnce.Running?
    case StopReceiving => m.closes > 0
  }

  predicate Enabled(m: Monitor, a: Action) {
    match a
    case CallRefresh(t) => t !in m.threads
    case CallStart(t) => t !in m.threads
    case CallShutdown(t) => t !in m.threads
    case Move(t, _) => CanMove(m, t)
    case Tick => m.runner == Selecting
    case RunnerMoves(_) => m.runner == Closing || (m.runner.Ticking? && CanStep(m, m.runner.step))
    case SeeCancellation => m.runner == Selecting && m.cancelled
  }

  /** The effect of one statement of Refresh, and its next step (None when Refresh returns). */
  datatype Refreshed = Refreshed(m: Monitor, next: Next)
  datatype Next = Return | Continue(step: Step)

  function StepIn(m: Monitor, s: Step, self: Holder, healthy: bool): Refreshed {
    match s
    case Checking => if m.usable then Refreshed(m, Continue(Waiting(healthy))) else Refreshed(m, Return)
    case Waiting(ok) => Refreshed(m.(lock := self), Continue(Holding(ok)))
    case Holding(ok) =>
      Refreshed(m.(lock := Nobody, log := if m.stopped then m.log else m.log + [SetReady(ok)]), Return)
  }

  function With(m: Monitor, t: ThreadId, th: Thread): Monitor {
    m.(threads := m.threads[t := th])
  }

  function Without(m: Monitor, t: ThreadId): Monitor {
    m.(threads := m.threads - {t})
  }

  function MoveIn(m: Monitor, t: ThreadId, healthy: bool): Monitor
    requires CanMove(m, t)
  {
    match m.threads[t]
    case Refreshing(s) =>
      var r := StepIn(m, s, ByThread(t), healthy);
      if r.next.Return? then Without(r.m, t) else With(r.m, t, Refreshing(r.next.step))
    case StartCalled =>
      if m.startOnce.Finished? then Without(m, t) else With(m.(startOnce := Running(t)), t, Starting(Checking))
    case Starting(s) =>
      var r := StepIn(m, s, ByThread(t), healthy);
      if r.next.Return? then With(r.m, t, Spawning) else With(r.m, t, Starting(r.next.step))
    case Spawning => Without(m.(runner := Selecting, startOnce := Finished), t)
    case StopCalled =>
      if m.stopOnce.Finished? then Without(m, t) else With(m.(stopOnce := Running(t)), t, StopLocking)
    case StopLocking => With(m.(lock := ByThread(t)), t, StopHolding)
    case StopHolding => With(m.(stopped := true), t, StopMarked)
    case StopMarked => With(m.(log := if m.hasPublisher then m.log + [Shutdown] else m.log), t, StopPublished)
    case StopPublished => With(m.(lock := Nobody), t, StopCancelling)
    case StopCancelling => With(m.(cancelled := true), t, StopOnce)
    case StopOnce =>
      // When Start never ran, Shutdown closes the channel itself.
      if m.startOnce.Fresh? then With(m.(startOnce := Finished, closes := m.closes + 1), t, StopReceiving)
      else With(m, t, StopReceiving)
    case StopReceiving => Without(m.(stopOnce := Finished), t)
  }

  function RunnerIn(m: Monitor, healthy: bool): Monitor
    requires m.runner == Closing || m.runner.Ticking?
  {
    match m.runner
    case Closing => m.(runner := Exited, closes := m.closes + 1)
    case Ticking(s) =>
      var r := StepIn(m, s, ByRunner, healthy);
      r.m.(runner := if r.next.Return? then Selecting else Ticking(r.next.step))
  }

  function Apply(m: Monitor, a: Action): Monitor
    requires Enabled(m, a)
  {
    match a
    case CallRefresh(t) => With(m, t, Refreshing(Checking))
    case CallStart(t) => With(m, t, StartCalled)
    case CallShutdown(t) => With(m, t, StopCalled)
    case Move(t, healthy) => MoveIn(m, t, healthy)
    case Tick => m.(runner := Ticking(Checking))
    case RunnerMoves(healthy) => RunnerIn(m, healthy)
    case SeeCancellation => m.(runner := Closing)
  }

  predicate Runs(m: Monitor, actions: seq<Action>)
    decreases |actions|
  {
    |actions| == 0 || (Enabled(m, actions[0]) && Runs(Apply(m, actions[0]), actions[1..]))
  }

  function Final(m: Monitor, actions: seq<Action>): Monitor
    requires Runs(m, actions)
    decreases |actions|
  {
    if |actions| == 0 then m else Final(Apply(m, actions[0]), actions[1..])
  }

  // ---------- The invariant ----------

  predicate HoldsLock(th: Thread) {
    match th
    case Refreshing(s) => s.Holding?
    case Starting(s) => s.Holding?
    case StopHolding => true
    case StopMarked => true
    case StopPublished => true
    case _ => false
  }

  predicate InStart(th: Thread) {
    th.Starting? || th.Spawning?
  }

  predicate InStop(th: Thread) {
    th.StopLocking? || th.StopHolding? || th.StopMarked? || th.StopPublished? || th.StopCancelling? || th.StopOnce? || th.StopReceiving?
  }

  /** The thread holds the lock, runs Start's once, or runs Shutdown's once exactly as the monitor says. */
  predicate ThreadOk(m: Monitor, t: ThreadId) {
    t in m.threads ==>
      && (HoldsLock(m.threads[t]) <==> m.lock == ByThread(t))
      && (InStart(m.threads[t]) <==> m.startOnce == Running(t))
      && (InStop(m.threads[t]) <==> m.stopOnce == Running(t))
  }

  predicate OwnersExist(m: Monitor) {
    && (m.lock.ByThread? ==> m.lock.t in m.threads)
    && (m.startOnce.Running? ==> m.startOnce.t in m.threads)
    && (m.stopOnce.Running? ==> m.stopOnce.t in m.threads)
    && (m.lock == ByRunner <==> m.runner.Ticking? && m.runner.step.Holding?)
  }

  /** How far the one effective Shutdown has come. */
  predicate StopProgress(m: Monitor) {
    match m.stopOnce
    case Fresh => !m.stopped && !m.cancelled
    case Finished => m.stopped && m.cancelled && m.closes == 1
    case Running(t) =>
      t in m.threads
      && (m.stopped <==> !m.threads[t].StopLocking? && !m.threads[t].StopHolding?)
      && (m.cancelled <==> m.threads[t].StopOnce? || m.threads[t].StopReceiving?)
      && (m.threads[t].StopReceiving? ==> m.startOnce.Finished?)
  }

  predicate Published(m: Monitor) {
    m.stopOnce.Finished? ||
    (m.stopOnce.Running? && m.stopOnce.t in m.threads
     && m.stopped && !m.threads[m.stopOnce.t].StopMarked?)
  }

  /** The channel is open exactly while somebody still has to close it. */
  predicate CloseOk(m: Monitor) {
    && m.closes <= 1
    && (m.runner.NotStarted? <==> m.startOnce != Finished || (m.closes == 1 && m.runner.NotStarted?))
    && (m.startOnce == Finished ==> (m.closes == 1 <==> m.runner.NotStarted? || m.runner.Exited?))
    && (m.startOnce != Finished ==> m.closes == 0)
    && (m.runner.Closing? || m.runner.Exited? ==> m.cancelled)
  }

  /** Readiness is published only before the shutdown, and the shutdown at most once. */
  predicate LogOk(log: seq<Event>, published: bool) {
    if published then |log| > 0 && log[|log| - 1] == Shutdown && Shutdown !in log[..|log| - 1]
    else Shutdown !in log
  }

  ghost predicate Inv(m: Monitor) {
    && (forall t :: ThreadOk(m, t))
    && OwnersExist(m) && StopProgress(m) && CloseOk(m)
    && (m.usable ==> m.hasPublisher)
    && LogOk(m.log, m.hasPublisher && Published(m))
  }

  lemma CallKeepsInv(m: Monitor, a: Action)
    requires Inv(m) && Enabled(m, a) && (a.CallRefresh? || a.CallStart? || a.CallShutdown?)
    ensures Inv(Apply(m, a))
  {
    forall t ensures ThreadOk(Apply(m, a), t) { assert ThreadOk(m, t); }
  }

  lemma ReadinessIsNotShutdown(log: seq<Event>, ready: bool)
    ensures Shutdown !in log ==> Shutdown !in log + [SetReady(ready)]
  {
  }

  lemma RefreshCheckKeepsInv(m: Monitor, t: ThreadId, healthy: bool)
    requires Inv(m) && CanMove(m, t) && (m.threads[t].Refreshing? && m.threads[t].step.Checking?)
    ensures Inv(MoveIn(m, t, healthy))
  {
    assert ThreadOk(m, t);
    forall u ensures ThreadOk(MoveIn(m, t, healthy), u) { assert ThreadOk(m, u); }
  }

  lemma RefreshLockKeepsInv(m: Monitor, t: ThreadId, healthy: bool)
    requires Inv(m) && CanMove(m, t) && (m.threads[t].Refreshing? && m.threads[t].step.Waiting?)
    ensures Inv(MoveIn(m, t, healthy))
  {
    assert ThreadOk(m, t);
    forall u ensures ThreadOk(MoveIn(m, t, healthy), u) { assert ThreadOk(m, u); }
  }

  lemma RefreshPublishKeepsInv(m: Monitor, t: ThreadId, healthy: bool)
    requires Inv(m) && CanMove(m, t) && (m.threads[t].Refreshing? && m.threads[t].step.Holding?)
    ensures Inv(MoveIn(m, t, healthy))
  {
    assert ThreadOk(m, t);
    ReadinessIsNotShutdown(m.log, m.threads[t].step.healthy);
    forall u ensures ThreadOk(MoveIn(m, t, healthy), u) { assert ThreadOk(m, u); }
  }

  lemma LateStartKeepsInv(m: Monitor, t: ThreadId)
    requires Inv(m) && t in m.threads && m.threads[t].StartCalled? && m.startOnce.Finished?
    ensures Inv(Without(m, t))
  {
    assert ThreadOk(m, t);
    forall u ensures ThreadOk(Without(m, t), u) { assert ThreadOk(m, u); }
  }

  lemma FirstStartKeepsInv(m: Monitor, t: ThreadId)
    requires Inv(m) && t in m.threads && m.threads[t].StartCalled? && m.startOnce.Fresh?
    ensures Inv(With(m.(startOnce := Running(t)), t, Starting(Checking)))
  {
    assert ThreadOk(m, t);
    forall u ensures ThreadOk(With(m.(startOnce := Running(t)), t, Starting(Checking)), u) { assert ThreadOk(m, u); }
  }

  lemma StartCalledKeepsInv(m: Monitor, t: ThreadId, healthy: bool)
    requires Inv(m) && CanMove(m, t) && m.threads[t].StartCalled?
    ensures Inv(MoveIn(m, t, healthy))
  {
    if m.startOnce.Finished? { LateStartKeepsInv(m, t); } else { FirstStartKeepsInv(m, t); }
  }

  lemma SpawningKeepsInv(m: Monitor, t: ThreadId, healthy: bool)
    requires Inv(m) && CanMove(m, t) && (m.threads[t].Spawning?)
    ensures Inv(MoveIn(m, t, healthy))
  {
    assert ThreadOk(m, t);
    forall u ensures ThreadOk(MoveIn(m, t, healthy), u) { assert ThreadOk(m, u); }
  }

  lemma StartingCheckKeepsInv(m: Monitor, t: ThreadId, healthy: bool)
    requires Inv(m) && CanMove(m, t) && (m.threads[t].Starting? && m.threads[t].step.Checking?)
    ensures Inv(MoveIn(m, t, healthy))
  {
    assert ThreadOk(m, t);
    forall u ensures ThreadOk(MoveIn(m, t, healthy), u) { assert ThreadOk(m, u); }
  }

  lemma StartingLockKeepsInv(m: Monitor, t: ThreadId, healthy: bool)
    requires Inv(m) && CanMove(m, t) && (m.threads[t].Starting? && m.threads[t].step.Waiting?)
    ensures Inv(MoveIn(m, t, healthy))
  {
    assert ThreadOk(m, t);
    forall u ensures ThreadOk(MoveIn(m, t, healthy), u) { assert ThreadOk(m, u); }
  }

  lemma StartPublishKeepsInv(m: Monitor, t: ThreadId, healthy: bool)
    requires Inv(m) && CanMove(m, t) && (m.threads[t].Starting? && m.threads[t].step.Holding?)
    ensures Inv(MoveIn(m, t, healthy))
  {
    assert ThreadOk(m, t);
    ReadinessIsNotShutdown(m.log, m.threads[t].step.healthy);
    forall u ensures ThreadOk(MoveIn(m, t, healthy), u) { assert ThreadOk(m, u); }
  }

  lemma StopBeginKeepsInv(m: Monitor, t: ThreadId, healthy: bool)
    requires Inv(m) && CanMove(m, t) && (m.threads[t].StopCalled? || m.threads[t].StopLocking? || m.threads[t].StopHolding?)
    ensures Inv(MoveIn(m, t, healthy))
  {
    assert ThreadOk(m, t);
    forall u ensures ThreadOk(MoveIn(m, t, healthy), u) { assert ThreadOk(m, u); }
  }

  lemma StopPublishKeepsInv(m: Monitor, t: ThreadId, healthy: bool)
    requires Inv(m) && CanMove(m, t) && (m.threads[t].StopMarked? || m.threads[t].StopPublished? || m.threads[t].StopCancelling?)
    ensures Inv(MoveIn(m, t, healthy))
  {
    assert ThreadOk(m, t);
    forall u ensures ThreadOk(MoveIn(m, t, healthy), u) { assert ThreadOk(m, u); }
  }

  lemma StopEndKeepsInv(m: Monitor, t: ThreadId, healthy: bool)
    requires Inv(m) && CanMove(m, t) && (m.threads[t].StopOnce? || m.threads[t].StopReceiving?)
    ensures Inv(MoveIn(m, t, healthy))
  {
    assert ThreadOk(m, t);
    forall u ensures ThreadOk(MoveIn(m, t, healthy), u) { assert ThreadOk(m, u); }
  }

  lemma MoveKeepsInv(m: Monitor, t: ThreadId, healthy: bool)
    requires Inv(m) && CanMove(m, t)
    ensures Inv(MoveIn(m, t, healthy))
  {
    match m.threads[t]
    case Refreshing(Checking) => RefreshCheckKeepsInv(m, t, healthy);
    case Refreshing(Waiting(_)) => RefreshLockKeepsInv(m, t, healthy);
    case Refreshing(Holding(_)) => RefreshPublishKeepsInv(m, t, healthy);
    case StartCalled => StartCalledKeepsInv(m, t, healthy);
    case Starting(Checking) => StartingCheckKeepsInv(m, t, healthy);
    case Starting(Waiting(_)) => StartingLockKeepsInv(m, t, healthy);
    case Starting(Holding(_)) => StartPublishKeepsInv(m, t, healthy);
    case Spawning => SpawningKeepsInv(m, t, healthy);
    case StopCalled => StopBeginKeepsInv(m, t, healthy);
    case StopLocking => StopBeginKeepsInv(m, t, healthy);
    case StopHolding => StopBeginKeepsInv(m, t, healthy);
    case StopMarked => StopPublishKeepsInv(m, t, healthy);
    case StopPublished => StopPublishKeepsInv(m, t, healthy);
    case StopCancelling => StopPublishKeepsInv(m, t, healthy);
    case StopOnce => StopEndKeepsInv(m, t, healthy);
    case StopReceiving => StopEndKeepsInv(m, t, healthy);
  }

  lemma RunnerBeginsOrEnds(m: Monitor, a: Action)
    requires Inv(m) && Enabled(m, a) && (a.Tick? || a.SeeCancellation? || (a.RunnerMoves? && m.runner == Closing))
    ensures Inv(Apply(m, a))
  {
    forall t ensures ThreadOk(Apply(m, a), t) { assert ThreadOk(m, t); }
  }

  lemma RunnerPublishes(m: Monitor, healthy: bool)
    requires Inv(m) && Enabled(m, RunnerMoves(healthy)) && m.runner.Ticking? && m.runner.step.Holding?
    ensures Inv(RunnerIn(m, healthy))
  {
    ReadinessIsNotShutdown(m.log, m.runner.step.healthy);
    forall t ensures ThreadOk(RunnerIn(m, healthy), t) { assert ThreadOk(m, t); }
  }

  lemma RunnerPrepares(m: Monitor, healthy: bool)
    requires Inv(m) && Enabled(m, RunnerMoves(healthy)) && m.runner.Ticking? && !m.runner.step.Holding?
    ensures Inv(RunnerIn(m, healthy))
  {
    forall t ensures ThreadOk(RunnerIn(m, healthy), t) { assert ThreadOk(m, t); }
  }

  lemma RunnerKeepsInv(m: Monitor, a: Action)
    requires Inv(m) && Enabled(m, a) && (a.Tick? || a.RunnerMoves? || a.SeeCancellation?)
    ensures Inv(Apply(m, a))
  {
    match a
    case RunnerMoves(healthy) =>
      if m.runner == Closing { RunnerBeginsOrEnds(m, a); }
      else if m.runner.step.Holding? { RunnerPublishes(m, healthy); } else { RunnerPrepares(m, healthy); }
    case _ => RunnerBeginsOrEnds(m, a);
  }

  lemma StepKeepsInv(m: Monitor, a: Action)
    requires Inv(m) && Enabled(m, a)
    ensures Inv(Apply(m, a))
  {
    match a
    case Move(t, healthy) => MoveKeepsInv(m, t, healthy);
    case CallRefresh(_) => CallKeepsInv(m, a);
    case CallStart(_) => CallKeepsInv(m, a);
    case CallShutdown(_) => CallKeepsInv(m, a);
    case Tick => RunnerKeepsInv(m, a);
    case RunnerMoves(_) => RunnerKeepsInv(m, a);
    case SeeCancellation => RunnerKeepsInv(m, a);
  }

  lemma {:induction false} RunKeepsInv(m: Monitor, actions: seq<Action>)
    requires Inv(m) && Runs(m, actions)
    ensures Inv(Final(m, actions))
    decreases |actions|
  {
    if |actions| > 0 {
      StepKeepsInv(m, actions[0]);
      RunKeepsInv(Apply(m, actions[0]), actions[1..]);
    }
  }

  // ---------- Irreversible shutdown ----------

  lemma NewMonitorInv(usable: bool, hasPublisher: bool)
    requires usable ==> hasPublisher
    ensures Inv(NewMonitor(usable, hasPublisher))
  {
  }

  /** In every interleaving nothing is published after the shutdown signal, no second signal either. */
  lemma NothingAfterShutdown(usable: bool, hasPublisher: bool, actions: seq<Action>)
    requires (usable ==> hasPublisher) && Runs(NewMonitor(usable, hasPublisher), actions)
    ensures var log := Final(NewMonitor(usable, hasPublisher), actions).log;
      forall i :: 0 <= i < |log| - 1 ==> log[i] != Shutdown
  {
    NewMonitorInv(usable, hasPublisher);
    RunKeepsInv(NewMonitor(usable, hasPublisher), actions);
    var log := Final(NewMonitor(usable, hasPublisher), actions).log;
    forall i | 0 <= i < |log| - 1 ensures log[i] != Shutdown {
      assert log[i] == log[..|log| - 1][i];
    }
  }

  /** The channel is never closed twice; once a Shutdown has returned it is closed and the publisher knows. */
  lemma DoneIsClosedOnce(usable: bool, hasPublisher: bool, actions: seq<Action>)
    requires (usable ==> hasPublisher) && Runs(NewMonitor(usable, hasPublisher), actions)
    ensures var m := Final(NewMonitor(usable, hasPublisher), actions);
      && m.closes <= 1
      && (m.stopOnce.Finished? ==> m.closes == 1 && m.stopped && m.cancelled)
      && (m.stopOnce.Finished? && m.hasPublisher ==> Shutdown in m.log)
  {
    NewMonitorInv(usable, hasPublisher);
    RunKeepsInv(NewMonitor(usable, hasPublisher), actions);
  }

  // ---------- Shutdown can always return ----------

  function StopRank(th: Thread): nat {
    match th
    case StopLocking => 7
    case StopHolding => 6
    case StopMarked => 5
    case StopPublished => 4
    case StopCancelling => 3
    case StopOnce => 2
    case StopReceiving => 1
    case _ => 0
  }

  function StepRank(s: Step): nat {
    match s
    case Checking => 2
    case Waiting(_) => 1
    case Holding(_) => 0
  }

  function StartRank(m: Monitor): nat {
    if m.startOnce.Running? && m.startOnce.t in m.threads then
      match m.threads[m.startOnce.t]
      case Starting(s) => 2 + StepRank(s)
      case _ => 1
    else 0
  }

  function RunnerRank(m: Monitor): nat {
    match m.runner
    case Ticking(s) => 2 + StepRank(s)
    case Selecting => 1
    case _ => 0
  }

  function LockRank(m: Monitor): nat {
    if m.lock == Nobody then 0 else 1
  }

  /** The step that gives the lock back. */
  function Unlocking(m: Monitor): Action
    requires m.lock != Nobody
  {
    if m.lock.ByRunner? then RunnerMoves(true) else Move(m.lock.t, true)
  }

  /** The step of the goroutine towards closing the channel. */
  function RunnerNext(m: Monitor): Action {
    if m.runner == Selecting then SeeCancellation
    else if m.runner.Ticking? && m.runner.step.Waiting? && m.lock != Nobody then Unlocking(m)
    else RunnerMoves(true)
  }

  /** Whose turn it is so that the Shutdown of thread t comes closer to its return. */
  function NextFor(m: Monitor, t: ThreadId): Action
    requires t in m.threads
  {
    match m.threads[t]
    case StopLocking => if m.lock == Nobody then Move(t, true) else Unlocking(m)
    case StopOnce =>
      if !m.startOnce.Running? then Move(t, true)
      else if CanMove(m, m.startOnce.t) || m.lock == Nobody then Move(m.startOnce.t, true)
      else Unlocking(m)
    case StopReceiving => if m.closes > 0 then Move(t, true) else RunnerNext(m)
    case _ => Move(t, true)
  }

  predicate Closer(m: Monitor, m': Monitor, t: ThreadId)
    requires t in m.threads && t in m'.threads
  {
    var (a, b) := (StopRank(m.threads[t]), StopRank(m'.threads[t]));
    b < a ||
    (b == a && (StartRank(m') < StartRank(m) ||
                (StartRank(m') == StartRank(m) && (RunnerRank(m') < RunnerRank(m) ||
                                                   (RunnerRank(m') == RunnerRank(m) && LockRank(m') < LockRank(m))))))
  }

  /** Callers of Shutdown that have not entered stay where they are. */
  predicate KeepsWaiting(m: Monitor, m': Monitor, v: ThreadId) {
    v in m.threads && m.threads[v].StopCalled? ==> v in m'.threads && m'.threads[v] == m.threads[v]
  }

  /** Not a new call and not a tick of the timer. */
  predicate OnTheWay(a: Action) {
    a.Move? || a.RunnerMoves? || a.SeeCancellation?
  }

  /** The unlocking step is enabled, and it takes nobody's turn away. */
  lemma UnlockingCloser(m: Monitor, t: ThreadId)
    requires Inv(m) && m.lock != Nobody && t in m.threads && !HoldsLock(m.threads[t]) && InStop(m.threads[t])
    ensures Enabled(m, Unlocking(m)) && OnTheWay(Unlocking(m))
    ensures var m' := Apply(m, Unlocking(m));
      t in m'.threads && m'.threads[t] == m.threads[t] && Closer(m, m', t) && forall v :: KeepsWaiting(m, m', v)
  {
    assert ThreadOk(m, t);
    if m.lock.ByThread? { assert ThreadOk(m, m.lock.t); }
  }

  /** A Shutdown that holds the state lock, or needs nothing, goes on by itself. */
  lemma OwnStepCloser(m: Monitor, t: ThreadId)
    requires Inv(m) && t in m.threads && InStop(m.threads[t]) && !m.threads[t].StopReceiving? && CanMove(m, t)
    ensures var m' := MoveIn(m, t, true);
      t in m'.threads && InStop(m'.threads[t]) && Closer(m, m', t) && forall v :: KeepsWaiting(m, m', v)
  {
    assert ThreadOk(m, t);
  }

  /** While Start runs its once, its caller gets on, or the holder of the lock does. */
  lemma StartCloser(m: Monitor, t: ThreadId)
    requires Inv(m) && t in m.threads && m.threads[t].StopOnce? && m.startOnce.Running?
    ensures var a := NextFor(m, t);
      && Enabled(m, a) && OnTheWay(a)
      && t in Apply(m, a).threads && Apply(m, a).threads[t] == m.threads[t]
      && Closer(m, Apply(m, a), t) && forall v :: KeepsWaiting(m, Apply(m, a), v)
  {
    var s := m.startOnce.t;
    assert ThreadOk(m, t) && ThreadOk(m, s);
    assert InStart(m.threads[s]);
    if !CanMove(m, s) && m.lock != Nobody { UnlockingCloser(m, t); }
  }

  /** While the channel is open the goroutine lives, knows it is cancelled, and gets on. */
  lemma RunnerCloser(m: Monitor, t: ThreadId)
    requires Inv(m) && t in m.threads && m.threads[t].StopReceiving? && m.closes == 0
    ensures var a := RunnerNext(m);
      && Enabled(m, a) && OnTheWay(a)
      && t in Apply(m, a).threads && Apply(m, a).threads[t] == m.threads[t]
      && (Closer(m, Apply(m, a), t) || Apply(m, a).closes == 1) && forall v :: KeepsWaiting(m, Apply(m, a), v)
  {
    assert ThreadOk(m, t);
    assert StopProgress(m) && m.stopOnce == Running(t);
    if m.runner.Ticking? && m.runner.step.Waiting? && m.lock != Nobody { UnlockingCloser(m, t); }
  }

  lemma {:induction false} RunsThen(m: Monitor, a: Action, rest: seq<Action>)
    requires Enabled(m, a) && Runs(Apply(m, a), rest)
    ensures Runs(m, [a] + rest) && Final(m, [a] + rest) == Final(Apply(m, a), rest)
  {
    assert ([a] + rest)[1..] == rest;
  }

  /** One step on the way of an effective Shutdown: it returns, or it comes closer to its return. */
  lemma OneStepCloser(m: Monitor, t: ThreadId)
    requires Inv(m) && t in m.threads && InStop(m.threads[t]) && !(m.threads[t].StopReceiving? && m.closes > 0)
    ensures var a := NextFor(m, t);
      && Enabled(m, a) && OnTheWay(a)
      && t in Apply(m, a).threads && InStop(Apply(m, a).threads[t])
      && (Closer(m, Apply(m, a), t) || ReadyToReturn(Apply(m, a), t))
      && forall v :: KeepsWaiting(m, Apply(m, a), v)
  {
    match m.threads[t]
    case StopLocking => if m.lock == Nobody { OwnStepCloser(m, t); } else { UnlockingCloser(m, t); }
    case StopOnce => if m.startOnce.Running? { StartCloser(m, t); } else { OwnStepCloser(m, t); }
    case StopReceiving => RunnerCloser(m, t);
    case _ => OwnStepCloser(m, t);
  }

  predicate ReadyToReturn(m: Monitor, t: ThreadId) {
    t in m.threads && m.threads[t].StopReceiving? && m.closes == 1
  }

  /**
   From every reachable state there is a way, without new calls and without waiting for a timer, on which
   the Shutdown of thread t returns.
   */
  lemma {:induction false} EffectiveShutdownCanReturn(m: Monitor, t: ThreadId) returns (way: seq<Action>)
    requires Inv(m) && t in m.threads && InStop(m.threads[t])
    ensures Runs(m, way) && t !in Final(m, way).threads && Final(m, way).stopOnce.Finished?
    ensures forall i :: 0 <= i < |way| ==> OnTheWay(way[i])
    ensures Inv(Final(m, way)) && forall v :: KeepsWaiting(m, Final(m, way), v)
    decreases StopRank(m.threads[t]), if ReadyToReturn(m, t) then 0 else 1, StartRank(m), RunnerRank(m), LockRank(m)
  {
    assert ThreadOk(m, t);
    if m.threads[t].StopReceiving? && m.closes > 0 {
      StepKeepsInv(m, Move(t, true));
      way := [Move(t, true)];
      RunsThen(m, Move(t, true), []);
    } else {
      var a := NextFor(m, t);
      OneStepCloser(m, t);
      StepKeepsInv(m, a);
      var m1 := Apply(m, a);
      var rest := EffectiveShutdownCanReturn(m1, t);
      RunsThen(m, a, rest);
      way := [a] + rest;
      forall v ensures KeepsWaiting(m, Final(m, way), v) { assert KeepsWaiting(m, m1, v) && KeepsWaiting(m1, Final(m1, rest), v); }
    }
  }

  /** No caller of Shutdown, the effective one or one that waits for it, is ever stuck. */
  lemma ShutdownCanReturn(m: Monitor, t: ThreadId) returns (way: seq<Action>)
    requires Inv(m) && t in m.threads && (m.threads[t].StopCalled? || InStop(m.threads[t]))
    ensures Runs(m, way) && t !in Final(m, way).threads
    ensures forall i :: 0 <= i < |way| ==> OnTheWay(way[i])
  {
    assert ThreadOk(m, t);
    if InStop(m.threads[t]) {
      way := EffectiveShutdownCanReturn(m, t);
    } else if m.stopOnce.Finished? {
      way := [Move(t, true)];
      RunsThen(m, Move(t, true), []);
    } else if m.stopOnce.Running? {
      assert ThreadOk(m, m.stopOnce.t);
      var first := EffectiveShutdownCanReturn(m, m.stopOnce.t);
      assert KeepsWaiting(m, Final(m, first), t);
      RunsAppend(m, first, Move(t, true));
      way := first + [Move(t, true)];
    } else {
      StepKeepsInv(m, Move(t, true));
      var rest := EffectiveShutdownCanReturn(Apply(m, Move(t, true)), t);
      RunsThen(m, Move(t, true), rest);
      way := [Move(t, true)] + rest;
    }
  }

  lemma {:induction false} RunsAppend(m: Monitor, actions: seq<Action>, a: Action)
    requires Runs(m, actions) && Enabled(Final(m, actions), a)
    ensures Runs(m, actions + [a]) && Final(m, actions + [a]) == Apply(Final(m, actions), a)
    decreases |actions|
  {
    if |actions| == 0 {
      assert actions + [a] == [a] && [a][1..] == [];
    } else {
      RunsAppend(Apply(m, actions[0]), actions[1..], a);
      assert (actions + [a])[1..] == actions[1..] + [a];
    }
  }

}
