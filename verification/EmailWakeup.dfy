/**
 Producers and the worker of the email queue, interleaved: one step is one lock, unlock, push, pop,
 send, or channel operation. No interleaving leaves a message behind with nobody to look for it.
 */
module EmailWakeup {
  import opened EmailHeap
  import opened EmailQueue

  type ProducerId = nat
  type Queue = multiset<PriorityMessage>

  datatype Producer =
    | Entering(pm: PriorityMessage)   // wants the lock
    | Inside(pm: PriorityMessage)     // holds the lock
    | Pushed                          // holds the lock, has not notified yet
    | Leaving                         // holds the lock, about to release it

  datatype Worker =
    | Idle                            // not started, or at the select of process
    | Stopped
    | Coalescing
    | Draining                        // wants the lock to take the next message
    | Taking                          // holds the lock
    | Sending(pm: PriorityMessage)
    | Asking                          // wants the lock to ask whether there is more
    | Asked(more: bool)               // holds the lock

  datatype Holder = Nobody | ByProducer(p: ProducerId) | ByWorker

  datatype World = World(
    size: int,
    queue: Queue,
    token: bool,
    lock: Holder,
    producers: map<ProducerId, Producer>,
    worker: Worker,
    accepted: Queue,
    finished: Queue)

  datatype Action =
    | Call(p: ProducerId, pm: PriorityMessage)
    | LockBy(p: ProducerId)
    | Push(p: ProducerId)
    | Refuse(p: ProducerId)
    | Notify(p: ProducerId)
    | Return(p: ProducerId)
    | Receive
    | Stop
    | DropToken
    | Coalesced
    | LockToTake
    | Take(pm: PriorityMessage)
    | FindEmpty
    | Sent
    | LockToAsk
    | Answer

  function Start(size: int): World {
    World(size, multiset{}, false, Nobody, map[], Idle, multiset{}, multiset{})
  }

  predicate Is(w: World, p: ProducerId, phase: Producer) {
    p in w.producers && w.producers[p] == phase
  }

  predicate Enabled(w: World, a: Action) {
    match a
    case Call(p, pm) => p !in w.producers
    case LockBy(p) => p in w.producers && w.producers[p].Entering? && w.lock == Nobody
    case Push(p) => p in w.producers && w.producers[p].Inside? && |w.queue| < Capacity(w.size)
    case Refuse(p) => p in w.producers && w.producers[p].Inside? && |w.queue| >= Capacity(w.size)
    case Notify(p) => Is(w, p, Pushed)
    case Return(p) => Is(w, p, Leaving)
    case Receive => w.worker == Idle && w.token
    case Stop => w.worker == Idle
    case DropToken => w.worker == Coalescing && w.token
    case Coalesced => w.worker == Coalescing && !w.token
    case LockToTake => w.worker == Draining && w.lock == Nobody
    case Take(pm) => w.worker == Taking && IsFirst(pm, w.queue)
    case FindEmpty => w.worker == Taking && |w.queue| == 0
    case Sent => w.worker.Sending?
    case LockToAsk => w.worker == Asking && w.lock == Nobody
    case Answer => w.worker.Asked?
  }

  function Apply(w: World, a: Action): World
    requires Enabled(w, a)
  {
    match a
    case Call(p, pm) => w.(producers := w.producers[p := Entering(pm)])
    case LockBy(p) => w.(producers := w.producers[p := Inside(w.producers[p].pm)], lock := ByProducer(p))
    case Push(p) =>
      var pm := w.producers[p].pm;
      w.(queue := w.queue + multiset{pm}, accepted := w.accepted + multiset{pm},
         producers := w.producers[p := Pushed])
    case Refuse(p) => w.(producers := w.producers[p := Leaving])
    // A full channel keeps its token; the send falls through to default.
    case Notify(p) => w.(token := true, producers := w.producers[p := Leaving])
    case Return(p) => w.(lock := Nobody, producers := w.producers - {p})
    case Receive => w.(token := false, worker := Coalescing)
    case Stop => w.(worker := Stopped)
    case DropToken => w.(token := false)
    case Coalesced => w.(worker := Draining)
    case LockToTake => w.(lock := ByWorker, worker := Taking)
    case Take(pm) => w.(queue := w.queue - multiset{pm}, lock := Nobody, worker := Sending(pm))
    case FindEmpty => w.(lock := Nobody, worker := Idle)
    case Sent => w.(finished := w.finished + multiset{w.worker.pm}, worker := Asking)
    case LockToAsk => w.(lock := ByWorker, worker := Asked(|w.queue| > 0))
    case Answer => w.(lock := Nobody, worker := if w.worker.more then Draining else Idle)
  }

  predicate Runs(w: World, actions: seq<Action>)
    decreases |actions|
  {
    |actions| == 0 || (Enabled(w, actions[0]) && Runs(Apply(w, actions[0]), actions[1..]))
  }

  function Final(w: World, actions: seq<Action>): World
    requires Runs(w, actions)
    decreases |actions|
  {
    if |actions| == 0 then w else Final(Apply(w, actions[0]), actions[1..])
  }

  // ---------- The invariant ----------

  predicate Holding(producer: Producer) {
    !producer.Entering?
  }

  predicate WorkerHolds(worker: Worker) {
    worker == Taking || worker.Asked?
  }

  /** The worker will test the queue again before it waits. */
  predicate WillLook(worker: Worker) {
    worker == Coalescing || worker == Draining || worker == Taking || worker.Sending? || worker == Asking || worker == Asked(true)
  }

  function InFlight(worker: Worker): Queue {
    if worker.Sending? then multiset{worker.pm} else multiset{}
  }

  predicate ProducerOk(w: World, p: ProducerId) {
    p in w.producers ==> (Holding(w.producers[p]) <==> w.lock == ByProducer(p))
  }

  /** A message in the queue has a token in the channel, a worker that will look, or a producer about to notify. */
  predicate Awake(w: World) {
    |w.queue| > 0 ==>
      || w.token || WillLook(w.worker)
      || (w.lock.ByProducer? && Is(w, w.lock.p, Pushed))
  }

  ghost predicate Inv(w: World) {
    && (forall p :: ProducerOk(w, p))
    && (w.lock.ByProducer? ==> w.lock.p in w.producers)
    && (WorkerHolds(w.worker) <==> w.lock == ByWorker)
    && (w.worker.Asked? ==> (w.worker.more <==> |w.queue| > 0))
    && w.accepted == w.queue + InFlight(w.worker) + w.finished
    && |w.queue| <= Capacity(w.size)
    && Awake(w)
  }

  lemma ProducerStep(w: World, a: Action)
    requires Inv(w) && Enabled(w, a) && (a.Call? || a.LockBy? || a.Push? || a.Refuse? || a.Notify? || a.Return?)
    ensures Inv(Apply(w, a))
  {
    var w' := Apply(w, a);
    assert ProducerOk(w, a.p);
    forall p ensures ProducerOk(w', p) { assert ProducerOk(w, p); }
  }

  lemma TakeStep(w: World, pm: PriorityMessage)
    requires Inv(w) && Enabled(w, Take(pm))
    ensures Inv(Apply(w, Take(pm)))
  {
    var rest := w.queue - multiset{pm};
    assert w.queue == rest + multiset{pm};
    forall p ensures ProducerOk(Apply(w, Take(pm)), p) { assert ProducerOk(w, p); }
  }

  lemma SentStep(w: World)
    requires Inv(w) && Enabled(w, Sent)
    ensures Inv(Apply(w, Sent))
  {
    forall p ensures ProducerOk(Apply(w, Sent), p) { assert ProducerOk(w, p); }
  }

  /** The steps of the worker at the channel. */
  predicate AtChannel(a: Action) {
    a.Receive? || a.Stop? || a.DropToken? || a.Coalesced?
  }

  lemma ChannelStep(w: World, a: Action)
    requires Inv(w) && Enabled(w, a) && AtChannel(a)
    ensures Inv(Apply(w, a))
  {
    var w' := Apply(w, a);
    forall p ensures ProducerOk(w', p) { assert ProducerOk(w, p); }
  }

  lemma AcquireStep(w: World, a: Action)
    requires Inv(w) && Enabled(w, a) && (a.LockToTake? || a.LockToAsk?)
    ensures Inv(Apply(w, a))
  {
    forall p ensures ProducerOk(Apply(w, a), p) { assert ProducerOk(w, p); }
  }

  lemma ReleaseStep(w: World, a: Action)
    requires Inv(w) && Enabled(w, a) && (a.FindEmpty? || a.Answer?)
    ensures Inv(Apply(w, a))
  {
    forall p ensures ProducerOk(Apply(w, a), p) { assert ProducerOk(w, p); }
  }

  lemma StepKeepsInv(w: World, a: Action)
    requires Inv(w) && Enabled(w, a)
    ensures Inv(Apply(w, a)) && Apply(w, a).size == w.size
  {
    match a
    case Take(pm) => TakeStep(w, pm);
    case Sent => SentStep(w);
    case _ => if AtChannel(a) { ChannelStep(w, a); } else if a.LockToTake? || a.LockToAsk? { AcquireStep(w, a); }
              else if a.FindEmpty? || a.Answer? { ReleaseStep(w, a); } else { ProducerStep(w, a); }
  }

  lemma {:induction false} RunKeepsInv(w: World, actions: seq<Action>)
    requires Inv(w) && Runs(w, actions)
    ensures Inv(Final(w, actions)) && Final(w, actions).size == w.size
    decreases |actions|
  {
    if |actions| > 0 {
      StepKeepsInv(w, actions[0]);
      RunKeepsInv(Apply(w, actions[0]), actions[1..]);
    }
  }

  // ---------- Theorems ----------

  lemma StartInv(size: int)
    ensures Inv(Start(size))
  {
  }

  /** In every interleaving a non-empty queue is known to somebody who acts on it. */
  lemma NoLostWakeup(size: int, actions: seq<Action>)
    requires Runs(Start(size), actions)
    ensures Awake(Final(Start(size), actions))
  {
    StartInv(size);
    RunKeepsInv(Start(size), actions);
  }

  /** Nothing is lost or invented, and the queue never outgrows its capacity. */
  lemma EveryAcceptedMessageIsSomewhere(size: int, actions: seq<Action>)
    requires Runs(Start(size), actions)
    ensures var w := Final(Start(size), actions);
      w.accepted == w.queue + InFlight(w.worker) + w.finished && |w.queue| <= Capacity(size)
  {
    StartInv(size);
    RunKeepsInv(Start(size), actions);
  }

  /** Once no producer holds the lock, a worker at the select can always take the message that is waiting for it. */
  lemma WaitingWorkerIsWoken(w: World)
    requires Inv(w) && w.worker == Idle && |w.queue| > 0 && w.lock == Nobody
    ensures Enabled(w, Receive)
  {
  }

  /** A step of somebody who is already on the way: not a new call, a stop, or a producer that waits. */
  predicate GoesOn(a: Action) {
    !a.Call? && !a.Stop? && !a.LockBy?
  }

  /** A non-empty queue has a message nothing is before. */
  lemma {:induction false} SomeFirst(queue: Queue) returns (pm: PriorityMessage)
    requires |queue| > 0
    ensures IsFirst(pm, queue)
    decreases |queue|
  {
    var x :| x in queue;
    var rest := queue - multiset{x};
    if |rest| == 0 {
      pm := x;
      forall m | m in queue ensures !Before(m, pm) { assert m == x || m in rest; }
    } else {
      var best := SomeFirst(rest);
      pm := if Before(x, best) then x else best;
      forall m | m in queue ensures !Before(m, pm) { assert m == x || m in rest; }
    }
  }

  // ---------- Whatever was accepted can be finished ----------

  function ProducerRank(w: World): nat {
    if w.lock.ByProducer? && w.lock.p in w.producers then
      match w.producers[w.lock.p]
      case Inside(_) => 3
      case Pushed => 2
      case Leaving => 1
      case Entering(_) => 0
    else 0
  }

  /** How far the worker is from its next message, or from its rest. */
  function WorkerRank(w: World): nat {
    match w.worker
    case Sending(_) => 11
    case Asking => 10
    case Asked(_) => 9
    case Idle => if |w.queue| > 0 then 8 else 0
    case Coalescing => if w.token then 7 else 6
    case Draining => 5
    case Taking => 4
    case Stopped => 0
  }

  /** The next step of the producer that holds the lock. */
  lemma ProducerGoesOn(w: World) returns (a: Action)
    requires Inv(w) && w.lock.ByProducer?
    ensures Enabled(w, a) && GoesOn(a) && Apply(w, a).worker == w.worker
    ensures ProducerRank(Apply(w, a)) < ProducerRank(w)
  {
    var p := w.lock.p;
    assert ProducerOk(w, p);
    match w.producers[p]
    case Inside(_) => a := if |w.queue| < Capacity(w.size) then Push(p) else Refuse(p);
    case Pushed => a := Notify(p);
    case Leaving => a := Return(p);
  }

  ghost predicate Rested(w: World) {
    |w.queue| == 0 && w.worker == Idle
  }

  lemma TakesOn(w: World) returns (a: Action)
    requires Inv(w) && w.worker == Taking
    ensures Enabled(w, a) && GoesOn(a) && Apply(w, a).worker != Stopped && !Apply(w, a).lock.ByProducer?
    ensures |Apply(w, a).queue| < |w.queue| || (Apply(w, a).queue == w.queue && WorkerRank(Apply(w, a)) < WorkerRank(w))
  {
    if |w.queue| == 0 { a := FindEmpty; } else {
      var pm := SomeFirst(w.queue);
      a := Take(pm);
      assert w.queue == w.queue - multiset{pm} + multiset{pm};
    }
  }

  /** No producer holds the lock: the next step of the worker, which at the select finds a token while messages wait. */
  lemma WorkerStepsOn(w: World) returns (a: Action)
    requires Inv(w) && !w.lock.ByProducer? && w.worker != Stopped && !Rested(w)
    ensures Enabled(w, a) && GoesOn(a) && Apply(w, a).worker != Stopped && !Apply(w, a).lock.ByProducer?
    ensures |Apply(w, a).queue| < |w.queue| || (Apply(w, a).queue == w.queue && WorkerRank(Apply(w, a)) < WorkerRank(w))
  {
    match w.worker
    case Taking => a := TakesOn(w);
    case Idle => a := Receive;
    case Coalescing => a := if w.token then DropToken else Coalesced;
    case Draining => a := LockToTake;
    case Sending(_) => a := Sent;
    case Asking => a := LockToAsk;
    case Asked(_) => a := Answer;
  }

  /** Some step of the worker or of the producer that holds the lock is enabled, until the worker waits or stops. */
  lemma NobodyIsStuck(w: World)
    requires Inv(w) && (w.lock != Nobody || WillLook(w.worker))
    ensures exists a :: Enabled(w, a) && GoesOn(a)
  {
    if w.lock.ByProducer? { var a := ProducerGoesOn(w); } else { var a := WorkerStepsOn(w); }
  }

  lemma {:induction false} CanRest(w: World) returns (rest: seq<Action>)
    requires Inv(w) && w.worker != Stopped
    ensures Runs(w, rest) && (forall a :: a in rest ==> GoesOn(a)) && Rested(Final(w, rest))
    decreases ProducerRank(w), |w.queue|, WorkerRank(w)
  {
    if !w.lock.ByProducer? && Rested(w) { rest := []; } else {
      var a;
      if w.lock.ByProducer? { a := ProducerGoesOn(w); } else { a := WorkerStepsOn(w); }
      StepKeepsInv(w, a);
      var more := CanRest(Apply(w, a));
      rest := [a] + more;
      assert rest[1..] == more;
    }
  }

  /**
   In every reachable state whose worker has not stopped: without a new call, and without help from a producer
   that still waits for the lock, the run can go on until the queue is empty and every accepted message is finished.
   */
  lemma EveryAcceptedMessageCanBeFinished(size: int, actions: seq<Action>) returns (rest: seq<Action>)
    requires Runs(Start(size), actions) && Final(Start(size), actions).worker != Stopped
    ensures Runs(Final(Start(size), actions), rest) && forall a :: a in rest ==> GoesOn(a)
    ensures var w := Final(Final(Start(size), actions), rest); |w.queue| == 0 && w.finished == w.accepted
  {
    StartInv(size);
    RunKeepsInv(Start(size), actions);
    rest := CanRest(Final(Start(size), actions));
    RunKeepsInv(Final(Start(size), actions), rest);
  }

}
