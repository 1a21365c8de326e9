/** The bounded queue with two condition variables (src/foundation/thread/BlockingQueue.h). What a thread does
    between two sleeps is one atomic step, because it holds the mutex; sleeping and waking are steps of their own. */
module BlockingQueue {
  import opened Foundation

  /** The fields the mutex protects; capacity 0 means unbounded. */
  datatype Core<T> = Core(capacity: nat, queue: seq<T>, closed: bool)

  datatype PushOutcome = PushSleeps | PushRefused | PushAccepted

  datatype PopOutcome<T> = PopSleeps | PopNothing | PopValue(value: T)

  predicate Full<T>(q: Core<T>) { q.capacity != 0 && |q.queue| >= q.capacity }

  /** One turn of push with the mutex held: sleep, give up on a closed queue, or append. */
  function PushTurn<T>(q: Core<T>, value: T): (PushOutcome, Core<T>) {
    if q.closed then (PushRefused, q)
    else if Full(q) then (PushSleeps, q)
    else (PushAccepted, q.(queue := q.queue + [value]))
  }

  /** One turn of pop; a closed queue is drained before it reports nothing. */
  function PopTurn<T>(q: Core<T>): (PopOutcome<T>, Core<T>) {
    if q.queue != [] then (PopValue(q.queue[0]), q.(queue := q.queue[1..]))
    else if q.closed then (PopNothing, q)
    else (PopSleeps, q)
  }

  class BlockingQueue<T> {
    const capacity: nat
    var queue: seq<T>
    var closed: bool

    function View(): Core<T>
      reads this
    {
      Core(capacity, queue, closed)
    }

    constructor (capacity: nat)
      ensures View() == Core(capacity, [], false)
    {
      this.capacity := capacity;
      queue, closed := [], false;
    }

    method Push(value: T) returns (outcome: PushOutcome)
      modifies this
      ensures (outcome, View()) == PushTurn(old(View()), value)
    {
      if !(closed || capacity == 0 || |queue| < capacity) { return PushSleeps; }
      if closed { return PushRefused; }
      queue := queue + [value];
      return PushAccepted;
    }

    method Pop() returns (outcome: PopOutcome<T>)
      modifies this
      ensures (outcome, View()) == PopTurn(old(View()))
    {
      if !(closed || queue != []) { return PopSleeps; }
      if queue == [] { return PopNothing; }
      outcome := PopValue(queue[0]);
      queue := queue[1..];
    }

    method TryPop() returns (value: Option<T>)
      modifies this
      ensures var (outcome, q) := PopTurn(old(View()));
              View() == q && value == if outcome.PopValue? then Some(outcome.value) else None
    {
      if queue == [] { return None; }
      value := Some(queue[0]);
      queue := queue[1..];
    }

    method Close()
      modifies this
      ensures View() == old(View()).(closed := true)
    {
      closed := true;
    }
  }

  // ---------------------------------------------------------------- threads

  /** The threads of one condition variable: asleep, or woken and waiting for the mutex. */
  datatype Waiters = Waiters(asleep: set<nat>, woken: set<nat>)

  /** The queue, its waiters, the value each waiting producer brings, all values accepted and popped so far, and what
      every finished pop and tryPop reported. */
  datatype Monitor<T> = Monitor(
    core: Core<T>, consumers: Waiters, producers: Waiters, brings: map<nat, T>,
    accepted: seq<T>, popped: seq<T>, reported: seq<Option<T>>)

  /** `wake` is the sleeper notify_one picks, if there is one. Calls start a push or pop; resumes are the next turn
      of a woken thread; the last two are spurious wake-ups. */
  datatype Op<T> =
    | PushCall(id: nat, value: T, wake: nat)
    | PushResume(id: nat, wake: nat)
    | PopCall(id: nat, wake: nat)
    | PopResume(id: nat, wake: nat)
    | TryPop(wake: nat)
    | Close
    | WakeProducer(id: nat)
    | WakeConsumer(id: nat)

  function Wake(w: Waiters, id: nat): Waiters {
    if id in w.asleep then Waiters(w.asleep - {id}, w.woken + {id}) else w
  }

  function WakeAll(w: Waiters): Waiters { Waiters({}, w.woken + w.asleep) }

  function Sleep(w: Waiters, id: nat): Waiters { Waiters(w.asleep + {id}, w.woken - {id}) }

  function Leave(w: Waiters, id: nat): Waiters { w.(woken := w.woken - {id}) }

  /** notify_one picks some sleeper whenever there is one. */
  predicate CanPick(w: Waiters, id: nat) { w.asleep != {} ==> id in w.asleep }

  /** What the scheduler may do next. */
  predicate Legal<T>(m: Monitor<T>, op: Op<T>) {
    match op
    case PushCall(id, _, wake) => id !in m.producers.asleep + m.producers.woken && CanPick(m.consumers, wake)
    case PushResume(id, wake) => id in m.producers.woken && id in m.brings && CanPick(m.consumers, wake)
    case PopCall(id, wake) => id !in m.consumers.asleep + m.consumers.woken && CanPick(m.producers, wake)
    case PopResume(id, wake) => id in m.consumers.woken && CanPick(m.producers, wake)
    case TryPop(wake) => CanPick(m.producers, wake)
    case Close => true
    case WakeProducer(_) => true
    case WakeConsumer(_) => true
  }

  function PushBy<T>(m: Monitor<T>, id: nat, value: T, wake: nat): Monitor<T> {
    var (outcome, q) := PushTurn(m.core, value);
    match outcome
    case PushSleeps => m.(producers := Sleep(m.producers, id), brings := m.brings[id := value])
    case PushRefused => m.(producers := Leave(m.producers, id))
    case PushAccepted =>
      m.(core := q, producers := Leave(m.producers, id), consumers := Wake(m.consumers, wake),
         accepted := m.accepted + [value])
  }

  function PopBy<T>(m: Monitor<T>, id: nat, wake: nat): Monitor<T> {
    var (outcome, q) := PopTurn(m.core);
    match outcome
    case PopSleeps => m.(consumers := Sleep(m.consumers, id))
    case PopNothing => m.(consumers := Leave(m.consumers, id), reported := m.reported + [None])
    case PopValue(value) =>
      m.(core := q, consumers := Leave(m.consumers, id), producers := Wake(m.producers, wake),
         popped := m.popped + [value], reported := m.reported + [Some(value)])
  }

  function Step<T>(m: Monitor<T>, op: Op<T>): Monitor<T>
    requires Legal(m, op)
  {
    match op
    case PushCall(id, value, wake) => PushBy(m, id, value, wake)
    case PushResume(id, wake) => PushBy(m, id, m.brings[id], wake)
    case PopCall(id, wake) => PopBy(m, id, wake)
    case PopResume(id, wake) => PopBy(m, id, wake)
    case TryPop(wake) =>
      var (outcome, q) := PopTurn(m.core);
      if outcome.PopValue? then
        m.(core := q, producers := Wake(m.producers, wake), popped := m.popped + [outcome.value],
           reported := m.reported + [Some(outcome.value)])
      else m.(reported := m.reported + [None])
    case Close =>
      m.(core := m.core.(closed := true), consumers := WakeAll(m.consumers), producers := WakeAll(m.producers))
    case WakeProducer(id) => m.(producers := Wake(m.producers, id))
    case WakeConsumer(id) => m.(consumers := Wake(m.consumers, id))
  }

  // ---------------------------------------------------------------- what every run keeps

  /** A sleeping consumer means at least as many woken ones as queued values. */
  predicate ConsumersCovered<T>(m: Monitor<T>) {
    && m.consumers.asleep !! m.consumers.woken
    && (m.consumers.asleep != {} ==> |m.consumers.woken| >= |m.core.queue| && !m.core.closed)
  }

  /** A sleeping producer means a bounded queue and at least as many woken ones as free places. */
  predicate ProducersCovered<T>(m: Monitor<T>) {
    && m.producers.asleep !! m.producers.woken
    && (m.producers.asleep != {} ==>
          m.core.capacity > 0 && |m.producers.woken| >= m.core.capacity - |m.core.queue| && !m.core.closed)
  }

  /** Every waiting producer has its value with it. */
  ghost predicate ValuesBrought<T>(m: Monitor<T>) {
    forall id :: id in m.producers.asleep || id in m.producers.woken ==> id in m.brings
  }

  /** Popped values followed by queued ones are the accepted ones in order, and a bounded queue keeps its bound. */
  ghost predicate ValuesKept<T>(m: Monitor<T>) {
    && m.accepted == m.popped + m.core.queue
    && (m.core.capacity != 0 ==> |m.core.queue| <= m.core.capacity)
  }

  ghost predicate Inv<T>(m: Monitor<T>) {
    ConsumersCovered(m) && ProducersCovered(m) && ValuesBrought(m) && ValuesKept(m)
  }

  function Start<T>(capacity: nat): Monitor<T> {
    Monitor(Core(capacity, [], false), Waiters({}, {}), Waiters({}, {}), map[], [], [], [])
  }

  lemma PopKeepsConsumersCovered<T>(m: Monitor<T>, id: nat, wake: nat)
    requires ConsumersCovered(m) && id !in m.consumers.asleep
    ensures ConsumersCovered(PopBy(m, id, wake))
  {
    hide Wake;
    assert |m.consumers.woken - {id}| >= |m.consumers.woken| - 1;
  }

  lemma WakeKeepsConsumersCovered<T>(m: Monitor<T>, id: nat)
    requires ConsumersCovered(m)
    ensures ConsumersCovered(m.(consumers := Wake(m.consumers, id)))
    ensures CanPick(m.consumers, id) && Wake(m.consumers, id).asleep != {} ==>
              |Wake(m.consumers, id).woken| == |m.consumers.woken| + 1
  {
  }

  lemma PushKeepsConsumersCovered<T>(m: Monitor<T>, id: nat, value: T, wake: nat)
    requires ConsumersCovered(m) && CanPick(m.consumers, wake)
    ensures ConsumersCovered(PushBy(m, id, value, wake))
  {
    WakeKeepsConsumersCovered(m, wake);
    assert m.consumers.asleep == {} ==> Wake(m.consumers, wake).asleep == {};
    hide Wake;
  }

  lemma StepKeepsConsumersCovered<T>(m: Monitor<T>, op: Op<T>)
    requires Inv(m) && Legal(m, op)
    ensures ConsumersCovered(Step(m, op))
  {
    hide ProducersCovered, ValuesBrought, ValuesKept, Wake;
    match op {
      case PushCall(id, value, wake) => PushKeepsConsumersCovered(m, id, value, wake);
      case PushResume(id, wake) => PushKeepsConsumersCovered(m, id, m.brings[id], wake);
      case PopCall(id, wake) => PopKeepsConsumersCovered(m, id, wake);
      case PopResume(id, wake) => PopKeepsConsumersCovered(m, id, wake);
      case WakeConsumer(id) => WakeKeepsConsumersCovered(m, id);
      case WakeProducer(_) =>
      case Close =>
      case TryPop(_) =>
    }
  }

  lemma PushKeepsProducersCovered<T>(m: Monitor<T>, id: nat, value: T, wake: nat)
    requires ProducersCovered(m) && id !in m.producers.asleep
    ensures ProducersCovered(PushBy(m, id, value, wake))
  {
    hide Wake;
    assert |m.producers.woken - {id}| >= |m.producers.woken| - 1;
  }

  lemma WakeKeepsProducersCovered<T>(m: Monitor<T>, id: nat)
    requires ProducersCovered(m)
    ensures ProducersCovered(m.(producers := Wake(m.producers, id)))
    ensures CanPick(m.producers, id) && Wake(m.producers, id).asleep != {} ==>
              |Wake(m.producers, id).woken| == |m.producers.woken| + 1
  {
  }

  lemma PopKeepsProducersCovered<T>(m: Monitor<T>, wake: nat)
    requires ProducersCovered(m) && CanPick(m.producers, wake) && m.core.queue != []
    ensures ProducersCovered(m.(core := PopTurn(m.core).1, producers := Wake(m.producers, wake)))
  {
    WakeKeepsProducersCovered(m, wake);
    assert m.producers.asleep == {} ==> Wake(m.producers, wake).asleep == {};
    hide Wake;
  }

  lemma StepKeepsProducersCovered<T>(m: Monitor<T>, op: Op<T>)
    requires Inv(m) && Legal(m, op)
    ensures ProducersCovered(Step(m, op))
  {
    hide ConsumersCovered, ValuesBrought, ValuesKept, Wake;
    match op {
      case PushCall(id, value, wake) => PushKeepsProducersCovered(m, id, value, wake);
      case PushResume(id, wake) => PushKeepsProducersCovered(m, id, m.brings[id], wake);
      case WakeProducer(id) => WakeKeepsProducersCovered(m, id);
      case WakeConsumer(_) =>
      case Close =>
      case PopCall(_, wake) => if m.core.queue != [] { PopKeepsProducersCovered(m, wake); }
      case PopResume(_, wake) => if m.core.queue != [] { PopKeepsProducersCovered(m, wake); }
      case TryPop(wake) => if m.core.queue != [] { PopKeepsProducersCovered(m, wake); }
    }
  }

  lemma StepKeepsValuesBrought<T>(m: Monitor<T>, op: Op<T>)
    requires Inv(m) && Legal(m, op)
    ensures ValuesBrought(Step(m, op))
  {
    hide ConsumersCovered, ProducersCovered, ValuesKept;
  }

  lemma StepKeepsValues<T>(m: Monitor<T>, op: Op<T>)
    requires Inv(m) && Legal(m, op)
    ensures ValuesKept(Step(m, op))
  {
    hide ConsumersCovered, ProducersCovered, ValuesBrought, Wake;
  }

  lemma StepKeepsInv<T>(m: Monitor<T>, op: Op<T>)
    requires Inv(m) && Legal(m, op)
    ensures Inv(Step(m, op))
  {
    StepKeepsConsumersCovered(m, op);
    StepKeepsProducersCovered(m, op);
    StepKeepsValuesBrought(m, op);
    StepKeepsValues(m, op);
  }

  /** The state after a list of steps; None when a step was not possible where it stands. */
  ghost function Run<T>(capacity: nat, ops: seq<Op<T>>): Option<Monitor<T>> {
    if ops == [] then Some(Start(capacity))
    else
      var before := Run(capacity, ops[..|ops| - 1]);
      if before.Some? && Legal(before.value, ops[|ops| - 1]) then Some(Step(before.value, ops[|ops| - 1])) else None
  }

  /** No interleaving of producers, consumers and close loses a wake-up, a value or the order of values. */
  lemma {:induction false} RunKeepsInv<T>(capacity: nat, ops: seq<Op<T>>)
    ensures Run(capacity, ops).Some? ==> Inv(Run(capacity, ops).value)
    ensures Run(capacity, ops).Some? ==> Run(capacity, ops).value.core.capacity == capacity
  {
    if ops != [] {
      var before := Run(capacity, ops[..|ops| - 1]);
      RunKeepsInv(capacity, ops[..|ops| - 1]);
      if before.Some? && Legal(before.value, ops[|ops| - 1]) {
        StepKeepsInv(before.value, ops[|ops| - 1]);
      }
    }
  }

  /** A value and a sleeping consumer together mean that some woken consumer takes the value on its next turn. */
  lemma SomebodyTakes<T>(m: Monitor<T>, wake: nat) returns (id: nat)
    requires Inv(m) && m.consumers.asleep != {} && m.core.queue != [] && CanPick(m.producers, wake)
    ensures Legal(m, PopResume(id, wake))
    ensures Step(m, PopResume(id, wake)).popped == m.popped + [m.core.queue[0]]
  {
    assert m.consumers.woken != {};
    id :| id in m.consumers.woken;
  }

  /** A free place and a sleeping producer together mean that some woken producer fills it on its next turn. */
  lemma SomebodyFills<T>(m: Monitor<T>, wake: nat) returns (id: nat)
    requires Inv(m) && m.producers.asleep != {} && !Full(m.core) && CanPick(m.consumers, wake)
    ensures Legal(m, PushResume(id, wake))
    ensures Step(m, PushResume(id, wake)).core.queue == m.core.queue + [m.brings[id]]
  {
    assert m.producers.woken != {};
    id :| id in m.producers.woken;
  }

  /** Once every woken thread has had its turn, consumers sleep only on an empty queue, producers only on a full
      one, so never both; and nobody sleeps on a closed queue. */
  lemma NoDeadlock<T>(m: Monitor<T>)
    requires Inv(m) && m.consumers.woken == {} && m.producers.woken == {}
    ensures m.consumers.asleep != {} ==> m.core.queue == []
    ensures m.producers.asleep != {} ==> Full(m.core)
    ensures m.consumers.asleep == {} || m.producers.asleep == {}
    ensures m.core.closed ==> m.consumers.asleep == {} && m.producers.asleep == {}
  {
  }

  // ---------------------------------------------------------------- what push and pop answer

  /** The place of a thread: nowhere in the queue's waiters. */
  predicate Gone(w: Waiters, id: nat) { id !in w.asleep && id !in w.woken }

  /** A push, new or resumed, puts its value behind the others and ends exactly when the queue is open and has room;
      on a closed queue it ends and changes no value; otherwise it sleeps with its value. */
  lemma PushAnswers<T>(m: Monitor<T>, op: Op<T>)
    requires Inv(m) && Legal(m, op) && (op.PushCall? || op.PushResume?)
    ensures var m', value := Step(m, op), if op.PushCall? then op.value else m.brings[op.id];
            var room := m.core.capacity == 0 || |m.core.queue| < m.core.capacity;
            && (if room && !m.core.closed
                then m'.core.queue == m.core.queue + [value] && m'.accepted == m.accepted + [value]
                else m'.core.queue == m.core.queue && m'.accepted == m.accepted)
            && (if room || m.core.closed then Gone(m'.producers, op.id)
                else op.id in m'.producers.asleep && m'.brings == m.brings[op.id := value])
            && m'.core.closed == m.core.closed && m'.reported == m.reported && m'.popped == m.popped
  {
  }

  /** A pop, new or resumed, reports the oldest value and takes it whenever there is one, open or closed; without one
      it reports nothing on a closed queue and sleeps on an open one. A tryPop never sleeps. */
  lemma PopAnswers<T>(m: Monitor<T>, op: Op<T>)
    requires Inv(m) && Legal(m, op) && (op.PopCall? || op.PopResume? || op.TryPop?)
    ensures var m' := Step(m, op);
            && (m.core.queue != [] ==>
                  m'.core.queue == m.core.queue[1..] && m'.reported == m.reported + [Some(m.core.queue[0])])
            && (m.core.queue == [] ==>
                  && m'.core.queue == []
                  && m'.reported == if m.core.closed || op.TryPop? then m.reported + [None] else m.reported)
            && (!op.TryPop? ==>
                  if m.core.queue != [] || m.core.closed then Gone(m'.consumers, op.id)
                  else op.id in m'.consumers.asleep)
            && m'.core.closed == m.core.closed && m'.accepted == m.accepted
  {
  }

  /** Closing keeps every value, and leaves nobody asleep and everybody who was asleep with a turn to come. */
  lemma CloseAnswers<T>(m: Monitor<T>)
    requires Inv(m)
    ensures var m' := Step(m, Close);
            && m'.core == Core(m.core.capacity, m.core.queue, true) && m'.accepted == m.accepted
            && m'.consumers.asleep == {} && m'.consumers.woken == m.consumers.woken + m.consumers.asleep
            && m'.producers.asleep == {} && m'.producers.woken == m.producers.woken + m.producers.asleep
            && m'.brings == m.brings && m'.reported == m.reported && m'.popped == m.popped
  {
  }

  /** Like Run, from any state. */
  ghost function RunFrom<T>(m: Monitor<T>, ops: seq<Op<T>>): Option<Monitor<T>> {
    if ops == [] then Some(m)
    else
      var before := RunFrom(m, ops[..|ops| - 1]);
      if before.Some? && Legal(before.value, ops[|ops| - 1]) then Some(Step(before.value, ops[|ops| - 1])) else None
  }

  /** How many of the steps are turns of a pop or a tryPop. */
  function Pops<T>(ops: seq<Op<T>>): nat {
    if ops == [] then 0
    else
      var op := ops[|ops| - 1];
      Pops(ops[..|ops| - 1]) + if op.PopCall? || op.PopResume? || op.TryPop? then 1 else 0
  }

  /** The value with this number, if there are so many. */
  function ValueAt<T>(queue: seq<T>, k: nat): Option<T> { if k < |queue| then Some(queue[k]) else None }

  /** What has become of the values `queue` after `n` pops from a closed queue: the first of them are reported in
      order, then nothing is. */
  predicate DrainedBy<T(==)>(m: Monitor<T>, n: nat, m': Monitor<T>) {
    && m'.core.closed && m'.accepted == m.accepted
    && m'.core.queue == m.core.queue[Min(n, |m.core.queue|)..]
    && |m'.reported| == |m.reported| + n && m'.reported[..|m.reported|] == m.reported
    && (forall i :: |m.reported| <= i < |m'.reported| ==>
          m'.reported[i] == ValueAt(m.core.queue, i - |m.reported|))
  }

  /** What one more pop reports of the values `q` after `n` pops. */
  lemma DrainPop<T>(m: Monitor<T>, n: nat, m': Monitor<T>, m'': Monitor<T>)
    requires DrainedBy(m, n, m') && m''.core.closed && m''.accepted == m'.accepted
    requires var q := m'.core.queue;
             && m''.core.queue == (if q == [] then [] else q[1..])
             && m''.reported == m'.reported + [if q == [] then None else Some(q[0])]
    ensures DrainedBy(m, n + 1, m'')
  {
    var q, before, after := m.core.queue, m'.reported, m''.reported;
    var left, x := m'.core.queue, if m'.core.queue == [] then None else Some(m'.core.queue[0]);
    assert left == q[Min(n, |q|)..] && (n < |q| <==> left != []);
    if n < |q| { assert left[0] == q[n] && left[1..] == q[n + 1..]; }
    assert after == before + [x] && |before| == |m.reported| + n;
    assert after[..|m.reported|] == before[..|m.reported|];
    assert x == ValueAt(q, n);
  }

  lemma DrainStep<T>(m: Monitor<T>, n: nat, m': Monitor<T>, op: Op<T>)
    requires DrainedBy(m, n, m') && Inv(m') && Legal(m', op)
    ensures DrainedBy(m, n + if op.PopCall? || op.PopResume? || op.TryPop? then 1 else 0, Step(m', op))
  {
    if op.PopCall? || op.PopResume? || op.TryPop? {
      PopAnswers(m', op);
      hide Inv, Legal, Step;
      DrainPop(m, n, m', Step(m', op));
    } else if op.PushCall? || op.PushResume? {
      PushAnswers(m', op);
      hide Inv, Legal, Step;
    }
  }

  /** A closed queue is drained and takes nothing more: whatever the threads do from any reachable closed state on,
      the turns of pop and tryPop report exactly the queued values in order, every further one reports nothing, and no
      push is accepted. */
  lemma {:induction false} ClosedDrains<T>(m: Monitor<T>, ops: seq<Op<T>>)
    requires Inv(m) && m.core.closed
    ensures var m' := RunFrom(m, ops); m'.Some? ==> Inv(m'.value) && DrainedBy(m, Pops(ops), m'.value)
  {
    hide Inv, DrainedBy, Legal, Step;
    if ops == [] {
      NothingDrained(m);
    } else {
      var front, op := ops[..|ops| - 1], ops[|ops| - 1];
      ClosedDrains(m, front);
      var before := RunFrom(m, front);
      if before.Some? && Legal(before.value, op) {
        DrainStep(m, Pops(front), before.value, op);
        StepKeepsInv(before.value, op);
      }
    }
  }

  lemma NothingDrained<T>(m: Monitor<T>)
    requires m.core.closed
    ensures DrainedBy(m, 0, m)
  {
  }
}
