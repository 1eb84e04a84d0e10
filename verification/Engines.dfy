/**
 The call center under a virtual clock: every handler runs to its end before the next event. What the
 environment decides (configured sizes, which free operator comes first, the length of a service) is an
 input of the event, so a property of all inputs holds under any configuration history.
 */
module Engines {
  import opened Options
  import opened CallDetailedRecords
  import opened CallQueues
  import opened Sequences
  import opened QueueingMetrics

  datatype Service = Service(call: Call, op: nat, start: int, due: int)

  datatype Engine = Engine(
    now: int,
    q: Queue,
    free: set<nat>,
    tasks: seq<int>,          // due times of the posted iterations
    services: seq<Service>,   // posted finish events
    counters: Counters,
    arrived: seq<Call>,       // every call pushed so far
    started: seq<Call>,       // every call handed to an operator, in this order
    journal: seq<Cdr>)        // the records of finished calls

  function Initial(now: int, capacity: nat, free: set<nat>): Engine {
    Engine(now, EmptyQueue(capacity), free, [], [], Counters(0, 0, 0, 0), [], [], [])
  }

  /** The outcome of taking an operator: the free set as found after resizing, and the operator taken from it. */
  datatype Taken = Taken(found: set<nat>, op: Option<nat>) {
    function Left(): set<nat> { if op.Some? then found - {op.value} else found }
  }

  /** The inputs of one handler, in the order they are used. */
  datatype Input = Input(
    first: Taken,              // taken to bypass the queue
    returned: set<nat>,        // the free set after an operator came back before the iteration
    second: Taken,             // taken by the iteration
    returnedAgain: set<nat>,   // the free set after the iteration gave its operator back
    delay: nat)                // length of a service, in seconds

  /** The record of a waiting call. */
  function Waiting(c: Call): Cdr { NewRecord(c.id, c.phone, c.maxWait).Arrive(c.arrival) }

  function StartCallProcessing(e: Engine, c: Call, op: nat, delay: nat): Engine {
    e.(services := e.services + [Service(c, op, e.now, e.now + 1000 * delay)],
       started := e.started + [c],
       counters := e.counters.ServiceStart())
  }

  function RejectCall(e: Engine, c: Call, reason: CallStatus): Engine {
    e.(journal := e.journal + [Waiting(c).Complete(reason, e.now)], counters := e.counters.Dropout())
  }

  function RejectAllTimeoutCalls(e: Engine): Engine
    decreases |e.q.timeouts|
  {
    var (expired, q) := e.q.EraseTimeout(e.now);
    if expired.Some? then RejectAllTimeoutCalls(RejectCall(e.(q := q), expired.value, Timeout)) else e
  }

  /** The operator taken serves the head of the queue, or goes back if the queue has run empty. */
  function ServeHead(e: Engine, op: nat, inp: Input): Engine {
    match e.q.Pop()
    case (Some(c), q) => StartCallProcessing(e.(q := q.InsertToProcessing(c).1), c, op, inp.delay)
    case (None, _) => e.(free := inp.returnedAgain)
  }

  /** No operator was free: the next iteration is posted for the least timeout point. */
  function PostNext(e: Engine): Engine {
    match e.q.MinTimeout()
    case Some(c) => e.(tasks := e.tasks + [c.Timeout()])
    case None => e
  }

  /** The part of an iteration behind the rejections. */
  function Assign(e: Engine, inp: Input): Engine {
    var r := e.(free := inp.second.Left());
    match inp.second.op
    case Some(op) => ServeHead(r, op, inp)
    case None => PostNext(r)
  }

  function PerformCallProcessingIteration(e: Engine, inp: Input): Engine {
    if e.q.receipt == [] then e else Assign(RejectAllTimeoutCalls(e), inp)
  }

  function StartCallProcessingIfPossible(e: Engine, c: Call, inp: Input): (bool, Engine) {
    if e.q.receipt != [] then (false, e)
    else
      var r := e.(free := inp.first.Left());
      match inp.first.op
      case None => (false, r)
      case Some(op) =>
        var (added, q) := r.q.InsertToProcessing(c);
        if added then (true, StartCallProcessing(r.(q := q), c, op, inp.delay))
        else (false, r.(free := inp.returned))
  }

  function Arrive(e: Engine, c: Call): Engine {
    e.(arrived := e.arrived + [c], counters := e.counters.Arrival())
  }

  function Enqueue(e: Engine, c: Call, capacity: nat, inp: Input): Engine {
    match e.q.Push(c, capacity)
    case (Accepted, q) => PerformCallProcessingIteration(e.(q := q), inp)
    case (AlreadyQueued, q) => RejectCall(e.(q := q), c, AlreadyInQueue)
    case (Overloaded, q) => RejectCall(e.(q := q), c, Overload)
  }

  function PushCall(e: Engine, c: Call, capacity: nat, inp: Input): Engine {
    var (started, r) := StartCallProcessingIfPossible(Arrive(e, c), c, inp);
    if started then r else Enqueue(r, c, capacity, inp)
  }

  /** What a finish event does before it looks at the queue. */
  function Release(e: Engine, i: nat, returned: set<nat>): Engine
    requires i < |e.services|
  {
    var s := e.services[i];
    e.(services := RemoveAt(e.services, i),
       journal := e.journal + [Waiting(s.call).Start(s.op, s.start).Complete(Ok, e.now)],
       counters := e.counters.ServiceComplete(),
       q := e.q.EraseFromProcessing(s.call),
       free := returned)
  }

  function FinishCallProcessing(e: Engine, i: nat, inp: Input): Engine
    requires i < |e.services|
  {
    PerformCallProcessingIteration(Release(e, i, inp.returned), inp)
  }

  // Handlers ignore the inputs they do not come to use.

  lemma BypassInputs(e: Engine, c: Call, inp: Input, other: Input)
    requires other.first == inp.first && other.returned == inp.returned
    requires StartCallProcessingIfPossible(e, c, inp).0 ==> other.delay == inp.delay
    ensures StartCallProcessingIfPossible(e, c, other) == StartCallProcessingIfPossible(e, c, inp)
  {
  }

  lemma ServeHeadInputs(e: Engine, op: nat, inp: Input, other: Input)
    requires other.returnedAgain == inp.returnedAgain && other.delay == inp.delay
    ensures ServeHead(e, op, other) == ServeHead(e, op, inp)
  {
  }

  lemma IterationInputs(e: Engine, inp: Input, other: Input)
    requires other.second == inp.second && other.returnedAgain == inp.returnedAgain && other.delay == inp.delay
    ensures Assign(e, other) == Assign(e, inp)
    ensures PerformCallProcessingIteration(e, other) == PerformCallProcessingIteration(e, inp)
  {
  }

  lemma EnqueueInputs(e: Engine, c: Call, capacity: nat, inp: Input, other: Input)
    requires other.second == inp.second && other.returnedAgain == inp.returnedAgain && other.delay == inp.delay
    ensures Enqueue(e, c, capacity, other) == Enqueue(e, c, capacity, inp)
  {
    forall r: Engine { IterationInputs(r, inp, other); }
  }

  datatype Event =
    | Push(c: Call, capacity: nat, inp: Input)
    | Iteration(i: nat, inp: Input)
    | Finish(i: nat, inp: Input)
    | Advance(to: int)

  /** An event may happen: a new call arrives now, a posted event is due, or time passes up to the next one. */
  ghost predicate Enabled(e: Engine, ev: Event) {
    match ev
    case Push(c, _, _) => c.arrival == e.now && forall d :: d in e.arrived ==> d.id != c.id
    case Iteration(i, _) => i < |e.tasks| && e.tasks[i] <= e.now
    case Finish(i, _) => i < |e.services| && e.services[i].due <= e.now
    case Advance(to) =>
      && e.now <= to
      && (forall t :: t in e.tasks ==> to <= t)
      && (forall s :: s in e.services ==> to <= s.due)
  }

  function Apply(e: Engine, ev: Event): Engine {
    match ev
    case Push(c, capacity, inp) => PushCall(e, c, capacity, inp)
    case Iteration(i, inp) =>
      if i < |e.tasks| then PerformCallProcessingIteration(e.(tasks := RemoveAt(e.tasks, i)), inp) else e
    case Finish(i, inp) => if i < |e.services| then FinishCallProcessing(e, i, inp) else e
    case Advance(to) => e.(now := to)
  }

  function Exec(e: Engine, events: seq<Event>): Engine {
    if events == [] then e else Apply(Exec(e, events[..|events| - 1]), events[|events| - 1])
  }

  /** Each event was enabled when it came. */
  ghost predicate Feasible(e: Engine, events: seq<Event>) {
    events != [] ==>
      var m := |events| - 1;
      Feasible(e, events[..m]) && Enabled(Exec(e, events[..m]), events[m])
  }
}
