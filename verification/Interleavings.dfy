/**
 The call center under many threads. Each component has its own lock and there is none around the whole, so
 a handler is a sequence of steps, one for every locked operation, and the steps of all threads interleave
 freely. All calls have one longest wait. The pool of operators may be resized at any moment; the program does
 it when an operator is taken or returned, which is one of those moments.
 */
module Interleavings {
  import opened Options
  import opened Sequences
  import opened CallDetailedRecords
  import opened CallQueues
  import opened QueueingMetrics

  type Refusal = s: CallStatus | s != Ok witness Overload

  /** Where a thread stands: the operation it does next, with the call and the operator in its hands. */
  datatype Pc =
    // pushing a call
    | SetArrival(c: nat)
    | CountArrival(c: nat)
    | TryBypass(c: nat)
    | TakeForBypass(c: nat)
    | EnterBypassing(c: nat, op: nat)
    | ReturnBypass(c: nat, op: nat)
    | PushToQueue(c: nat)
    // rejecting a call, from the push or from the rejection loop of an iteration
    | Refuse(c: nat, reason: Refusal, looping: bool)
    | CountRefusal(c: nat, looping: bool)
    | CountDropout(c: nat, looping: bool)
    | LogRefusal(c: nat, looping: bool)
    // starting a service
    | Answer(c: nat, op: nat)
    | CountStart(c: nat, op: nat)
    | TurnBusy(c: nat, op: nat)
    | PostFinish(c: nat, op: nat)
    // an iteration
    | CheckQueue
    | EraseExpired
    | TakeForQueue
    | PopHead(op: nat)
    | EnterQueued(c: nat, op: nat)
    | ReturnUnused(op: nat)
    | FindNext
    | PostNext(at: int)
    // finishing a service
    | TurnFree(c: nat, op: nat)
    | CompleteCall(c: nat, op: nat)
    | CountComplete(c: nat, op: nat)
    | LeaveProcessing(c: nat, op: nat)
    | ReturnServed(c: nat, op: nat)
    | LogServed(c: nat)
    | LookAgain
    // the handler has returned
    | Ended

  /** A posted finish event. */
  datatype Finish = Finish(c: nat, op: nat, due: int)

  datatype World = World(
    now: int,
    wait: nat,
    operators: set<nat>,
    q: Queue,
    free: set<nat>,
    busy: set<nat>,          // operators whose status is busy
    servers: set<nat>,       // operators with a slot in the metrics
    tasks: seq<int>,         // posted iterations
    finishes: set<Finish>,   // posted finish events
    threads: map<nat, Pc>,
    records: map<nat, Cdr>,  // the call objects
    counters: Counters,
    notified: seq<nat>,      // the calls whose completion callback has run
    journal: seq<nat>)       // the calls written to the journal

  function Initial(now: int, wait: nat, capacity: nat, operators: set<nat>): World {
    var nothing := Counters(0, 0, 0, 0);
    World(now, wait, operators, EmptyQueue(capacity), operators, {}, operators, [], {}, map[], map[], nothing, [], [])
  }

  /** The queue's view of a record. */
  function CallOf(r: Cdr): Call { Call(r.id, r.phone, if r.arrival.Some? then r.arrival.value else 0, r.maxWait) }

  function Record(w: World, c: nat): Cdr { if c in w.records then w.records[c] else NewRecord(c, "", w.wait) }

  function Go(w: World, t: nat, pc: Pc): World { w.(threads := w.threads[t := pc]) }

  function Write(w: World, c: nat, r: Cdr): World { w.(records := w.records[c := r]) }

  /** What the environment contributes to a step: which free operator, how long a service, how large the queue. */
  datatype Choice = Choice(pick: nat, delay: nat, capacity: nat)

  /** An operator that is no longer in the pool is not taken back. */
  function Return(w: World, op: nat): World { if op in w.operators then w.(free := w.free + {op}) else w }

  function AfterRejection(looping: bool): Pc { if looping then EraseExpired else Ended }

  function PushSteps(w: World, t: nat, ch: Choice): World
    requires t in w.threads
  {
    match w.threads[t]
    case SetArrival(c) => Go(Write(w, c, Record(w, c).Arrive(w.now)), t, CountArrival(c))
    case CountArrival(c) => Go(w.(counters := w.counters.Arrival()), t, TryBypass(c))
    case TryBypass(c) => Go(w, t, if w.q.receipt == [] then TakeForBypass(c) else PushToQueue(c))
    case TakeForBypass(c) =>
      if ch.pick in w.free then Go(w.(free := w.free - {ch.pick}), t, EnterBypassing(c, ch.pick))
      else Go(w, t, PushToQueue(c))
    case EnterBypassing(c, op) =>
      var (added, q) := w.q.InsertToProcessing(CallOf(Record(w, c)));
      Go(w.(q := q), t, if added then Answer(c, op) else ReturnBypass(c, op))
    case ReturnBypass(c, op) => Go(Return(w, op), t, PushToQueue(c))
    case PushToQueue(c) =>
      var (result, q) := w.q.Push(CallOf(Record(w, c)), ch.capacity);
      Go(w.(q := q), t,
        match result
        case Accepted => CheckQueue
        case AlreadyQueued => Refuse(c, AlreadyInQueue, false)
        case Overloaded => Refuse(c, Overload, false))
    case _ => w
  }

  function RejectSteps(w: World, t: nat): World
    requires t in w.threads
  {
    match w.threads[t]
    case Refuse(c, reason, looping) =>
      Go(Write(w, c, Record(w, c).Complete(reason, w.now)).(notified := w.notified + [c]), t, CountRefusal(c, looping))
    case CountRefusal(c, looping) =>
      var k := w.counters;
      Go(w.(counters := k.(queueSize := Decrement(k.queueSize), inSystem := Decrement(k.inSystem))), t,
        CountDropout(c, looping))
    case CountDropout(c, looping) =>
      Go(w.(counters := w.counters.(dropouts := w.counters.dropouts + 1)), t, LogRefusal(c, looping))
    case LogRefusal(c, looping) => Go(w.(journal := w.journal + [c]), t, AfterRejection(looping))
    case _ => w
  }

  function StartSteps(w: World, t: nat, ch: Choice): World
    requires t in w.threads
  {
    match w.threads[t]
    case Answer(c, op) => Go(Write(w, c, Record(w, c).Start(op, w.now)), t, CountStart(c, op))
    case CountStart(c, op) => Go(w.(counters := w.counters.ServiceStart()), t, TurnBusy(c, op))
    case TurnBusy(c, op) => Go(w.(busy := w.busy + {op}), t, PostFinish(c, op))
    case PostFinish(c, op) => Go(w.(finishes := w.finishes + {Finish(c, op, w.now + 1000 * ch.delay)}), t, Ended)
    case _ => w
  }

  function IterationSteps(w: World, t: nat, ch: Choice): World
    requires t in w.threads
  {
    match w.threads[t]
    case CheckQueue => Go(w, t, if w.q.receipt == [] then Ended else EraseExpired)
    case EraseExpired =>
      var (expired, q) := w.q.EraseTimeout(w.now);
      if expired.Some? then Go(w.(q := q), t, Refuse(expired.value.id, Timeout, true)) else Go(w, t, TakeForQueue)
    case TakeForQueue =>
      if ch.pick in w.free then Go(w.(free := w.free - {ch.pick}), t, PopHead(ch.pick)) else Go(w, t, FindNext)
    case PopHead(op) =>
      var (head, q) := w.q.Pop();
      if head.Some? then Go(w.(q := q), t, EnterQueued(head.value.id, op)) else Go(w, t, ReturnUnused(op))
    case EnterQueued(c, op) =>
      Go(w.(q := w.q.InsertToProcessing(CallOf(Record(w, c))).1), t, Answer(c, op))
    case ReturnUnused(op) => Go(Return(w, op), t, Ended)
    case FindNext =>
      Go(w, t, if w.q.MinTimeout().Some? then PostNext(w.q.MinTimeout().value.Timeout()) else Ended)
    case PostNext(at) => Go(w.(tasks := w.tasks + [at]), t, Ended)
    case _ => w
  }

  function FinishSteps(w: World, t: nat): World
    requires t in w.threads
  {
    match w.threads[t]
    case TurnFree(c, op) => Go(w.(busy := w.busy - {op}), t, CompleteCall(c, op))
    case CompleteCall(c, op) =>
      Go(Write(w, c, Record(w, c).Complete(Ok, w.now)).(notified := w.notified + [c]), t, CountComplete(c, op))
    case CountComplete(c, op) => Go(w.(counters := w.counters.ServiceComplete()), t, LeaveProcessing(c, op))
    case LeaveProcessing(c, op) => Go(w.(q := w.q.EraseFromProcessing(CallOf(Record(w, c)))), t, ReturnServed(c, op))
    case ReturnServed(c, op) => Go(Return(w, op), t, LogServed(c))
    case LogServed(c) => Go(w.(journal := w.journal + [c]), t, LookAgain)
    case LookAgain => Go(w, t, if w.q.receipt == [] then Ended else CheckQueue)
    case _ => w
  }

  function Run(w: World, t: nat, ch: Choice): World
    requires t in w.threads
  {
    match w.threads[t]
    case SetArrival(_) | CountArrival(_) | TryBypass(_) | TakeForBypass(_) => PushSteps(w, t, ch)
    case EnterBypassing(_, _) | ReturnBypass(_, _) | PushToQueue(_) => PushSteps(w, t, ch)
    case Refuse(_, _, _) | CountRefusal(_, _) | CountDropout(_, _) | LogRefusal(_, _) => RejectSteps(w, t)
    case Answer(_, _) | CountStart(_, _) | TurnBusy(_, _) | PostFinish(_, _) => StartSteps(w, t, ch)
    case CheckQueue | EraseExpired | TakeForQueue | PopHead(_) => IterationSteps(w, t, ch)
    case EnterQueued(_, _) | ReturnUnused(_) | FindNext | PostNext(_) => IterationSteps(w, t, ch)
    case TurnFree(_, _) | CompleteCall(_, _) | CountComplete(_, _) | LeaveProcessing(_, _) => FinishSteps(w, t)
    case ReturnServed(_, _) | LogServed(_) | LookAgain => FinishSteps(w, t)
    case Ended => w
  }

  /** A call object is pushed, a thread makes a step, a posted event comes due, the pool is resized, or time passes. */
  datatype Happening =
    | Pushed(t: nat, c: nat, phone: string)
    | Stepped(t: nat, ch: Choice)
    | IterationDue(t: nat, i: nat)
    | FinishDue(t: nat, f: Finish)
    | Resized(added: set<nat>, removed: set<nat>)
    | Ticked(to: int)

  /** New operators are new objects, with a free status; only free operators are removed. */
  ghost predicate Enabled(w: World, h: Happening) {
    match h
    case Pushed(t, c, _) => t !in w.threads && c !in w.records
    case Stepped(t, ch) => t in w.threads && (w.free == {} || ch.pick in w.free)
    case IterationDue(t, i) => t !in w.threads && i < |w.tasks| && w.tasks[i] <= w.now
    case FinishDue(t, f) => t !in w.threads && f in w.finishes && f.due <= w.now
    case Resized(added, removed) => added !! w.operators && added !! w.busy && removed <= w.free
    case Ticked(to) => w.now <= to
  }

  function Happen(w: World, h: Happening): World {
    match h
    case Pushed(t, c, phone) => Go(Write(w, c, NewRecord(c, phone, w.wait)), t, SetArrival(c))
    case Stepped(t, ch) => if t in w.threads then Run(w, t, ch) else w
    case IterationDue(t, i) => if i < |w.tasks| then Go(w.(tasks := RemoveAt(w.tasks, i)), t, CheckQueue) else w
    case FinishDue(t, f) => Go(w.(finishes := w.finishes - {f}), t, TurnFree(f.c, f.op))
    case Resized(added, removed) =>
      var free := w.free + added - removed;
      w.(operators := w.operators + added - removed, free := free, servers := free)
    case Ticked(to) => w.(now := to)
  }

  function History(w: World, hs: seq<Happening>): World {
    if hs == [] then w else Happen(History(w, hs[..|hs| - 1]), hs[|hs| - 1])
  }

  /** The world as happening `k` finds it. */
  function Before(w: World, hs: seq<Happening>, k: nat): World
    requires k <= |hs|
  {
    History(w, hs[..k])
  }

  /** Each happening was enabled when it came. */
  ghost predicate Possible(w: World, hs: seq<Happening>) {
    hs == [] || (Possible(w, hs[..|hs| - 1]) && Enabled(History(w, hs[..|hs| - 1]), hs[|hs| - 1]))
  }

  ghost predicate NeverResized(hs: seq<Happening>) { forall h :: h in hs ==> !h.Resized? }

  /** The history leads from `w0` to `w`. */
  ghost predicate Leads(w0: World, hs: seq<Happening>, w: World) { Possible(w0, hs) && w == History(w0, hs) }

  /** One more happening. */
  lemma LeadsOn(w0: World, hs: seq<Happening>, w: World, h: Happening)
    requires Leads(w0, hs, w) && Enabled(w, h)
    ensures Leads(w0, hs + [h], Happen(w, h))
    ensures NeverResized(hs) && !h.Resized? ==> NeverResized(hs + [h])
  {
    hide Happen, Enabled;
    assert (hs + [h])[..|hs + [h]| - 1] == hs;
  }

  // What a thread holds and which part of a call's life it is in.

  function HeldCall(pc: Pc): Option<nat> {
    match pc
    case SetArrival(c) => Some(c)
    case CountArrival(c) => Some(c)
    case TryBypass(c) => Some(c)
    case TakeForBypass(c) => Some(c)
    case EnterBypassing(c, _) => Some(c)
    case ReturnBypass(c, _) => Some(c)
    case PushToQueue(c) => Some(c)
    case Refuse(c, _, _) => Some(c)
    case CountRefusal(c, _) => Some(c)
    case CountDropout(c, _) => Some(c)
    case LogRefusal(c, _) => Some(c)
    case Answer(c, _) => Some(c)
    case CountStart(c, _) => Some(c)
    case TurnBusy(c, _) => Some(c)
    case PostFinish(c, _) => Some(c)
    case EnterQueued(c, _) => Some(c)
    case TurnFree(c, _) => Some(c)
    case CompleteCall(c, _) => Some(c)
    case CountComplete(c, _) => Some(c)
    case LeaveProcessing(c, _) => Some(c)
    case ReturnServed(c, _) => Some(c)
    case LogServed(c) => Some(c)
    case _ => None
  }

  function HeldOperator(pc: Pc): Option<nat> {
    match pc
    case EnterBypassing(_, op) => Some(op)
    case ReturnBypass(_, op) => Some(op)
    case Answer(_, op) => Some(op)
    case CountStart(_, op) => Some(op)
    case TurnBusy(_, op) => Some(op)
    case PostFinish(_, op) => Some(op)
    case PopHead(op) => Some(op)
    case EnterQueued(_, op) => Some(op)
    case ReturnUnused(op) => Some(op)
    case TurnFree(_, op) => Some(op)
    case CompleteCall(_, op) => Some(op)
    case CountComplete(_, op) => Some(op)
    case LeaveProcessing(_, op) => Some(op)
    case ReturnServed(_, op) => Some(op)
    case _ => None
  }

  /** An iteration that has neither popped a call nor found the queue empty. */
  predicate Working(pc: Pc) {
    match pc
    case Refuse(_, _, looping) => looping
    case CountRefusal(_, looping) => looping
    case CountDropout(_, looping) => looping
    case LogRefusal(_, looping) => looping
    case CheckQueue => true
    case EraseExpired => true
    case TakeForQueue => true
    case PopHead(_) => true
    case FindNext => true
    case PostNext(_) => true
    case _ => false
  }

  function Workers(w: World): set<nat> { set t | t in w.threads && Working(w.threads[t]) }

  /** An iteration at work looks after calls that expire by `x`, unless it has settled on posting a later one. */
  predicate Guards(pc: Pc, x: int) { Working(pc) && (pc.PostNext? ==> pc.at <= x) }

  function Guarding(w: World, x: int): set<nat> { set t | t in w.threads && Guards(w.threads[t], x) }

  /** The conditions the program asserts before the next operation of a thread, but one. */
  predicate AssertionHolds(w: World, t: nat)
    requires t in w.threads
  {
    match w.threads[t]
    case SetArrival(c) => !Record(w, c).WasArrived()
    case CountArrival(c) => Record(w, c).WasArrived()
    case Answer(c, _) => Record(w, c).Live()
    case CountStart(c, _) => Record(w, c).start.Some?
    case TurnBusy(_, op) => op !in w.busy
    case Refuse(c, _, _) => Record(w, c).Live()
    case CountRefusal(c, _) => Record(w, c).WasFinished()
    case LogRefusal(c, _) => Record(w, c).WasFinished()
    case CompleteCall(c, _) => Record(w, c).Live()
    case CountComplete(c, _) => Record(w, c).WasServiced() && Record(w, c).start.Some?
    case LogServed(c) => Record(w, c).WasFinished()
    case _ => true
  }

  /** One assertion depends on the pool: the operator that finishes a call has a slot in the metrics. */
  predicate SlotHolds(w: World, t: nat)
    requires t in w.threads
  {
    w.threads[t].CountComplete? ==> w.threads[t].op in w.servers
  }
}
