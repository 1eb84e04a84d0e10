/**
 The call center object: it owns the queue, the pool and the metrics and drives them event by event. Every
 method is proved to do what the engine function of the same name says.
 */
module CallCenters {
  import opened Options
  import opened Sequences
  import opened CallDetailedRecords
  import opened CallQueues
  import opened QueueingMetrics
  import opened OperatorSets
  import M = Metrics
  import E = Engines
  import S = EngineSafety
  import opened FixedPools
  import P = PooledRuns

  /** Some outcome of taking from the given free operators. */
  ghost function AnyTake(free: set<nat>): (t: E.Taken)
    ensures FixedTake(free, t)
  {
    if free == {} then E.Taken(free, None) else var op :| op in free; E.Taken(free, Some(op))
  }

  /** What was free when the operator was taken. */
  ghost function FoundBefore(left: set<nat>, op: Option<nat>): E.Taken {
    E.Taken(if op.Some? then left + {op.value} else left, op)
  }

  /**
   The pool was to have `n` operators when one was looked for: it was found exactly if fewer were out, and the pool has
   `n` of them, or those that are out if they are more.
   */
  ghost predicate Sought(before: Pool, n: nat, found: bool, after: Pool) {
    (found <==> |before.Busy()| < n) && |after.operators| == Max(n, |before.Busy()|)
  }

  /** An operator was looked for; if one was found it is out now, and it was not before. */
  ghost predicate Took(before: Pool, n: nat, op: Option<nat>, after: Pool) {
    && Sought(before, n, op.Some?, after)
    && after.Busy() == before.Busy() + P.HandSet(op) && P.HandSet(op) !! before.Busy()
  }

  /** An operator that was out came back, and the pool was to have `n` of them. */
  ghost predicate GaveBack(before: Pool, n: nat, op: nat, after: Pool) {
    && op in before.Busy() && after.Busy() == before.Busy() - {op}
    && |after.operators| == Max(n, |after.Busy()|)
  }

  lemma SoughtMeans(before: Pool, n: nat, found: bool, after: Pool)
    requires Sought(before, n, found, after)
    ensures (found <==> |before.Busy()| < n) && |after.operators| == Max(n, |before.Busy()|)
  {
  }

  lemma GaveBackMeans(before: Pool, n: nat, op: nat, after: Pool)
    requires GaveBack(before, n, op, after)
    ensures after.Busy() == before.Busy() - {op} && |after.operators| == Max(n, |before.Busy() - {op}|)
  {
  }

  lemma LetInAccepted(q: Queue, c: Call, room: nat)
    ensures LetIn(q, c, room) <==> q.Push(c, room).0 == Accepted
  {
    PushAdmitsIff(q, c, room);
  }

  lemma TookSought(before: Pool, n: nat, op: Option<nat>, after: Pool)
    requires Took(before, n, op, after)
    ensures Sought(before, n, op.Some?, after) && (op.None? ==> after.Busy() == before.Busy())
  {
  }

  /** An operator that was found and given back. */
  lemma SoughtInVain(before: Pool, n: nat, mid: Pool, op: nat, after: Pool)
    requires Took(before, n, Some(op), mid) && GaveBack(mid, n, op, after)
    ensures Sought(before, n, true, after) && after.Busy() == before.Busy()
  {
    assert before.Busy() + {op} - {op} == before.Busy();
  }

  /** Read again after a resizing the number is the same. */
  lemma ReadAgain(configured: Option<nat>, size: nat, busy: nat, resized: nat)
    requires busy <= size && resized == Max(ReadOperatorCount(configured, size), busy)
    ensures ReadOperatorCount(configured, resized) == ReadOperatorCount(configured, size)
  {
  }

  /** The record of a call that no operator answered. */
  function RefusedRecord(c: Call, reason: CallStatus, now: int): Cdr {
    Cdr(c.id, c.phone, c.maxWait, Some(c.arrival), Some(c.arrival + 1000 * c.maxWait), None, Some(now), Some(reason),
      None)
  }

  function ServedRecord(c: Call, op: nat, start: int, end: int): Cdr {
    Cdr(c.id, c.phone, c.maxWait, Some(c.arrival), Some(c.arrival + 1000 * c.maxWait), Some(start), Some(end), Some(Ok),
        Some(op))
  }

  /**
   A push, when `room` calls may wait and an operator is found or not. A call that starts at once leaves the queue
   unasked. Any other reads the capacity, is refused as a duplicate exactly if its number is entered or waits from the
   same millisecond, else for overload exactly if at least `room` calls wait, and else it joins them and the first to
   have arrived is served.
   */
  ghost predicate Pushed(e: E.Engine, r: E.Engine, c: Call, room: nat, found: bool) {
    var duplicate :=
      c.phone in e.q.processing || exists d :: d in e.q.receipt && d.phone == c.phone && d.arrival == c.arrival;
    if e.q.receipt == [] && found && c.phone !in e.q.processing then
      r.started == e.started + [c] && r.journal == e.journal && r.q.capacity == e.q.capacity
    else
      && r.q.capacity == room
      && (r.journal == e.journal + [RefusedRecord(c, AlreadyInQueue, e.now)] <==> duplicate)
      && (!duplicate ==> (r.journal == e.journal + [RefusedRecord(c, Overload, e.now)] <==> |e.q.receipt| >= room))
      && (if LetIn(e.q, c, room) then S.ServesNext(e.q.receipt + [c], e.now, found, e.started, r.started)
          else r.started == e.started)
  }

  ghost predicate LetIn(q: Queue, c: Call, room: nat) {
    && c.phone !in q.processing && |q.receipt| < room
    && forall d :: d in q.receipt && d.phone == c.phone ==> d.arrival != c.arrival
  }

  lemma PushedAsSaid(e: E.Engine, c: Call, room: nat, inp: E.Input, found: bool)
    requires Agrees(e.q) && c.arrival == e.now && forall d :: d in e.q.receipt ==> d.arrival <= c.arrival
    requires e.q.receipt == [] ==> (inp.first.op.Some? <==> found)
    requires LetIn(e.q, c, room) && (e.q.receipt != [] || !found) ==> (inp.second.op.Some? <==> found)
    ensures Pushed(e, E.PushCall(e, c, room, inp), c, room, found)
  {
    hide Agrees, E.PushCall, S.ServesNext;
    S.PushFate(e, c, room, inp);
    var r := E.PushCall(e, c, room, inp);
    assert forall x, y :: x != y ==> e.journal + [x] != e.journal + [y] by {
      assert forall x :: (e.journal + [x])[|e.journal|] == x;
    }
    assert forall x :: r.journal == e.journal + [x] ==> r.journal[|e.journal|] == x;
  }

  lemma TakenFacts(before: Pool, configured: Option<nat>, op: Option<nat>, after: Pool)
    requires before.Valid() && PoolNext(before, Take(configured, op), after)
    ensures after.Valid() && before.Busy() <= after.Busy()
    ensures op.Some? ==> op.value in after.Busy() && op.value !in before.Busy()
    ensures FoundBefore(after.free, op).Left() == after.free
    ensures P.TakeStep(before, FoundBefore(after.free, op), after)
  {
    hide Erased, ReadOperatorCount, Max;
    EraseFreeFacts(before, configured, op, after);
  }

  lemma TakenNumbers(before: Pool, configured: Option<nat>, op: Option<nat>, after: Pool)
    requires before.Valid() && PoolNext(before, Take(configured, op), after)
    ensures Took(before, ReadOperatorCount(configured, |before.operators|), op, after)
    ensures configured.Some? && configured.value >= 1 ==>
      (op.Some? <==> |before.Busy()| < configured.value)
      && |after.operators| == Max(configured.value, |before.Busy()|)
    ensures ReadOperatorCount(configured, |after.operators|) == ReadOperatorCount(configured, |before.operators|)
  {
    hide Erased, ReadOperatorCount, Max;
    EraseFreeFacts(before, configured, op, after);
    Parts(before);
    ReadAgain(configured, |before.operators|, |before.Busy()|, |after.operators|);
  }

  lemma FixedBack(free: set<nat>, t: E.Taken)
    requires FixedTake(free, t) && t.op.Some?
    ensures t.Left() + {t.op.value} == free
  {
  }

  lemma TakenFixed(before: Pool, configured: Option<nat>, op: Option<nat>, after: Pool)
    requires before.Valid() && PoolNext(before, Take(configured, op), after)
    requires ReadOperatorCount(configured, |before.operators|) == |before.operators|
    ensures after.operators == before.operators && FixedTake(before.free, FoundBefore(after.free, op))
  {
    FixedSize(before, Take(configured, op), after);
  }

  lemma ServiceKept(servers: Servers, op: nat, time: int, keep: set<nat>, after: Servers)
    requires op in servers && Kept(Complete(servers, op, time), keep, after)
    ensures op in keep ==> op in after && after[op] == servers[op].AddCompletedService(time)
  {
  }

  lemma EnteredAgrees(q: Queue, c: Call)
    ensures var (added, r) := q.InsertToProcessing(c);
      && (Agrees(q) ==> Agrees(r)) && r.receipt == q.receipt && r.timeouts == q.timeouts && (!added ==> r == q)
  {
    hide Agrees;
    if Agrees(q) { SameIndicesAgree(q, q.InsertToProcessing(c).1); }
  }

  lemma OutLess(before: Pool, after: Pool, op: nat)
    requires before.Valid() && after.Busy() == before.Busy() - {op}
    ensures |after.Busy()| <= |before.operators|
  {
    Parts(before);
  }

  lemma ReturnedFacts(before: Pool, op: nat, configured: Option<nat>, after: Pool)
    requires before.Valid() && PoolNext(before, Return(op, configured), after) && op in before.operators
    ensures after.Valid() && after.Busy() == before.Busy() - {op}
    ensures P.ReturnStep(before, op, after.free, after)
    ensures op in before.Busy() ==> GaveBack(before, ReadOperatorCount(configured, |before.operators|), op, after)
    ensures configured.Some? && configured.value >= 1 ==>
      |after.operators| == Max(configured.value, |after.Busy()|)
    ensures ReadOperatorCount(configured, |after.operators|) == ReadOperatorCount(configured, |before.operators|)
    ensures ReadOperatorCount(configured, |before.operators|) == |before.operators| ==>
      after.operators == before.operators && after.free == before.free + {op}
  {
    hide Inserted, ReadOperatorCount;
    InsertFreeFacts(before, op, configured, after);
    OutLess(before, after, op);
    ReadAgain(configured, |before.operators|, |after.Busy()|, |after.operators|);
    if ReadOperatorCount(configured, |before.operators|) == |before.operators| {
      FixedSize(before, Return(op, configured), after);
    }
  }

  function Since(from: Option<int>, to: Option<int>): int {
    if from.Some? && to.Some? then to.value - from.value else 0
  }

  /** How long the calls of a journal waited that no operator answered. */
  function RefusedWaits(j: seq<Cdr>): seq<int> {
    if j == [] then []
    else
      var r := j[|j| - 1];
      RefusedWaits(j[..|j| - 1]) + (if r.start.Some? then [] else [Since(r.arrival, r.complete)])
  }

  /** The times between successive arrivals. */
  function Gaps(arrived: seq<Call>): seq<int> {
    if |arrived| < 2 then []
    else
      var m := |arrived| - 1;
      Gaps(arrived[..m]) + [arrived[m].arrival - arrived[m - 1].arrival]
  }

  lemma {:induction false} MeasureNext(values: seq<int>, value: int)
    ensures M.Collect(0, values + [value]) == M.Collect(0, values).Add(value)
  {
    assert (values + [value])[..|values|] == values;
  }

  lemma {:induction false} RefusalMeasured(j: seq<Cdr>, r: Cdr)
    requires r.start.None? && r.arrival.Some? && r.complete.Some?
    ensures M.Collect(0, RefusedWaits(j + [r])) ==
            M.Collect(0, RefusedWaits(j)).Add(r.complete.value - r.arrival.value)
  {
    hide M.Collect;
    assert (j + [r])[..|j|] == j;
    MeasureNext(RefusedWaits(j), r.complete.value - r.arrival.value);
  }

  lemma {:induction false} ServiceUnmeasured(j: seq<Cdr>, c: Call, op: nat, start: int, end: int)
    ensures RefusedWaits(j + [ServedRecord(c, op, start, end)]) == RefusedWaits(j)
  {
    assert (j + [ServedRecord(c, op, start, end)])[..|j|] == j;
  }

  lemma {:induction false} GapMeasured(arrived: seq<Call>, c: Call)
    ensures M.Collect(0, Gaps(arrived + [c])) ==
            if arrived == [] then M.Collect(0, Gaps(arrived))
            else M.Collect(0, Gaps(arrived)).Add(c.arrival - arrived[|arrived| - 1].arrival)
  {
    hide M.Collect, M.Measure.Add, Gaps;
    GapsNext(arrived, c);
    if arrived != [] { MeasureNext(Gaps(arrived), c.arrival - arrived[|arrived| - 1].arrival); }
  }

  lemma {:induction false} GapsNext(arrived: seq<Call>, c: Call)
    ensures Gaps(arrived + [c]) ==
            if arrived == [] then Gaps(arrived) else Gaps(arrived) + [c.arrival - arrived[|arrived| - 1].arrival]
  {
    var r := arrived + [c];
    assert r[..|arrived|] == arrived;
    if arrived != [] { assert r[|arrived| - 1] == arrived[|arrived| - 1]; }
  }

  class CallCenter {
    const calls: CallQueue
    const operators: OperatorSet
    const metrics: QueueingSystemMetrics

    // The configuration as the handlers find it.
    var operatorCount: Option<nat>
    var queueCapacity: Option<nat>

    // The clock, the posted iterations and the posted finish events.
    var now: int
    var tasks: seq<int>
    var services: seq<E.Service>

    // The operators whose status is busy.
    var busy: set<nat>

    var journal: seq<Cdr>
    ghost var arrived: seq<Call>
    ghost var started: seq<Call>

    ghost function Engine(): E.Engine
      reads this, calls, operators, metrics
    {
      E.Engine(now, calls.Value(), operators.free, tasks, services, metrics.counters, arrived, started, journal)
    }

    /** The statuses are those of the posted finish events, and busy operators belong to the pool. */
    ghost predicate StatusesMatch()
      reads this`busy, this`services, operators
    {
      busy == P.Serving(services) && P.OneEach(services) && busy <= operators.Value().Busy()
    }

    ghost predicate Valid()
      reads this, calls, operators, metrics
    {
      && calls.Valid() && Agrees(calls.Value())
      && operators.Valid() && operators.metrics == metrics
      && ArrivedBefore()
      && StatusesMatch()
      && RefusalsMeasured()
      && ArrivalsMeasured()
    }

    /** The metric of refused waits has measured those of the journal. */
    ghost predicate RefusalsMeasured()
      reads this`journal, metrics`refusedWaitTime
    {
      metrics.refusedWaitTime == M.Collect(0, RefusedWaits(journal))
    }

    /** The metric of times between requests has measured those between the arrivals. */
    ghost predicate ArrivalsMeasured()
      reads this`arrived, metrics`timeBetweenRequests, metrics`prevArrival
    {
      && metrics.timeBetweenRequests == M.Collect(0, Gaps(arrived))
      && metrics.prevArrival == if arrived == [] then None else Some(arrived[|arrived| - 1].arrival)
    }

    /** If a call was started its wait was measured, and else none was. */
    ghost predicate WaitMeasured(before: seq<Call>, waits: M.Measure)
      reads this`started, this`now, metrics`waitTime
    {
      metrics.waitTime ==
        if |started| > |before| then waits.Add(now - started[|started| - 1].arrival) else waits
    }

    /** How many operators the configuration asks for. */
    ghost function Wanted(): nat
      reads this`operatorCount, operators
    {
      ReadOperatorCount(operatorCount, |operators.operators|)
    }

    /** The operators that are out. */
    ghost function Out(): set<nat>
      reads operators
    {
      operators.Value().Busy()
    }

    ghost predicate ArrivedBefore()
      reads this`now, calls`inReceiptOrder
    {
      forall c :: c in calls.inReceiptOrder ==> c.arrival <= now
    }

    /** Reading the configured number of operators yields the present number. */
    ghost predicate Fixed()
      reads this, operators
    {
      ReadOperatorCount(operatorCount, |operators.operators|) == |operators.operators|
    }

    constructor (now: int, operatorCount: Option<nat>, queueCapacity: Option<nat>)
      ensures Valid()
      ensures
        var capacity := if queueCapacity.Some? then queueCapacity.value else DefaultCapacity;
        Engine() == E.Initial(now, capacity, operators.free)
      ensures operators.free == operators.operators
      ensures |operators.operators| == ReadOperatorCount(operatorCount, DefaultOperatorCount)
      ensures metrics.servers == SetServers(map[], operators.operators) && metrics.recordingStartTime == now
      ensures metrics.waitTime == M.NewMeasure(0)
    {
      var m := new QueueingSystemMetrics(now);
      var o := new OperatorSet(operatorCount, m);
      var c := new CallQueue(queueCapacity);
      metrics, operators, calls := m, o, c;
      this.operatorCount, this.queueCapacity := operatorCount, queueCapacity;
      this.now, tasks, services, busy, journal := now, [], [], {}, [];
      arrived, started := [], [];
    }

    lemma ArrivedEarlier()
      requires ArrivedBefore()
      ensures forall d :: d in calls.inReceiptOrder ==> d.arrival <= now
    {
    }

    method RejectCall(call: Call, reason: CallStatus)
      requires Valid()
      modifies this`journal, metrics`counters, metrics`refusedWaitTime
      ensures Engine() == E.RejectCall(old(Engine()), call, reason) && Valid()
      ensures journal == old(journal) + [RefusedRecord(call, reason, now)]
    {
      hide Agrees, ArrivedBefore, CallQueue.Valid, OperatorSet.Valid, StatusesMatch, ArrivalsMeasured;
      hide M.Collect, RefusedWaits, M.Measure.Add, Counters.Dropout;
      var record := E.Waiting(call);
      assert record.Live();
      record := record.Complete(reason, now);
      metrics.RecordRequestDropout(record.WaitTime().value);
      RefusalMeasured(journal, record);
      journal := journal + [record];
    }

    method RejectAllTimeoutCalls()
      requires Valid()
      modifies this`journal, calls, metrics`counters, metrics`refusedWaitTime
      ensures Engine() == E.RejectAllTimeoutCalls(old(Engine())) && Valid()
    {
      hide RefusalsMeasured, ArrivalsMeasured;
      ghost var first := Engine();
      var toReject := EraseTimeoutCall();
      while toReject.Some?
        invariant Valid()
        invariant E.RejectAllTimeoutCalls(first) ==
          if toReject.Some? then E.RejectAllTimeoutCalls(E.RejectCall(Engine(), toReject.value, Timeout)) else Engine()
        decreases |calls.inReceiptOrder|, toReject.Some?
      {
        RejectCall(toReject.value, Timeout);
        toReject := EraseTimeoutCall();
      }
    }

    /** One step of the rejection loop: the next expired call leaves the queue. */
    method EraseTimeoutCall() returns (result: Option<Call>)
      requires Valid()
      modifies calls
      ensures Valid()
      ensures (result, calls.Value()) == old(calls.Value()).EraseTimeout(now)
      ensures result.Some? ==> |calls.inReceiptOrder| < |old(calls.inReceiptOrder)|
      ensures result.None? ==> calls.Value() == old(calls.Value())
    {
      hide Agrees, StatusesMatch, Queue.EraseTimeout, RefusalsMeasured, ArrivalsMeasured;
      ghost var q := calls.Value();
      result := calls.EraseTimeoutCallFromQueue(now);
      if result.Some? { EraseTimeoutMembers(q, now); } else { NothingErased(q, now); }
    }

    /** The call is answered; its operator turns busy and posts the end of the service. */
    method StartCallProcessing(call: Call, op: nat) returns (ghost delay: nat)
      requires Valid() && op in operators.Value().Busy() && op !in busy
      modifies this`services, this`started, this`busy, metrics`counters, metrics`waitTime
      ensures Engine() == E.StartCallProcessing(old(Engine()), call, op, delay) && Valid()
      ensures WaitMeasured(old(started), old(metrics.waitTime))
    {
      hide Agrees, ArrivedBefore, CallQueue.Valid, OperatorSet.Valid, Counters.ServiceStart, RefusalsMeasured;
      hide ArrivalsMeasured;
      hide P.Serving, P.OneEach;
      var record := E.Waiting(call);
      assert record.Live();
      record := record.Start(op, now);
      metrics.RecordServiceStart(record.WaitTime().value);
      var seconds: nat := *;
      ghost var before := services;
      services := services + [E.Service(call, op, now, now + 1000 * seconds)];
      busy := busy + {op};
      started := started + [call];
      delay := seconds;
      P.ServingAppend(before, services[|before|]);
    }

    /** Takes an operator from the pool, resized first; no busy operator is handed out or lost. */
    method TakeOperator() returns (op: Option<nat>, ghost taken: E.Taken)
      requires Valid()
      modifies operators, metrics`servers
      ensures Valid() && taken.op == op && operators.free == taken.Left()
      ensures op.Some? ==> op.value in operators.Value().Busy() && op.value !in busy
      ensures Kept(old(metrics.servers), operators.free, metrics.servers)
      ensures P.TakeStep(old(operators.Value()), taken, operators.Value())
      ensures Took(old(operators.Value()), old(Wanted()), op, operators.Value()) && Wanted() == old(Wanted())
      ensures operatorCount.Some? && operatorCount.value >= 1 ==>
        (op.Some? <==> |old(Out())| < operatorCount.value)
        && |operators.operators| == Max(operatorCount.value, |old(Out())|)
      ensures old(Fixed()) ==>
        FixedTake(old(operators.free), taken) && Unresized(old(operators.operators), old(metrics.servers))
    {
      hide RefusalsMeasured, ArrivalsMeasured, Agrees, ArrivedBefore, CallQueue.Valid, P.OneEach, P.Serving, Took;
      hide GaveBack, Sought, Max, ReadOperatorCount, PoolNext, P.TakeStep, P.ReturnStep, FixedTake;
      ghost var before := operators.Value();
      op := operators.EraseFree(operatorCount);
      TakenFacts(before, operatorCount, op, operators.Value());
      TakenNumbers(before, operatorCount, op, operators.Value());
      if old(Fixed()) { TakenFixed(before, operatorCount, op, operators.Value()); }
      taken := FoundBefore(operators.free, op);
    }

    /** The pool has its operators, and they their metrics. */
    ghost predicate Unresized(before: set<nat>, servers: Servers)
      reads operators, metrics
    {
      operators.operators == before && metrics.servers == servers
    }

    /** Gives an operator back; it must not be busy. */
    method ReturnOperator(op: nat)
      requires Valid() && op in operators.operators && op !in busy
      modifies operators, metrics`servers
      ensures Valid()
      ensures P.ReturnStep(old(operators.Value()), op, operators.free, operators.Value())
      ensures Wanted() == old(Wanted()) && Kept(old(metrics.servers), operators.free, metrics.servers)
      ensures old(op in Out()) ==> GaveBack(old(operators.Value()), old(Wanted()), op, operators.Value())
      ensures operatorCount.Some? && operatorCount.value >= 1 ==>
        |operators.operators| == Max(operatorCount.value, |Out()|)
      ensures old(Fixed()) ==>
        operators.free == old(operators.free) + {op} && Unresized(old(operators.operators), old(metrics.servers))
    {
      hide RefusalsMeasured, ArrivalsMeasured, Agrees, ArrivedBefore, CallQueue.Valid, P.OneEach, P.Serving, Took;
      hide GaveBack, Sought, Max, ReadOperatorCount, PoolNext, P.TakeStep, P.ReturnStep, FixedTake;
      ghost var before := operators.Value();
      operators.InsertFree(op, operatorCount);
      ReturnedFacts(before, op, operatorCount, operators.Value());
    }

    method PerformCallProcessingIteration() returns (ghost inp: E.Input)
      requires Valid()
      modifies this`journal, this`tasks, this`services, this`started, this`busy
      modifies calls, operators, metrics`counters, metrics`servers, metrics`waitTime, metrics`refusedWaitTime
      ensures Engine() == E.PerformCallProcessingIteration(old(Engine()), inp) && Valid()
      ensures P.IterationSteps(old(Engine()), inp, old(operators.Value()), operators.Value())
      ensures old(calls.inReceiptOrder) != [] ==>
        Sought(old(operators.Value()), old(Wanted()), inp.second.op.Some?, operators.Value())
      ensures S.ServesNext(old(calls.inReceiptOrder), now, |old(Out())| < old(Wanted()), old(started), started)
      ensures |operators.operators| ==
        if old(calls.inReceiptOrder) == [] then |old(operators.operators)| else Max(old(Wanted()), |old(Out())|)
      ensures WaitMeasured(old(started), old(metrics.waitTime))
      ensures old(Fixed()) ==>
        FixedTake(old(operators.free), inp.second) && inp.returnedAgain == old(operators.free)
        && Unresized(old(operators.operators), old(metrics.servers))
    {
      hide Agrees, E.Assign, RefusalsMeasured, ArrivalsMeasured, Sought, M.Measure.Add;
      var empty := calls.QueueIsEmpty();
      ghost var before, pool := Engine(), operators.Value();
      if empty {
        inp := E.Input(AnyTake({}), {}, AnyTake(operators.free), operators.free, 0);
        S.IterationServes(before, inp);
        return;
      }
      RejectAllTimeoutCalls();
      inp := AssignOperator();
      S.IterationServes(before, inp);
      SoughtMeans(pool, old(Wanted()), inp.second.op.Some?, operators.Value());
    }

    /** Behind the rejections: a free operator takes the head of the queue, or the next iteration is posted. */
    method AssignOperator() returns (ghost inp: E.Input)
      requires Valid()
      modifies this`tasks, this`services, this`started, this`busy
      modifies calls, operators, metrics`counters, metrics`servers, metrics`waitTime
      ensures Engine() == E.Assign(old(Engine()), inp) && Valid()
      ensures P.AssignSteps(old(Engine()), inp, old(operators.Value()), operators.Value())
      ensures Sought(old(operators.Value()), old(Wanted()), inp.second.op.Some?, operators.Value())
      ensures WaitMeasured(old(started), old(metrics.waitTime))
      ensures old(Fixed()) ==>
        FixedTake(old(operators.free), inp.second) && inp.returnedAgain == old(operators.free)
        && Unresized(old(operators.operators), old(metrics.servers))
    {
      hide Agrees, RefusalsMeasured, ArrivalsMeasured, M.Measure.Add, Sought, Took, GaveBack, Wanted, Max;
      hide ArrivedBefore, CallQueue.Valid, P.OneEach, P.Serving;
      hide E.ServeHead, E.PostNext;
      ghost var pool := operators.Value();
      var op, taken := TakeOperator();
      ghost var before, mid := Engine(), operators.Value();
      TookSought(pool, old(Wanted()), op, mid);
      if op.Some? {
        ghost var used := ServeHead(op.value);
        if before.q.receipt == [] {
          SoughtInVain(pool, old(Wanted()), mid, op.value, operators.Value());
        }
        inp := used.(second := taken);
        E.ServeHeadInputs(before, op.value, used, inp);
      } else {
        inp := E.Input(AnyTake({}), {}, taken, operators.free, 0);
        PostNext();
      }
    }

    method ServeHead(op: nat) returns (ghost inp: E.Input)
      requires Valid() && op in operators.Value().Busy() && op !in busy
      modifies this`services, this`started, this`busy
      modifies calls, operators, metrics`counters, metrics`servers, metrics`waitTime
      ensures Engine() == E.ServeHead(old(Engine()), op, inp) && Valid()
      ensures
        if old(Engine()).q.receipt != [] then operators.Value() == old(operators.Value())
        else P.ReturnStep(old(operators.Value()), op, inp.returnedAgain, operators.Value())
      ensures old(Engine()).q.receipt == [] ==>
        GaveBack(old(operators.Value()), old(Wanted()), op, operators.Value())
      ensures WaitMeasured(old(started), old(metrics.waitTime))
      ensures old(Fixed()) ==>
        inp.returnedAgain == old(operators.free) + {op} && Unresized(old(operators.operators), old(metrics.servers))
    {
      hide Agrees, ArrivedBefore, CallQueue.Valid, StatusesMatch, RefusalsMeasured, ArrivalsMeasured;
      inp := E.Input(AnyTake({}), {}, AnyTake({}), operators.free + {op}, 0);
      var call := PopCall();
      if call.Some? {
        EnterProcessing(call.value);
        ghost var delay := StartCallProcessing(call.value, op);
        inp := inp.(delay := delay);
      } else {
        ReturnOperator(op);
        inp := inp.(returnedAgain := operators.free);
      }
    }

    /** The call is entered among those in service; that it may be refused there is ignored. */
    method EnterProcessing(call: Call)
      requires Valid()
      modifies calls`inProcessing
      ensures Valid() && calls.Value() == old(calls.Value()).InsertToProcessing(call).1
    {
      hide RefusalsMeasured, ArrivalsMeasured;
      ghost var q := calls.Value();
      var _ := calls.InsertToProcessing(call);
      SameIndicesAgree(q, calls.Value());
    }

    method PostNext()
      requires Valid()
      modifies this`tasks
      ensures Engine() == E.PostNext(old(Engine())) && Valid()
    {
      var call := calls.GetMinTimeoutCallInQueue();
      if call.Some? {
        ScheduleCallProcessingIteration(call.value.Timeout());
      }
    }

    method PopCall() returns (result: Option<Call>)
      requires Valid()
      modifies calls`inReceiptOrder, calls`inTimeoutPointOrder
      ensures Valid() && (result, calls.Value()) == old(calls.Value()).Pop()
    {
      hide StatusesMatch, Agrees, Queue.Pop, RefusalsMeasured, ArrivalsMeasured;
      ghost var q := calls.Value();
      result := calls.PopFromQueue();
      PopMembers(q);
    }

    method ScheduleCallProcessingIteration(timePoint: int)
      modifies this`tasks
      ensures tasks == old(tasks) + [timePoint]
    {
      tasks := tasks + [timePoint];
    }

    method StartCallProcessingIfPossible(call: Call) returns (done: bool, ghost inp: E.Input)
      requires Valid()
      modifies this`services, this`started, this`busy
      modifies calls`inProcessing, operators, metrics`counters, metrics`servers, metrics`waitTime
      ensures (done, Engine()) == E.StartCallProcessingIfPossible(old(Engine()), call, inp) && Valid()
      ensures P.BypassSteps(old(Engine()), call, inp, old(operators.Value()), operators.Value())
      ensures old(calls.inReceiptOrder) == [] ==>
        Sought(old(operators.Value()), old(Wanted()), inp.first.op.Some?, operators.Value())
      ensures old(calls.inReceiptOrder) != [] ==> operators.Value() == old(operators.Value())
      ensures done ==> old(calls.inReceiptOrder) == [] && inp.first.op.Some?
      ensures !done ==> calls.Value() == old(calls.Value())
      ensures !done ==> operators.Value().Busy() == old(operators.Value().Busy())
      ensures !done ==> Wanted() == old(Wanted()) && started == old(started)
      ensures WaitMeasured(old(started), old(metrics.waitTime))
      ensures old(Fixed()) ==>
        FixedTake(old(operators.free), inp.first) && inp.returned == old(operators.free)
        && Unresized(old(operators.operators), old(metrics.servers))
    {
      hide Agrees, ArrivedBefore, CallQueue.Valid, StatusesMatch, RefusalsMeasured, ArrivalsMeasured;
      hide P.TakeStep, P.ReturnStep, PoolNext, FixedTake, Sought, Took, GaveBack, Wanted, Max, M.Measure.Add;
      inp := E.Input(AnyTake(operators.free), operators.free, AnyTake({}), {}, 0);
      var empty := calls.QueueIsEmpty();
      if !empty {
        return false, inp;
      }
      ghost var pool := operators.Value();
      var op, taken := TakeOperator();
      ghost var mid := operators.Value();
      TookSought(pool, old(Wanted()), op, mid);
      done := false;
      if op.Some? {
        ghost var used;
        done, used := StartBypassing(call, op.value);
        inp := used;
        if !done { SoughtInVain(pool, old(Wanted()), mid, op.value, operators.Value()); }
        if old(Fixed()) { FixedBack(pool.free, taken); }
      }
      inp := inp.(first := taken);
    }

    /** The operator found past the empty queue answers the call, unless its number is entered. */
    method StartBypassing(call: Call, op: nat) returns (done: bool, ghost inp: E.Input)
      requires Valid() && op in Out() && op !in busy
      modifies this`services, this`started, this`busy
      modifies calls`inProcessing, operators, metrics`counters, metrics`servers, metrics`waitTime
      ensures Valid()
      ensures
        var (added, q) := old(calls.Value()).InsertToProcessing(call);
        (done, Engine()) ==
          if added then (true, E.StartCallProcessing(old(Engine()).(q := q), call, op, inp.delay))
          else (false, old(Engine()).(free := inp.returned))
      ensures !done ==> calls.Value() == old(calls.Value()) && started == old(started)
      ensures if done then operators.Value() == old(operators.Value())
              else P.ReturnStep(old(operators.Value()), op, inp.returned, operators.Value())
      ensures !done ==> Wanted() == old(Wanted())
      ensures !done ==> GaveBack(old(operators.Value()), old(Wanted()), op, operators.Value())
      ensures WaitMeasured(old(started), old(metrics.waitTime))
      ensures old(Fixed()) ==>
        inp.returned == old(operators.free) + {op} && Unresized(old(operators.operators), old(metrics.servers))
    {
      hide Agrees, ArrivedBefore, CallQueue.Valid, StatusesMatch, RefusalsMeasured, ArrivalsMeasured;
      hide Queue.InsertToProcessing, E.StartCallProcessing, P.ReturnStep, GaveBack, Wanted, Max, M.Measure.Add;
      inp := E.Input(AnyTake({}), operators.free + {op}, AnyTake({}), {}, 0);
      ghost var before := calls.Value();
      done := calls.InsertToProcessing(call);
      EnteredAgrees(before, call);
      if done {
        ghost var delay := StartCallProcessing(call, op);
        inp := inp.(delay := delay);
      } else {
        ReturnOperator(op);
        inp := inp.(returned := operators.free);
      }
    }

    method PushCall(id: nat, phone: string, maxWait: nat) returns (ghost capacity: nat, ghost inp: E.Input)
      requires Valid()
      modifies this`journal, this`tasks, this`services, this`started, this`busy, this`arrived
      modifies calls, operators, metrics
      ensures Engine() == E.PushCall(old(Engine()), Call(id, phone, now, maxWait), capacity, inp) && Valid()
      ensures P.EventSteps(old(Engine()), E.Push(Call(id, phone, now, maxWait), capacity, inp),
                           old(operators.Value()), operators.Value())
      ensures capacity == old(if queueCapacity.Some? then queueCapacity.value else calls.capacity)
      ensures
        Pushed(old(Engine()), Engine(), Call(id, phone, now, maxWait), capacity, |old(Out())| < old(Wanted()))
      ensures |operators.operators| ==
        if old(calls.inReceiptOrder) == [] || LetIn(old(calls.Value()), Call(id, phone, now, maxWait), capacity)
        then Max(old(Wanted()), |old(Out())|) else |old(operators.operators)|
      ensures WaitMeasured(old(started), old(metrics.waitTime))
      ensures old(Fixed()) ==>
        FixedInput(old(Engine()), E.Push(Call(id, phone, now, maxWait), capacity, inp))
        && Unresized(old(operators.operators), old(metrics.servers))
    {
      hide Agrees, E.StartCallProcessingIfPossible, E.Enqueue, StatusesMatch, CallQueue.Valid, OperatorSet.Valid;
      hide RefusalsMeasured, M.Collect, Gaps, M.Measure.Add, Pushed, LetIn, Max, Wanted;
      hide P.BypassSteps, P.EnqueueSteps;
      var call := Call(id, phone, now, maxWait);
      var configured := if queueCapacity.Some? then queueCapacity.value else calls.capacity;
      ghost var before := Engine();
      GapMeasured(arrived, call);
      arrived := arrived + [call];
      metrics.RecordRequestArrival(now);
      assert Engine() == E.Arrive(before, call);
      capacity := configured;
      inp := StartOrEnqueue(call, configured);
      PushedAsSaid(before, call, configured, inp, |old(Out())| < old(Wanted()));
    }

    /** A call that cannot bypass the queue is pushed or refused. */
    method StartOrEnqueue(call: Call, configured: nat) returns (ghost inp: E.Input)
      requires Valid() && call.arrival == now
      modifies this`journal, this`tasks, this`services, this`started, this`busy
      modifies calls, operators, metrics`counters, metrics`servers, metrics`waitTime, metrics`refusedWaitTime
      ensures Valid()
      ensures
        var (done, r) := E.StartCallProcessingIfPossible(old(Engine()), call, inp);
        Engine() == if done then r else E.Enqueue(r, call, configured, inp)
      ensures exists mid: Pool ::
        && P.BypassSteps(old(Engine()), call, inp, old(operators.Value()), mid)
        && var (done, r) := E.StartCallProcessingIfPossible(old(Engine()), call, inp);
           if done then operators.Value() == mid
           else P.EnqueueSteps(r, call, configured, inp, mid, operators.Value())
      ensures
        var found := |old(Out())| < old(Wanted());
        && (old(calls.inReceiptOrder) == [] ==> (inp.first.op.Some? <==> found))
        && (LetIn(old(calls.Value()), call, configured) && (old(calls.inReceiptOrder) != [] || !found) ==>
              (inp.second.op.Some? <==> found))
      ensures |operators.operators| ==
        if old(calls.inReceiptOrder) == [] || LetIn(old(calls.Value()), call, configured)
        then Max(old(Wanted()), |old(Out())|) else |old(operators.operators)|
      ensures WaitMeasured(old(started), old(metrics.waitTime))
      ensures old(Fixed()) ==>
        && FixedTake(old(operators.free), inp.first) && inp.returned == old(operators.free)
        && FixedTake(old(operators.free), inp.second) && inp.returnedAgain == old(operators.free)
        && Unresized(old(operators.operators), old(metrics.servers))
    {
      hide Agrees, E.StartCallProcessingIfPossible, E.Enqueue, ArrivedBefore, StatusesMatch, CallQueue.Valid;
      hide OperatorSet.Valid, RefusalsMeasured, ArrivalsMeasured, M.Measure.Add, Sought, LetIn, Max, Wanted, Queue.Push;
      hide P.BypassSteps, P.EnqueueSteps;
      LetInAccepted(calls.Value(), call, configured);
      ghost var before, pool := Engine(), operators.Value();
      ghost var first;
      var done;
      done, first := StartCallProcessingIfPossible(call);
      ghost var middle := operators.Value();
      if before.q.receipt == [] { SoughtMeans(pool, old(Wanted()), first.first.op.Some?, middle); }
      inp := first.(second := AnyTake(old(operators.free)), returnedAgain := old(operators.free));
      if !done {
        ghost var r := Engine();
        ghost var second := Enqueue(call, configured);
        inp := second.(first := first.first, returned := first.returned);
        E.EnqueueInputs(r, call, configured, second, inp);
        P.EnqueueStepsInputs(r, call, configured, second, inp, middle, operators.Value());
        if old(Fixed()) { BypassOutcome(before, call, first); }
        if r.q.Push(call, configured).0 == Accepted {
          SoughtMeans(middle, old(Wanted()), second.second.op.Some?, operators.Value());
        }
      }
      E.BypassInputs(before, call, first, inp);
      P.BypassStepsInputs(before, call, first, inp, pool, middle);
    }

    /** The call that could not bypass the queue is pushed or refused. */
    method Enqueue(call: Call, configured: nat) returns (ghost inp: E.Input)
      requires Valid() && call.arrival == now
      modifies this`journal, this`tasks, this`services, this`started, this`busy
      modifies calls, operators, metrics`counters, metrics`servers, metrics`waitTime, metrics`refusedWaitTime
      ensures Engine() == E.Enqueue(old(Engine()), call, configured, inp) && Valid()
      ensures P.EnqueueSteps(old(Engine()), call, configured, inp, old(operators.Value()), operators.Value())
      ensures old(calls.Value()).Push(call, configured).0 != Accepted ==>
        operators.Value() == old(operators.Value())
      ensures old(calls.Value()).Push(call, configured).0 == Accepted ==>
        Sought(old(operators.Value()), old(Wanted()), inp.second.op.Some?, operators.Value())
      ensures WaitMeasured(old(started), old(metrics.waitTime))
      ensures old(Fixed()) ==>
        FixedTake(old(operators.free), inp.second) && inp.returnedAgain == old(operators.free)
        && Unresized(old(operators.operators), old(metrics.servers))
    {
      hide Agrees, ArrivedBefore, StatusesMatch, E.PerformCallProcessingIteration, Queue.Push, RefusalsMeasured;
      hide ArrivalsMeasured, Sought, M.Measure.Add;
      inp := E.Input(AnyTake({}), {}, AnyTake(operators.free), operators.free, 0);
      var result := AddToQueue(call, configured);
      match result
      case Accepted => inp := PerformCallProcessingIteration();
      case AlreadyQueued => RejectCall(call, AlreadyInQueue);
      case Overloaded => RejectCall(call, Overload);
    }

    method AddToQueue(call: Call, configured: nat) returns (result: PushResult)
      requires Valid() && call.arrival == now
      modifies calls
      ensures Valid() && (result, calls.Value()) == old(calls.Value()).Push(call, configured)
      ensures result == Accepted ==> calls.inReceiptOrder != []
    {
      hide Agrees, StatusesMatch, RefusalsMeasured, ArrivalsMeasured;
      ghost var q := calls.Value();
      result := calls.PushToQueue(call, configured);
      PushRefines(q, call, configured);
    }

    method FinishCallProcessing(i: nat) returns (ghost inp: E.Input)
      requires Valid() && i < |services| && services[i].op in metrics.servers
      modifies this`journal, this`tasks, this`services, this`started, this`busy
      modifies calls, operators, metrics`counters, metrics`servers, metrics`waitTime, metrics`refusedWaitTime
      ensures Engine() == E.FinishCallProcessing(old(Engine()), i, inp) && Valid()
      ensures P.EventSteps(old(Engine()), E.Finish(i, inp), old(operators.Value()), operators.Value())
      ensures
        var out := |old(Out()) - {old(services[i].op)}|;
        && S.ServesNext(old(calls.inReceiptOrder), now, out < old(Wanted()), old(started), started)
        && |operators.operators| == Max(old(Wanted()), out)
      ensures WaitMeasured(old(started), old(metrics.waitTime))
      ensures old(Fixed()) ==>
        FixedInput(old(Engine()), E.Finish(i, inp))
        && operators.operators == old(operators.operators)
        && metrics.servers == Complete(old(metrics.servers), old(services[i].op), now - old(services[i].start))
    {
      hide Agrees, E.PerformCallProcessingIteration, E.Release, ArrivedBefore, CallQueue.Valid, StatusesMatch;
      hide RefusalsMeasured, ArrivalsMeasured, Sought, M.Measure.Add, S.ServesNext, Wanted, GaveBack;
      hide OperatorSet.Valid, Max;
      hide P.ReturnStep, P.IterationSteps, P.EventSteps, Complete, FixedTake;
      ghost var before := operators.Value();
      ghost var op := services[i].op;
      Release(i);
      ghost var released, pool := Engine(), operators.Value();
      GaveBackMeans(before, old(Wanted()), op, pool);
      ghost var used := PerformCallProcessingIteration();
      inp := used.(returned := released.free);
      E.IterationInputs(released, used, inp);
      P.IterationStepsInputs(released, used, inp, pool, operators.Value());
      P.FinishStepsOf(old(Engine()), i, inp, before, pool, operators.Value());
    }

    /** The call is finished and recorded, and its operator is back in the pool. */
    method Release(i: nat)
      requires Valid() && i < |services| && services[i].op in metrics.servers
      modifies this`journal, this`services, this`busy
      modifies calls`inProcessing, operators, metrics`counters, metrics`servers
      ensures Engine() == E.Release(old(Engine()), i, operators.free) && Valid()
      ensures journal == old(journal) +
                         [old(ServedRecord(services[i].call, services[i].op, services[i].start, now))]
      ensures GaveBack(old(operators.Value()), old(Wanted()), old(services[i].op), operators.Value())
      ensures old(services[i].op) in operators.free ==>
        && old(services[i].op) in metrics.servers
        && metrics.servers[old(services[i].op)] ==
           old(metrics.servers[services[i].op].AddCompletedService(now - services[i].start))
      ensures Wanted() == old(Wanted())
      ensures P.ReturnStep(old(operators.Value()), old(services[i].op), operators.free, operators.Value())
      ensures old(Fixed()) ==>
        operators.free == old(operators.free) + {old(services[i].op)}
        && var servers := Complete(old(metrics.servers), old(services[i].op), now - old(services[i].start));
           Unresized(old(operators.operators), servers)
    {
      hide Agrees, ArrivedBefore, CallQueue.Valid, StatusesMatch, P.ReturnStep, ArrivalsMeasured, M.Collect;
      hide RefusedWaits, Took, GaveBack, Wanted, Max, ServedRecord, Kept, ServiceMetrics.AddCompletedService;
      hide Complete, Queue.EraseFromProcessing, Cdr.Start, Cdr.Complete, E.Waiting, Counters.ServiceComplete;
      var service := services[i];
      ghost var servers := metrics.servers;
      TakeFinishEvent(i);
      var record := CompleteCall(service);
      LeaveProcessing(service.call);
      ReturnOperator(service.op);
      ServiceKept(servers, service.op, now - service.start, operators.free, metrics.servers);
      ServiceUnmeasured(journal, service.call, service.op, service.start, now);
      journal := journal + [record];
    }

    /** The record of the call is completed and its service counted. */
    method CompleteCall(service: E.Service) returns (record: Cdr)
      requires service.op in metrics.servers
      modifies metrics`counters, metrics`servers
      ensures record == E.Waiting(service.call).Start(service.op, service.start).Complete(Ok, now)
      ensures record == ServedRecord(service.call, service.op, service.start, now)
      ensures metrics.counters == old(metrics.counters).ServiceComplete()
      ensures metrics.servers == Complete(old(metrics.servers), service.op, now - service.start)
    {
      record := E.Waiting(service.call).Start(service.op, service.start);
      assert record.Live();
      record := record.Complete(Ok, now);
      metrics.RecordServiceComplete(service.op, record.ServiceTime().value);
    }

    method LeaveProcessing(call: Call)
      requires Valid()
      modifies calls`inProcessing
      ensures Valid() && calls.Value() == old(calls.Value()).EraseFromProcessing(call)
    {
      hide RefusalsMeasured, ArrivalsMeasured;
      ghost var q := calls.Value();
      calls.EraseFromProcessing(call);
      SameIndicesAgree(q, calls.Value());
    }

    /** The finish event fires: it is no longer posted and the operator's status is free again. */
    method TakeFinishEvent(i: nat)
      requires Valid() && i < |services|
      modifies this`services, this`busy
      ensures Valid() && services == RemoveAt(old(services), i)
      ensures old(services[i].op) !in busy && old(services[i].op) in Out()
    {
      hide P.Serving, P.OneEach, RefusalsMeasured, ArrivalsMeasured;
      var op := services[i].op;
      P.ServingRemove(services, i);
      services := RemoveAt(services, i);
      busy := busy - {op};
    }

    /** A posted iteration fires. */
    method RunIteration(i: nat) returns (ghost inp: E.Input)
      requires Valid() && i < |tasks|
      modifies this`journal, this`tasks, this`services, this`started, this`busy
      modifies calls, operators, metrics`counters, metrics`servers, metrics`waitTime, metrics`refusedWaitTime
      ensures Engine() == E.Apply(old(Engine()), E.Iteration(i, inp)) && Valid()
      ensures P.EventSteps(old(Engine()), E.Iteration(i, inp), old(operators.Value()), operators.Value())
      ensures S.ServesNext(old(calls.inReceiptOrder), now, |old(Out())| < old(Wanted()), old(started), started)
      ensures |operators.operators| ==
        if old(calls.inReceiptOrder) == [] then |old(operators.operators)| else Max(old(Wanted()), |old(Out())|)
      ensures WaitMeasured(old(started), old(metrics.waitTime))
      ensures old(Fixed()) ==>
        FixedInput(old(Engine()), E.Iteration(i, inp))
        && Unresized(old(operators.operators), old(metrics.servers))
    {
      hide Agrees, StatusesMatch, RefusalsMeasured, ArrivalsMeasured;
      tasks := RemoveAt(tasks, i);
      inp := PerformCallProcessingIteration();
    }

    method AdvanceClock(to: int)
      requires Valid() && now <= to
      modifies this`now
      ensures Engine() == E.Apply(old(Engine()), E.Advance(to)) && Valid()
      ensures P.EventSteps(old(Engine()), E.Advance(to), operators.Value(), operators.Value())
    {
      hide RefusalsMeasured, ArrivalsMeasured, Agrees, StatusesMatch;
      now := to;
    }
  }
}
