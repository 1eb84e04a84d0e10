/**
 What every handler keeps under any inputs: the indices agree, no call is lost or doubled, the counters
 count, calls start in the order of their arrival, and every record adds up.
 */
module EngineSafety {
  import opened Options
  import opened CallDetailedRecords
  import opened CallQueues
  import opened Sequences
  import opened Engines

  // A handler holds at most one call that is in no collection: the one just pushed or just popped.

  function Ids(s: seq<Call>): seq<nat> { seq(|s|, i requires 0 <= i < |s| => s[i].id) }

  function ServiceIds(s: seq<Service>): seq<nat> { seq(|s|, i requires 0 <= i < |s| => s[i].call.id) }

  function RecordIds(s: seq<Cdr>): seq<nat> { seq(|s|, i requires 0 <= i < |s| => s[i].id) }

  function InHand(hand: Option<Call>): seq<nat> { if hand.Some? then [hand.value.id] else [] }

  /** Every call that arrived is in exactly one place: waiting, in service, finished or in the handler's hand. */
  ghost predicate Conserved(e: Engine, hand: Option<Call>) {
    multiset(Ids(e.arrived)) ==
      multiset(Ids(e.q.receipt)) + multiset(ServiceIds(e.services)) + multiset(RecordIds(e.journal))
      + multiset(InHand(hand))
  }

  function Refusals(j: seq<Cdr>): nat {
    if j == [] then 0 else Refusals(j[..|j| - 1]) + (if j[|j| - 1].WasServiced() then 0 else 1)
  }

  ghost predicate Counted(e: Engine, hand: Option<Call>) {
    var k := |InHand(hand)|;
    && e.counters.queueSize == |e.q.receipt| + k
    && e.counters.inSystem == |e.q.receipt| + |e.services| + k
    && e.counters.arrivals == |e.arrived|
    && e.counters.arrivals == e.counters.inSystem + |e.journal|
    && e.counters.dropouts == Refusals(e.journal)
  }

  ghost predicate InArrivalOrder(s: seq<Call>) {
    forall i, j :: 0 <= i < j < |s| ==> s[i].arrival <= s[j].arrival
  }

  /** Calls start in the order of their arrival, and none that waits or is held arrived before one that started. */
  ghost predicate NoOvertaking(e: Engine, hand: Option<Call>) {
    && InArrivalOrder(e.started)
    && (forall s, c :: s in e.started && c in e.q.receipt ==> s.arrival <= c.arrival)
    && (forall s :: s in e.started ==> s.arrival <= e.now)
    && (hand.Some? ==> forall s :: s in e.started ==> s.arrival <= hand.value.arrival)
  }

  /** The call may start now: it has just arrived, or it still has time left. */
  predicate InTime(c: Call, start: int) { start == c.arrival || (c.arrival < start && start < c.Timeout()) }

  ghost predicate Clocked(e: Engine) {
    && (forall c :: c in e.q.receipt ==> c.arrival <= e.now)
    && (forall s :: s in e.services ==> s.start <= e.now <= s.due && InTime(s.call, s.start))
  }

  /** What a finished record says about its call. */
  ghost predicate Accounted(r: Cdr) {
    && r.Valid() && r.WasFinished()
    && r.arrival.value <= r.complete.value
    && match r.status.value
       case Ok => r.start.Some? && r.operatorId.Some? && r.start.value <= r.complete.value
                  && (r.start == r.arrival || r.arrival.value < r.start.value < r.timeoutPoint.value)
       case Timeout => r.start.None? && r.operatorId.None? && r.timeoutPoint.value <= r.complete.value
       case _ => r.start.None? && r.operatorId.None? && r.complete == r.arrival
  }

  ghost predicate Recorded(e: Engine) { forall r :: r in e.journal ==> Accounted(r) }

  ghost predicate Safe(e: Engine, hand: Option<Call>) {
    && Agrees(e.q)
    && Conserved(e, hand)
    && Counted(e, hand)
    && NoOvertaking(e, hand)
    && Clocked(e)
    && Recorded(e)
    && (hand.Some? ==> hand.value.arrival <= e.now)
  }

  // Identity sequences under appending and removal.

  lemma IdsOfAppend(s: seq<Call>, c: Call)
    ensures Ids(s + [c]) == Ids(s) + [c.id]
  {
  }

  lemma IdsOfRemove(s: seq<Call>, i: nat)
    requires i < |s|
    ensures multiset(Ids(RemoveAt(s, i))) == multiset(Ids(s)) - multiset{s[i].id}
    ensures s[i].id in multiset(Ids(s))
  {
    assert Ids(RemoveAt(s, i)) == RemoveAt(Ids(s), i);
    assert Ids(s)[i] in Ids(s);
  }

  lemma ServiceIdsOfRemove(s: seq<Service>, i: nat)
    requires i < |s|
    ensures multiset(ServiceIds(RemoveAt(s, i))) == multiset(ServiceIds(s)) - multiset{s[i].call.id}
    ensures s[i].call.id in multiset(ServiceIds(s))
  {
    assert ServiceIds(RemoveAt(s, i)) == RemoveAt(ServiceIds(s), i);
    assert ServiceIds(s)[i] in ServiceIds(s);
  }

  // The pieces handlers are made of.

  lemma ArriveSafe(e: Engine, c: Call)
    requires Safe(e, None) && c.arrival == e.now
    ensures Safe(Arrive(e, c), Some(c))
  {
    hide Agrees;
    IdsOfAppend(e.arrived, c);
  }

  lemma FreeSafe(e: Engine, free: set<nat>, hand: Option<Call>)
    requires Safe(e, hand)
    ensures Safe(e.(free := free), hand)
  {
    hide Agrees;
  }

  lemma TasksSafe(e: Engine, tasks: seq<int>)
    requires Safe(e, None)
    ensures Safe(e.(tasks := tasks), None)
  {
    hide Agrees;
  }

  lemma ProcessingSafe(e: Engine, q: Queue, hand: Option<Call>)
    requires Safe(e, hand) && q.receipt == e.q.receipt && q.timeouts == e.q.timeouts
    ensures Safe(e.(q := q), hand)
  {
    hide Agrees;
    SameIndicesAgree(e.q, q);
  }

  lemma StartSafe(e: Engine, c: Call, op: nat, delay: nat)
    requires Safe(e, Some(c)) && InTime(c, e.now)
    requires forall d :: d in e.q.receipt ==> c.arrival <= d.arrival
    ensures Safe(StartCallProcessing(e, c, op, delay), None)
  {
    hide Agrees, Conserved;
    var r := StartCallProcessing(e, c, op, delay);
    StartConserved(e, c, op, delay);
    StartedInOrder(e.started, c);
  }

  lemma StartConserved(e: Engine, c: Call, op: nat, delay: nat)
    requires Conserved(e, Some(c))
    ensures Conserved(StartCallProcessing(e, c, op, delay), None)
  {
    assert ServiceIds(StartCallProcessing(e, c, op, delay).services) == ServiceIds(e.services) + [c.id];
  }

  lemma StartedInOrder(s: seq<Call>, c: Call)
    requires InArrivalOrder(s) && forall d :: d in s ==> d.arrival <= c.arrival
    ensures InArrivalOrder(s + [c])
  {
    assert forall i :: 0 <= i < |s| ==> s[i] in s;
  }

  lemma RejectSafe(e: Engine, c: Call, reason: CallStatus)
    requires Safe(e, Some(c)) && reason != Ok
    requires if reason == Timeout then c.Timeout() <= e.now else c.arrival == e.now
    ensures Safe(RejectCall(e, c, reason), None)
  {
    hide Agrees, Conserved;
    var r := RejectCall(e, c, reason);
    var record := Waiting(c).Complete(reason, e.now);
    assert Accounted(record);
    assert r.journal[..|e.journal|] == e.journal;
    RejectConserved(e, c, reason);
  }

  lemma RejectConserved(e: Engine, c: Call, reason: CallStatus)
    requires Conserved(e, Some(c))
    ensures Conserved(RejectCall(e, c, reason), None)
  {
    assert RecordIds(RejectCall(e, c, reason).journal) == RecordIds(e.journal) + [c.id];
  }

  lemma AcceptSafe(e: Engine, c: Call, capacity: nat)
    requires Safe(e, Some(c)) && c.arrival == e.now && e.q.Push(c, capacity).0 == Accepted
    ensures var q := e.q.Push(c, capacity).1; Safe(e.(q := q), None) && q.receipt == e.q.receipt + [c]
  {
    hide Agrees, Conserved;
    var q := e.q.Push(c, capacity).1;
    PushRefines(e.q, c, capacity);
    AcceptConserved(e, c, q);
  }

  lemma AcceptConserved(e: Engine, c: Call, q: Queue)
    requires Conserved(e, Some(c)) && q.receipt == e.q.receipt + [c]
    ensures Conserved(e.(q := q), None)
  {
    IdsOfAppend(e.q.receipt, c);
  }

  /** Taking any one call out of the queue puts it into the hand. */
  lemma TakeOutSafe(e: Engine, i: nat, q: Queue)
    requires Safe(e, None) && i < |e.q.receipt| && Agrees(q) && q.receipt == RemoveAt(e.q.receipt, i)
    ensures Safe(e.(q := q), Some(e.q.receipt[i]))
    ensures forall d :: d in q.receipt ==> d in e.q.receipt
  {
    hide Agrees, Conserved;
    TakeOutConserved(e, i, q);
    assert e.q.receipt[i] in e.q.receipt;
    MembersOfRemoveAt(e.q.receipt, i);
  }

  lemma TakeOutConserved(e: Engine, i: nat, q: Queue)
    requires Conserved(e, None) && i < |e.q.receipt| && q.receipt == RemoveAt(e.q.receipt, i)
    ensures Conserved(e.(q := q), Some(e.q.receipt[i]))
  {
    IdsOfRemove(e.q.receipt, i);
  }

  lemma PopSafe(e: Engine)
    requires Safe(e, None) && e.q.receipt != []
    ensures var (c, q) := e.q.Pop();
      && c == Some(e.q.receipt[0]) && q.receipt == e.q.receipt[1..] && Safe(e.(q := q), c)
      && (forall d :: d in q.receipt ==> c.value.arrival <= d.arrival)
  {
    hide Agrees;
    var k := PopAgrees(e.q);
    var q := e.q.Pop().1;
    assert q.receipt == RemoveAt(e.q.receipt, 0);
    TakeOutSafe(e, 0, q);
  }

  lemma EraseTimeoutSafe(e: Engine)
    requires Safe(e, None)
    ensures var (c, q) := e.q.EraseTimeout(e.now);
      && (c.Some? ==> Safe(e.(q := q), c) && c.value.Timeout() <= e.now && |q.receipt| + 1 == |e.q.receipt|)
      && (c.None? ==> forall d :: d in e.q.receipt ==> e.now < d.Timeout())
      && (forall d :: d in q.receipt ==> d in e.q.receipt)
  {
    hide Agrees;
    var (c, q) := e.q.EraseTimeout(e.now);
    var i := EraseTimeoutAgrees(e.q, e.now);
    if c.Some? { TakeOutSafe(e, i, q); }
  }

  lemma ReleaseSafe(e: Engine, i: nat, returned: set<nat>)
    requires Safe(e, None) && i < |e.services|
    ensures Safe(Release(e, i, returned), None)
  {
    hide Agrees, Conserved;
    var r := Release(e, i, returned);
    var s := e.services[i];
    assert s in e.services;
    ReleaseConserved(e, i, returned);
    MembersOfRemoveAt(e.services, i);
    var record := Waiting(s.call).Start(s.op, s.start).Complete(Ok, e.now);
    assert Accounted(record);
    assert r.journal[..|e.journal|] == e.journal;
    SameIndicesAgree(e.q, r.q);
  }

  lemma ReleaseConserved(e: Engine, i: nat, returned: set<nat>)
    requires Conserved(e, None) && i < |e.services|
    ensures Conserved(Release(e, i, returned), None)
  {
    ServiceIdsOfRemove(e.services, i);
    assert RecordIds(Release(e, i, returned).journal) == RecordIds(e.journal) + [e.services[i].call.id];
    assert Ids(Release(e, i, returned).q.receipt) == Ids(e.q.receipt);
  }

  lemma AdvanceSafe(e: Engine, to: int)
    requires Safe(e, None) && Enabled(e, Advance(to))
    ensures Safe(e.(now := to), None)
  {
    hide Agrees;
  }

  // The handlers.

  /** The rejection loop ends with no expired call in the queue, and only rejects. */
  lemma {:induction false} RejectAllKeeps(e: Engine)
    requires Agrees(e.q)
    ensures var r := RejectAllTimeoutCalls(e);
      && Agrees(r.q)
      && (forall c :: c in r.q.receipt ==> e.now < c.Timeout() && c in e.q.receipt)
      && r == e.(q := r.q, journal := r.journal, counters := r.counters)
      && (r == e || |r.q.receipt| < |e.q.receipt|)
    decreases |e.q.timeouts|
  {
    hide Agrees;
    var (c, q) := e.q.EraseTimeout(e.now);
    if c.Some? {
      EraseTimeoutMembers(e.q, e.now);
      RejectAllKeeps(RejectCall(e.(q := q), c.value, Timeout));
    } else {
      var i := EraseTimeoutAgrees(e.q, e.now);
    }
  }

  lemma {:induction false} RejectAllSafe(e: Engine)
    requires Safe(e, None)
    ensures Safe(RejectAllTimeoutCalls(e), None)
    decreases |e.q.timeouts|
  {
    hide Safe;
    var (c, q) := e.q.EraseTimeout(e.now);
    if c.Some? {
      EraseTimeoutSafe(e);
      RejectSafe(e.(q := q), c.value, Timeout);
      RejectAllSafe(RejectCall(e.(q := q), c.value, Timeout));
    }
  }

  /** The queue and the tasks after the rest of an iteration. */
  lemma AssignKeeps(e: Engine, inp: Input)
    requires Agrees(e.q)
    ensures var r := Assign(e, inp);
      && Agrees(r.q)
      && r.q.receipt == (if inp.second.op.Some? && e.q.receipt != [] then e.q.receipt[1..] else e.q.receipt)
      && (forall c :: c in r.q.receipt ==> c in e.q.receipt)
      && r.now == e.now && r.journal == e.journal && r.arrived == e.arrived
    ensures e.q.receipt != [] ==> e.q.timeouts != []
    ensures Assign(e, inp).tasks ==
      if inp.second.op.None? && e.q.receipt != [] then e.tasks + [e.q.timeouts[0].Timeout()] else e.tasks
  {
    hide Agrees;
    if e.q.receipt != [] {
      MinTimeoutIsLeast(e.q);
      if inp.second.op.Some? {
        var k := PopAgrees(e.q);
        ProcessingAgrees(e.q.Pop().1, e.q.receipt[0]);
        assert forall c :: c in e.q.receipt[1..] ==> c in e.q.receipt;
      }
    }
  }

  lemma ProcessingAgrees(q: Queue, c: Call)
    requires Agrees(q)
    ensures Agrees(q.InsertToProcessing(c).1)
  {
    hide Agrees;
    SameIndicesAgree(q, q.InsertToProcessing(c).1);
  }

  /** Trying to bypass the queue leaves it as it is. */
  lemma BypassKeeps(e: Engine, c: Call, inp: Input)
    ensures var r := StartCallProcessingIfPossible(e, c, inp).1;
      && r.q.receipt == e.q.receipt && r.q.timeouts == e.q.timeouts && r.tasks == e.tasks
      && r.now == e.now && r.journal == e.journal && r.arrived == e.arrived
  {
  }

  lemma AssignSafe(e: Engine, inp: Input)
    requires Safe(e, None) && forall c :: c in e.q.receipt ==> e.now < c.Timeout()
    ensures Safe(Assign(e, inp), None)
  {
    hide Agrees, Conserved, Counted, NoOvertaking, Recorded;
    var r := e.(free := inp.second.Left());
    FreeSafe(e, inp.second.Left(), None);
    if inp.second.op.Some? && r.q.receipt != [] {
      PopSafe(r);
      var (c, q) := r.q.Pop();
      var added := q.InsertToProcessing(c.value).1;
      assert c.value in r.q.receipt;
      ProcessingSafe(r.(q := q), added, c);
      StartSafe(r.(q := added), c.value, inp.second.op.value, inp.delay);
    } else if inp.second.op.Some? {
      FreeSafe(r, inp.returnedAgain, None);
    } else if r.q.MinTimeout().Some? {
      TasksSafe(r, r.tasks + [r.q.MinTimeout().value.Timeout()]);
    }
  }

  lemma IterationSafe(e: Engine, inp: Input)
    requires Safe(e, None)
    ensures Safe(PerformCallProcessingIteration(e, inp), None)
  {
    hide Agrees;
    if e.q.receipt != [] {
      RejectAllSafe(e);
      RejectAllKeeps(e);
      AssignSafe(RejectAllTimeoutCalls(e), inp);
    }
  }

  lemma BypassSafe(e: Engine, c: Call, inp: Input)
    requires Safe(e, Some(c)) && c.arrival == e.now
    ensures var (started, r) := StartCallProcessingIfPossible(e, c, inp);
            Safe(r, if started then None else Some(c)) && r.now == e.now
    ensures !StartCallProcessingIfPossible(e, c, inp).0 ==> StartCallProcessingIfPossible(e, c, inp).1.q == e.q
  {
    hide Safe;
    var r := e.(free := inp.first.Left());
    FreeSafe(e, inp.first.Left(), Some(c));
    if e.q.receipt == [] && inp.first.op.Some? {
      var (added, q) := r.q.InsertToProcessing(c);
      if added {
        ProcessingSafe(r, q, Some(c));
        StartSafe(r.(q := q), c, inp.first.op.value, inp.delay);
      } else {
        FreeSafe(r, inp.returned, Some(c));
      }
    }
  }

  lemma EnqueueSafe(e: Engine, c: Call, capacity: nat, inp: Input)
    requires Safe(e, Some(c)) && c.arrival == e.now
    ensures Safe(Enqueue(e, c, capacity, inp), None)
  {
    hide Agrees;
    var (result, q) := e.q.Push(c, capacity);
    if result == Accepted {
      AcceptSafe(e, c, capacity);
      IterationSafe(e.(q := q), inp);
    } else {
      ProcessingSafe(e, q, Some(c));
      RejectSafe(e.(q := q), c, if result == AlreadyQueued then AlreadyInQueue else Overload);
    }
  }

  lemma PushSafe(e: Engine, c: Call, capacity: nat, inp: Input)
    requires Safe(e, None) && c.arrival == e.now
    ensures Safe(PushCall(e, c, capacity, inp), None)
  {
    hide Safe;
    ArriveSafe(e, c);
    BypassSafe(Arrive(e, c), c, inp);
    var (started, r) := StartCallProcessingIfPossible(Arrive(e, c), c, inp);
    if !started { EnqueueSafe(r, c, capacity, inp); }
  }

  lemma {:induction false} EventSafe(e: Engine, ev: Event)
    requires Safe(e, None) && Enabled(e, ev)
    ensures Safe(Apply(e, ev), None)
  {
    hide Safe;
    match ev
    case Push(c, capacity, inp) => PushSafe(e, c, capacity, inp);
    case Iteration(i, inp) =>
      TasksSafe(e, RemoveAt(e.tasks, i));
      IterationSafe(e.(tasks := RemoveAt(e.tasks, i)), inp);
    case Finish(i, inp) =>
      ReleaseSafe(e, i, inp.returned);
      IterationSafe(Release(e, i, inp.returned), inp);
    case Advance(to) => AdvanceSafe(e, to);
  }

  lemma InitialSafe(now: int, capacity: nat, free: set<nat>)
    ensures Safe(Initial(now, capacity, free), None)
  {
  }

  /** Whatever calls arrive and whatever the configuration does, every state between handlers is safe. */
  lemma {:induction false} RunSafe(now: int, capacity: nat, free: set<nat>, events: seq<Event>)
    requires Feasible(Initial(now, capacity, free), events)
    ensures Safe(Exec(Initial(now, capacity, free), events), None)
  {
    hide Safe;
    InitialSafe(now, capacity, free);
    if events != [] {
      var m := |events| - 1;
      RunSafe(now, capacity, free, events[..m]);
      EventSafe(Exec(Initial(now, capacity, free), events[..m]), events[m]);
    }
  }

  // ---------------------------------------------------------------------------------------------
  // What safety says in the words of the program
  // ---------------------------------------------------------------------------------------------

  /** Calls start service in the order of their arrival, whether they bypassed the queue or waited in it. */
  lemma StartsInArrivalOrder(now: int, capacity: nat, free: set<nat>, events: seq<Event>, i: nat, j: nat)
    requires Feasible(Initial(now, capacity, free), events)
    requires i < j < |Exec(Initial(now, capacity, free), events).started|
    ensures var s := Exec(Initial(now, capacity, free), events).started; s[i].arrival <= s[j].arrival
  {
    hide Feasible, Exec;
    RunSafe(now, capacity, free, events);
  }

  /** The counters are exact, so neither of the two that go down ever wraps around. */
  lemma CountersExact(now: int, capacity: nat, free: set<nat>, events: seq<Event>)
    requires Feasible(Initial(now, capacity, free), events)
    ensures var e := Exec(Initial(now, capacity, free), events);
      && e.counters.queueSize == |e.q.receipt|
      && e.counters.inSystem == |e.q.receipt| + |e.services|
      && e.counters.arrivals == e.counters.inSystem + (|e.journal| - Refusals(e.journal)) + e.counters.dropouts
  {
    hide Feasible, Exec;
    RunSafe(now, capacity, free, events);
  }

  /** The rejection loop only adds records of refusals for waiting. */
  ghost predicate OnlyTimeouts(e: Engine, r: Engine) {
    e.journal <= r.journal && forall i :: |e.journal| <= i < |r.journal| ==> r.journal[i].status == Some(Timeout)
  }

  lemma {:induction false} RejectAllTimesOut(e: Engine)
    ensures OnlyTimeouts(e, RejectAllTimeoutCalls(e))
    decreases |e.q.timeouts|
  {
    var (c, q) := e.q.EraseTimeout(e.now);
    if c.Some? { RejectAllTimesOut(RejectCall(e.(q := q), c.value, Timeout)); }
  }

  lemma IterationTimesOut(e: Engine, inp: Input)
    requires Agrees(e.q)
    ensures OnlyTimeouts(e, PerformCallProcessingIteration(e, inp))
  {
    hide Agrees;
    if e.q.receipt != [] {
      RejectAllTimesOut(e);
      RejectAllKeeps(e);
      AssignKeeps(RejectAllTimeoutCalls(e), inp);
    }
  }

  /** The rejection loop refuses the expired calls and no other. */
  lemma {:induction false} RejectAllFates(e: Engine)
    requires Agrees(e.q)
    ensures var r := RejectAllTimeoutCalls(e);
      forall d :: d in e.q.receipt ==>
        if d.Timeout() <= e.now then Waiting(d).Complete(Timeout, e.now) in r.journal else d in r.q.receipt
    decreases |e.q.timeouts|
  {
    hide Agrees, Cdr.Complete, Waiting;
    var (c, q) := e.q.EraseTimeout(e.now);
    var i := EraseTimeoutAgrees(e.q, e.now);
    if c.Some? {
      var a := RejectCall(e.(q := q), c.value, Timeout);
      MembersOfRemoveAt(e.q.receipt, i);
      RejectAllFates(a);
      RejectAllTimesOut(a);
      assert a.journal[|e.journal|] in RejectAllTimeoutCalls(a).journal;
    }
  }

  /** A call was started by the step, and none after it. */
  predicate JustStarted(e: Engine, r: Engine, c: Call) {
    |r.started| > |e.started| && r.started[|r.started| - 1] == c
  }

  /** A waiting call is refused if it has expired, and else it still waits or has just been started. */
  lemma IterationFate(e: Engine, inp: Input, c: Call)
    requires Agrees(e.q) && c in e.q.receipt
    ensures var r := PerformCallProcessingIteration(e, inp);
      if c.Timeout() <= e.now then Waiting(c).Complete(Timeout, e.now) in r.journal && c !in r.q.receipt
      else c in r.q.receipt || JustStarted(e, r, c)
  {
    hide Agrees, Cdr.Complete, Waiting;
    RejectAllKeeps(e);
    RejectAllFates(e);
    AssignFate(RejectAllTimeoutCalls(e), inp, c);
  }

  lemma AssignFate(e: Engine, inp: Input, c: Call)
    requires Agrees(e.q)
    ensures var r := Assign(e, inp);
      && r.journal == e.journal && (c in r.q.receipt ==> c in e.q.receipt)
      && (c in e.q.receipt ==> c in r.q.receipt || JustStarted(e, r, c))
  {
    hide Agrees;
    AssignKeeps(e, inp);
    if inp.second.op.Some? && e.q.receipt != [] {
      var k := PopAgrees(e.q);
      assert forall i :: 0 < i < |e.q.receipt| ==> e.q.receipt[i] == e.q.receipt[1..][i - 1];
    }
  }

  /** Of the calls that wait and have not expired, one that arrived first. */
  ghost predicate Next(waiting: seq<Call>, now: int, c: Call) {
    c in waiting && now < c.Timeout() && forall d :: d in waiting && now < d.Timeout() ==> c.arrival <= d.arrival
  }

  /** If an operator was found and a call waits that has not expired, the one that arrived first starts. */
  ghost predicate ServesNext(waiting: seq<Call>, now: int, found: bool, before: seq<Call>, after: seq<Call>) {
    if found && exists d :: d in waiting && now < d.Timeout()
    then exists c :: Next(waiting, now, c) && after == before + [c]
    else after == before
  }

  lemma IterationServes(e: Engine, inp: Input)
    requires Agrees(e.q)
    ensures
      ServesNext(e.q.receipt, e.now, inp.second.op.Some?, e.started, PerformCallProcessingIteration(e, inp).started)
    ensures PerformCallProcessingIteration(e, inp).q.capacity == e.q.capacity
  {
    hide Agrees, Cdr.Complete, Waiting, Queue.EraseTimeout;
    RejectAllKeeps(e);
    RejectAllFates(e);
    RejectAllKeepsCapacity(e);
    var a := RejectAllTimeoutCalls(e);
    AssignServes(a, inp);
    if e.q.receipt != [] && inp.second.op.Some? && a.q.receipt != [] {
      assert Next(e.q.receipt, e.now, a.q.receipt[0]) by { assert a.q.receipt[0] in a.q.receipt; }
    }
  }

  lemma {:induction false} RejectAllKeepsCapacity(e: Engine)
    ensures RejectAllTimeoutCalls(e).q.capacity == e.q.capacity
    decreases |e.q.timeouts|
  {
    var (c, q) := e.q.EraseTimeout(e.now);
    if c.Some? { RejectAllKeepsCapacity(RejectCall(e.(q := q), c.value, Timeout)); }
  }

  lemma AssignServes(e: Engine, inp: Input)
    requires Agrees(e.q)
    ensures Assign(e, inp).q.capacity == e.q.capacity
    ensures
      if inp.second.op.Some? && e.q.receipt != [] then
        && Assign(e, inp).started == e.started + [e.q.receipt[0]]
        && forall d :: d in e.q.receipt ==> e.q.receipt[0].arrival <= d.arrival
      else Assign(e, inp).started == e.started
  {
    hide Agrees;
    if e.q.receipt != [] { var k := PopAgrees(e.q); }
  }

  /**
   What becomes of a pushed call. If no call waits, an operator is free and its number is not entered, it starts at
   once; else if its number is entered or waits from the same millisecond it is refused as a duplicate, room or not;
   else if the queue is full it is refused for overload. Else it is let in: if it will not wait it is refused at
   once, and otherwise it waits or has been started; only expired calls are refused besides.
   */
  lemma PushFate(e: Engine, c: Call, capacity: nat, inp: Input)
    requires Agrees(e.q) && c.arrival == e.now && forall d :: d in e.q.receipt ==> d.arrival <= c.arrival
    ensures
      var r := PushCall(e, c, capacity, inp);
      var entered := c.phone in e.q.processing;
      if e.q.receipt == [] && inp.first.op.Some? && !entered then
        r.started == e.started + [c] && r.journal == e.journal && r.q.capacity == e.q.capacity
      else if entered || exists d :: d in e.q.receipt && d.phone == c.phone && d.arrival == c.arrival then
        && r.journal == e.journal + [Waiting(c).Complete(AlreadyInQueue, e.now)]
        && r.started == e.started && r.q.capacity == capacity
      else if |e.q.receipt| >= capacity then
        && r.journal == e.journal + [Waiting(c).Complete(Overload, e.now)]
        && r.started == e.started && r.q.capacity == capacity
      else
        && OnlyTimeouts(e, r) && r.q.capacity == capacity
        && ServesNext(e.q.receipt + [c], e.now, inp.second.op.Some?, e.started, r.started)
        && if c.maxWait == 0 then Waiting(c).Complete(Timeout, e.now) in r.journal && c !in r.q.receipt
           else c in r.q.receipt || JustStarted(e, r, c)
  {
    hide Agrees, OnlyTimeouts, PerformCallProcessingIteration, ServesNext;
    var a := Arrive(e, c);
    BypassKeeps(a, c, inp);
    PushAdmitsIff(e.q, c, capacity);
    var (started, r) := StartCallProcessingIfPossible(a, c, inp);
    if !started {
      assert r.q == e.q;
      var (result, q) := r.q.Push(c, capacity);
      if result == Accepted { LetInFate(e, r, c, capacity, inp); }
    }
  }

  lemma LetInFate(e: Engine, r: Engine, c: Call, capacity: nat, inp: Input)
    requires Agrees(e.q) && r.q == e.q && r.now == e.now && r.journal == e.journal && r.started == e.started
    requires c.arrival == e.now && (forall d :: d in e.q.receipt ==> d.arrival <= c.arrival)
    requires e.q.Push(c, capacity).0 == Accepted
    ensures var last := PerformCallProcessingIteration(r.(q := e.q.Push(c, capacity).1), inp);
      && OnlyTimeouts(e, last) && last.q.capacity == capacity
      && ServesNext(e.q.receipt + [c], e.now, inp.second.op.Some?, e.started, last.started)
      && if c.maxWait == 0 then Waiting(c).Complete(Timeout, e.now) in last.journal && c !in last.q.receipt
         else c in last.q.receipt || JustStarted(e, last, c)
  {
    hide Agrees, OnlyTimeouts, Queue.Push, PerformCallProcessingIteration, Cdr.Complete, Waiting, ServesNext;
    var q := e.q.Push(c, capacity).1;
    assert q.capacity == capacity by { PushReadsCapacity(e.q, c, capacity); }
    PushKeepsAgreement(e.q, c, capacity);
    PushRefines(e.q, c, capacity);
    IterationServes(r.(q := q), inp);
    assert c in q.receipt;
    IterationTimesOut(r.(q := q), inp);
    SameJournal(e, r.(q := q), PerformCallProcessingIteration(r.(q := q), inp));
    IterationFate(r.(q := q), inp, c);
  }

  lemma PushReadsCapacity(q: Queue, c: Call, capacity: nat)
    ensures q.Push(c, capacity).1.capacity == capacity
  {
  }

  lemma SameJournal(e: Engine, a: Engine, r: Engine)
    requires a.journal == e.journal && OnlyTimeouts(a, r)
    ensures OnlyTimeouts(e, r)
  {
  }

  /** No more calls wait than the largest capacity that was configured at a push. */
  lemma {:induction false} QueueWithinCapacity(now: int, capacity: nat, free: set<nat>, events: seq<Event>, bound: nat)
    requires Feasible(Initial(now, capacity, free), events)
    requires forall ev :: ev in events && ev.Push? ==> ev.capacity <= bound
    ensures |Exec(Initial(now, capacity, free), events).q.receipt| <= bound
  {
    hide Safe, Apply, Enabled;
    if events != [] {
      var m := |events| - 1;
      assert events[m] in events && forall ev :: ev in events[..m] ==> ev in events;
      QueueWithinCapacity(now, capacity, free, events[..m], bound);
      RunSafe(now, capacity, free, events[..m]);
      EventSize(Exec(Initial(now, capacity, free), events[..m]), events[m], bound);
    }
  }

  lemma {:induction false} EventSize(e: Engine, ev: Event, bound: nat)
    requires Safe(e, None) && Enabled(e, ev) && |e.q.receipt| <= bound && (ev.Push? ==> ev.capacity <= bound)
    ensures |Apply(e, ev).q.receipt| <= bound
  {
    hide Agrees, Conserved, Counted, Recorded;
    match ev
    case Push(c, capacity, inp) =>
      var a := Arrive(e, c);
      BypassKeeps(a, c, inp);
      var (started, r) := StartCallProcessingIfPossible(a, c, inp);
      if !started { EnqueueSize(r, c, capacity, inp, bound); }
    case Iteration(i, inp) => IterationSize(e.(tasks := RemoveAt(e.tasks, i)), inp);
    case Finish(i, inp) =>
      SameIndicesAgree(e.q, Release(e, i, inp.returned).q);
      IterationSize(Release(e, i, inp.returned), inp);
    case Advance(to) =>
  }

  lemma EnqueueSize(e: Engine, c: Call, capacity: nat, inp: Input, bound: nat)
    requires Agrees(e.q) && |e.q.receipt| <= bound && capacity <= bound
    requires forall d :: d in e.q.receipt ==> d.arrival <= c.arrival
    ensures |Enqueue(e, c, capacity, inp).q.receipt| <= bound
  {
    hide Agrees, Refines;
    PushRefines(e.q, c, capacity);
    PushAdmitsIff(e.q, c, capacity);
    var (result, q) := e.q.Push(c, capacity);
    if result == Accepted {
      assert Agrees(q) by { PushKeepsAgreement(e.q, c, capacity); }
      IterationSize(e.(q := q), inp);
    }
  }

  lemma PushKeepsAgreement(q: Queue, c: Call, capacity: nat)
    requires Agrees(q) && forall d :: d in q.receipt ==> d.arrival <= c.arrival
    ensures Agrees(q.Push(c, capacity).1)
  {
    hide Agrees;
    PushRefines(q, c, capacity);
  }

  lemma IterationSize(e: Engine, inp: Input)
    requires Agrees(e.q)
    ensures |PerformCallProcessingIteration(e, inp).q.receipt| <= |e.q.receipt|
  {
    hide Agrees;
    if e.q.receipt != [] {
      RejectAllKeeps(e);
      AssignKeeps(RejectAllTimeoutCalls(e), inp);
    }
  }

  /**
   Wait bounds and time accounting: a call served from the queue waited less than its longest wait, a call
   refused for its wait waited at least as long, and the total time is the time between arrival and end.
   */
  lemma RecordsAddUp(now: int, capacity: nat, free: set<nat>, events: seq<Event>, r: Cdr)
    requires Feasible(Initial(now, capacity, free), events)
    requires r in Exec(Initial(now, capacity, free), events).journal
    ensures r.Valid() && r.WasFinished() && (r.WasServiced() ==> r.start.Some?)
    ensures r.TotalTime() == Some(r.complete.value - r.arrival.value)
    ensures r.WasServiced() ==>
      0 <= r.WaitTime().value && (r.WaitTime().value == 0 || r.WaitTime().value < 1000 * r.maxWait)
    ensures r.status == Some(Timeout) ==> r.WaitTime().value >= 1000 * r.maxWait
    ensures r.status == Some(Overload) || r.status == Some(AlreadyInQueue) ==> r.TotalTime() == Some(0)
  {
    hide Feasible, Exec;
    RunSafe(now, capacity, free, events);
    assert Accounted(r);
    TotalTimeIsTimeInSystemIff(r);
  }
}
