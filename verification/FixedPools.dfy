/**
 Runs in which the configured number of operators never changes: no operator is idle while a call waits,
 every refusal for waiting comes exactly on time whatever the longest waits are, and the served load
 never exceeds the number of operators.
 */
module FixedPools {
  import opened Options
  import opened CallDetailedRecords
  import opened CallQueues
  import opened Sequences
  import opened QueueingMetrics
  import opened OperatorSets
  import opened Engines
  import opened EngineSafety
  import opened Deadlines

  /** Taking from a pool of fixed size: some free operator, or none if there is none. */
  ghost predicate FixedTake(free: set<nat>, t: Taken) {
    && t.found == free
    && (t.op.None? ==> free == {})
    && (t.op.Some? ==> t.op.value in free)
  }

  ghost predicate FixedInput(e: Engine, ev: Event) {
    match ev
    case Push(_, _, inp) =>
      && FixedTake(e.free, inp.first) && inp.returned == e.free
      && FixedTake(e.free, inp.second) && inp.returnedAgain == e.free
    case Iteration(_, inp) => FixedTake(e.free, inp.second) && inp.returnedAgain == e.free
    case Finish(i, inp) =>
      i < |e.services| ==>
        && inp.returned == e.free + {e.services[i].op}
        && FixedTake(inp.returned, inp.second) && inp.returnedAgain == inp.returned
    case Advance(_) => true
  }

  /** The inputs of a fixed pool are what `EraseFree` and `InsertFree` do when each read yields the present size. */
  lemma FixedPoolTakes(before: Pool, configured: Option<nat>, op: Option<nat>, after: Pool)
    requires before.Valid() && PoolNext(before, Take(configured, op), after)
    requires ReadOperatorCount(configured, |before.operators|) == |before.operators|
    ensures FixedTake(before.free, Taken(before.free, op)) && after.free == Taken(before.free, op).Left()
    ensures op.Some? ==>
      forall again: Pool :: PoolNext(after, Return(op.value, configured), again) ==> again.free == before.free
  {
    var step := Take(configured, op);
    FixedSize(before, step, after);
    if op.Some? {
      forall again: Pool | PoolNext(after, Return(op.value, configured), again) ensures again.free == before.free {
        FixedSize(after, Return(op.value, configured), again);
      }
    }
  }

  // ---------------------------------------------------------------------------------------------
  // What a handler does to the pool
  // ---------------------------------------------------------------------------------------------

  ghost predicate Untouched(e: Engine, r: Engine) { r.now == e.now && r.free == e.free && r.services == e.services }

  /** A free operator has begun to serve a call. */
  ghost predicate Began(e: Engine, r: Engine, op: nat) {
    var n := |e.services|;
    && op in e.free && r.free == e.free - {op} && r.now == e.now
    && |r.services| == n + 1 && r.services[..n] == e.services
    && r.services[n].op == op && r.services[n].start == e.now
  }

  /** At most one operator has begun, and no call was served to its end. */
  ghost predicate Moved(e: Engine, r: Engine) {
    && ServicedIn(r.journal) == ServicedIn(e.journal)
    && (Untouched(e, r) || exists op :: Began(e, r, op))
  }

  function ServicedIn(j: seq<Cdr>): int { |j| - Refusals(j) }

  lemma RejectServiced(e: Engine, c: Call, reason: CallStatus)
    requires reason != Ok
    ensures ServicedIn(RejectCall(e, c, reason).journal) == ServicedIn(e.journal)
  {
    var r := RejectCall(e, c, reason);
    assert r.journal[..|e.journal|] == e.journal;
  }

  lemma {:induction false} RejectAllServiced(e: Engine)
    ensures ServicedIn(RejectAllTimeoutCalls(e).journal) == ServicedIn(e.journal)
    decreases |e.q.timeouts|
  {
    var (c, q) := e.q.EraseTimeout(e.now);
    if c.Some? {
      RejectServiced(e.(q := q), c.value, Timeout);
      RejectAllServiced(RejectCall(e.(q := q), c.value, Timeout));
    }
  }

  /** An iteration leaves the pool as it was or lets one operator begin; it serves no call to its end. */
  lemma IterationOutcome(e: Engine, inp: Input)
    requires Agrees(e.q) && FixedTake(e.free, inp.second) && inp.returnedAgain == e.free
    ensures Moved(e, PerformCallProcessingIteration(e, inp))
  {
    if e.q.receipt != [] {
      RejectAllServiced(e);
      RejectAllKeeps(e);
      AssignOutcome(RejectAllTimeoutCalls(e), inp);
      MovedBehind(e, RejectAllTimeoutCalls(e), Assign(RejectAllTimeoutCalls(e), inp));
    }
  }

  lemma AssignOutcome(e: Engine, inp: Input)
    requires Agrees(e.q) && FixedTake(e.free, inp.second) && inp.returnedAgain == e.free
    ensures Moved(e, Assign(e, inp))
  {
    AssignKeeps(e, inp);
    if inp.second.op.Some? && e.q.receipt != [] {
      assert Began(e, Assign(e, inp), inp.second.op.value);
    }
  }

  lemma MovedBehind(e: Engine, a: Engine, r: Engine)
    requires Untouched(e, a) && ServicedIn(a.journal) == ServicedIn(e.journal) && Moved(a, r)
    ensures Moved(e, r)
  {
    if !Untouched(a, r) {
      var op :| Began(a, r, op);
      assert Began(e, r, op);
    }
  }

  lemma BypassOutcome(e: Engine, c: Call, inp: Input)
    requires FixedTake(e.free, inp.first) && inp.returned == e.free
    ensures var (started, r) := StartCallProcessingIfPossible(e, c, inp);
      if started then inp.first.op.Some? && Began(e, r, inp.first.op.value) else Untouched(e, r)
  {
  }

  lemma PushOutcome(e: Engine, c: Call, capacity: nat, inp: Input)
    requires Agrees(e.q) && NoneFromTheFuture(e) && c.arrival == e.now && FixedInput(e, Push(c, capacity, inp))
    ensures Moved(e, PushCall(e, c, capacity, inp))
  {
    var a := Arrive(e, c);
    BypassKeeps(a, c, inp);
    BypassOutcome(a, c, inp);
    var (started, r) := StartCallProcessingIfPossible(a, c, inp);
    if started {
      assert Began(e, r, inp.first.op.value);
    } else {
      EnqueueOutcome(r, c, capacity, inp);
      MovedBehind(e, r, Enqueue(r, c, capacity, inp));
    }
  }

  lemma EnqueueOutcome(e: Engine, c: Call, capacity: nat, inp: Input)
    requires Agrees(e.q) && NoneFromTheFuture(e) && c.arrival == e.now
    requires FixedTake(e.free, inp.second) && inp.returnedAgain == e.free
    ensures Moved(e, Enqueue(e, c, capacity, inp))
  {
    var (result, q) := e.q.Push(c, capacity);
    if result == Accepted {
      PushRefines(e.q, c, capacity);
      IterationOutcome(e.(q := q), inp);
      MovedBehind(e, e.(q := q), Enqueue(e, c, capacity, inp));
    } else {
      RejectServiced(e.(q := q), c, if result == AlreadyQueued then AlreadyInQueue else Overload);
    }
  }

  /** The engine when the handler has dealt with its event and turns to the queue. */
  function Handled(e: Engine, ev: Event): Engine {
    match ev
    case Push(_, _, _) => e
    case Iteration(i, _) => if i < |e.tasks| then e.(tasks := RemoveAt(e.tasks, i)) else e
    case Finish(i, inp) => if i < |e.services| then Release(e, i, inp.returned) else e
    case Advance(to) => e.(now := to)
  }

  lemma {:induction false} EventOutcome(e: Engine, ev: Event)
    requires Agrees(e.q) && NoneFromTheFuture(e) && Enabled(e, ev) && FixedInput(e, ev)
    ensures Moved(Handled(e, ev), Apply(e, ev))
  {
    match ev
    case Push(c, capacity, inp) => PushOutcome(e, c, capacity, inp);
    case Iteration(i, inp) => IterationOutcome(Handled(e, ev), inp);
    case Finish(i, inp) => IterationOutcome(Handled(e, ev), inp);
    case Advance(to) =>
  }

  // ---------------------------------------------------------------------------------------------
  // Operators are free or serve one call
  // ---------------------------------------------------------------------------------------------

  ghost predicate Partitioned(e: Engine, operators: set<nat>) {
    && e.free <= operators
    && (forall s :: s in e.services ==> s.op in operators && s.op !in e.free)
    && (forall i, j :: 0 <= i < j < |e.services| ==> e.services[i].op != e.services[j].op)
    && (forall op :: op in operators && op !in e.free ==> exists s :: s in e.services && s.op == op)
  }

  lemma BeganPartitioned(e: Engine, r: Engine, op: nat, operators: set<nat>)
    requires Partitioned(e, operators) && Began(e, r, op)
    ensures Partitioned(r, operators)
  {
    var n := |e.services|;
    assert r.services == e.services + [r.services[n]];
    forall o | o in operators && o !in r.free ensures exists s :: s in r.services && s.op == o {
      if o == op {
        assert r.services[n] in r.services;
      } else {
        var s :| s in e.services && s.op == o;
        assert s in r.services;
      }
    }
    forall i, j | 0 <= i < j < |r.services| ensures r.services[i].op != r.services[j].op {
      assert r.services[i] == e.services[i] && e.services[i] in e.services;
    }
  }

  lemma ReleasePartitioned(e: Engine, operators: set<nat>, i: nat)
    requires Partitioned(e, operators) && i < |e.services|
    ensures Partitioned(Release(e, i, e.free + {e.services[i].op}), operators)
  {
    var s := e.services[i];
    var r := Release(e, i, e.free + {s.op});
    MembersOfRemoveAt(e.services, i);
    assert s in e.services;
    forall p | p in r.services ensures p.op != s.op {
      var j :| 0 <= j < |r.services| && r.services[j] == p;
      assert p == e.services[if j < i then j else j + 1];
    }
    forall op | op in operators && op !in r.free ensures exists p :: p in r.services && p.op == op {
      var p :| p in e.services && p.op == op;
      assert p in r.services;
    }
  }

  lemma MovedPartitioned(e: Engine, r: Engine, operators: set<nat>)
    requires Partitioned(e, operators) && Moved(e, r)
    ensures Partitioned(r, operators)
  {
    if !Untouched(e, r) {
      var op :| Began(e, r, op);
      BeganPartitioned(e, r, op, operators);
    }
  }

  lemma {:induction false} HandledPartitioned(e: Engine, ev: Event, operators: set<nat>)
    requires Partitioned(e, operators) && FixedInput(e, ev)
    ensures Partitioned(Handled(e, ev), operators)
  {
    if ev.Finish? && ev.i < |e.services| { ReleasePartitioned(e, operators, ev.i); }
  }

  // ---------------------------------------------------------------------------------------------
  // Work conservation and exact timeouts
  // ---------------------------------------------------------------------------------------------

  ghost predicate WorkConserving(e: Engine) { e.q.receipt != [] ==> e.free == {} }

  /** An iteration is posted no later than the least timeout point. */
  ghost predicate Prompt(e: Engine) {
    e.q.receipt != [] ==> exists t :: t in e.tasks && forall c :: c in e.q.receipt ==> t <= c.Timeout()
  }

  /** An iteration that finds no operator posts the next one. */
  lemma BusyIteration(e: Engine, inp: Input)
    requires Agrees(e.q) && e.free == {} && FixedTake(e.free, inp.second)
    ensures var r := PerformCallProcessingIteration(e, inp); WorkConserving(r) && Prompt(r)
  {
    if e.q.receipt != [] {
      RejectAllKeeps(e);
      var a := RejectAllTimeoutCalls(e);
      AssignKeeps(a, inp);
      if a.q.receipt != [] {
        MinTimeoutIsLeast(a.q);
        assert a.q.timeouts[0].Timeout() in a.tasks + [a.q.timeouts[0].Timeout()];
      }
    }
  }

  /** An iteration with the one operator just returned hands it to the head of the queue. */
  lemma ReturnedIteration(e: Engine, inp: Input)
    requires Agrees(e.q) && Prompt(e) && FixedTake(e.free, inp.second)
    requires e.q.receipt != [] ==> exists op :: e.free == {op}
    ensures var r := PerformCallProcessingIteration(e, inp); WorkConserving(r) && Prompt(r)
  {
    if e.q.receipt != [] {
      RejectAllKeeps(e);
      var a := RejectAllTimeoutCalls(e);
      AssignKeeps(a, inp);
      var r := Assign(a, inp);
      if a.q.receipt != [] {
        var k := PopAgrees(a.q);
        assert r.free == inp.second.Left();
      }
    }
  }

  lemma {:induction false} EventPrompt(e: Engine, ev: Event)
    requires Agrees(e.q) && NoneFromTheFuture(e) && Enabled(e, ev) && FixedInput(e, ev)
    requires WorkConserving(e) && Prompt(e)
    ensures WorkConserving(Apply(e, ev)) && Prompt(Apply(e, ev))
  {
    match ev
    case Push(c, capacity, inp) => PushPrompt(e, c, capacity, inp);
    case Iteration(i, inp) =>
      if e.q.receipt != [] { BusyIteration(e.(tasks := RemoveAt(e.tasks, i)), inp); }
    case Finish(i, inp) =>
      var r := Release(e, i, inp.returned);
      if e.q.receipt != [] { assert r.free == {e.services[i].op}; }
      ReturnedIteration(r, inp);
    case Advance(to) =>
  }

  lemma PushPrompt(e: Engine, c: Call, capacity: nat, inp: Input)
    requires Agrees(e.q) && NoneFromTheFuture(e) && c.arrival == e.now && FixedInput(e, Push(c, capacity, inp))
    requires WorkConserving(e) && Prompt(e)
    ensures WorkConserving(PushCall(e, c, capacity, inp)) && Prompt(PushCall(e, c, capacity, inp))
  {
    var a := Arrive(e, c);
    BypassKeeps(a, c, inp);
    var (started, r) := StartCallProcessingIfPossible(a, c, inp);
    if !started {
      var (result, q) := r.q.Push(c, capacity);
      if result == Accepted {
        PushRefines(r.q, c, capacity);
        assert r.free == {};
        BusyIteration(r.(q := q), inp);
      } else {
        assert r.free == e.free;
        assert q.receipt == e.q.receipt;
      }
    }
  }

  lemma PromptStops(e: Engine, to: int)
    requires Prompt(e) && Enabled(e, Advance(to))
    ensures forall c :: c in e.q.receipt ==> to <= c.Timeout()
  {
    if e.q.receipt != [] {
      var t :| t in e.tasks && forall c :: c in e.q.receipt ==> t <= c.Timeout();
    }
  }

  // ---------------------------------------------------------------------------------------------
  // The served load
  // ---------------------------------------------------------------------------------------------

  /** The engine together with the metrics of its operators. */
  datatype System = System(e: Engine, served: Servers)

  /** A finish event records the service it completes. */
  function ServedAfter(s: System, ev: Event): Servers {
    if ev.Finish? && ev.i < |s.e.services|
    then Complete(s.served, s.e.services[ev.i].op, s.e.now - s.e.services[ev.i].start)
    else s.served
  }

  function Step(s: System, ev: Event): System { System(Apply(s.e, ev), ServedAfter(s, ev)) }

  function Simulate(s: System, events: seq<Event>): System {
    if events == [] then s else Step(Simulate(s, events[..|events| - 1]), events[|events| - 1])
  }

  function InitialSystem(now: int, capacity: nat, operators: set<nat>): System {
    System(Initial(now, capacity, operators), SetServers(map[], operators))
  }

  /** No operator has served longer than it could have: up to now if free, else up to its present service. */
  ghost predicate LoadBounded(s: System, since: int) {
    && (forall op :: op in s.served && op in s.e.free ==> s.served[op].totalServiceTime <= s.e.now - since)
    && (forall p :: p in s.e.services && p.op in s.served ==> s.served[p.op].totalServiceTime <= p.start - since)
  }

  lemma MovedLoad(e: Engine, r: Engine, served: Servers, since: int)
    requires LoadBounded(System(e, served), since) && Moved(e, r)
    ensures LoadBounded(System(r, served), since)
  {
    if !Untouched(e, r) {
      var op :| Began(e, r, op);
      var n := |e.services|;
      assert r.services == e.services + [r.services[n]];
    }
  }

  lemma ReleaseServiced(e: Engine, i: nat, returned: set<nat>)
    requires i < |e.services|
    ensures ServicedIn(Release(e, i, returned).journal) == ServicedIn(e.journal) + 1
  {
    assert Release(e, i, returned).journal[..|e.journal|] == e.journal;
  }

  lemma ReleaseLoad(s: System, i: nat, since: int, operators: set<nat>)
    requires LoadBounded(s, since) && Partitioned(s.e, operators) && i < |s.e.services|
    ensures var p := s.e.services[i];
      LoadBounded(System(Release(s.e, i, s.e.free + {p.op}), Complete(s.served, p.op, s.e.now - p.start)), since)
  {
    var p := s.e.services[i];
    assert p in s.e.services;
    MembersOfRemoveAt(s.e.services, i);
    forall o | o in RemoveAt(s.e.services, i) ensures o.op != p.op {
      var j :| 0 <= j < |s.e.services| - 1 && RemoveAt(s.e.services, i)[j] == o;
      assert o == s.e.services[if j < i then j else j + 1];
    }
  }

  ghost predicate PoolSafe(s: System, operators: set<nat>, since: int) {
    && Partitioned(s.e, operators)
    && s.served.Keys == operators && LoadBounded(s, since) && Serviced(s.served) == ServicedIn(s.e.journal)
    && since <= s.e.now
  }

  ghost predicate SystemSafe(s: System, operators: set<nat>, since: int) {
    Safe(s.e, None) && OnTime(s.e) && WorkConserving(s.e) && Prompt(s.e) && PoolSafe(s, operators, since)
  }

  lemma {:induction false} HandledLoad(s: System, ev: Event, operators: set<nat>, since: int)
    requires Partitioned(s.e, operators) && LoadBounded(s, since) && FixedInput(s.e, ev)
    requires ev.Advance? ==> s.e.now <= ev.to
    ensures LoadBounded(System(Handled(s.e, ev), ServedAfter(s, ev)), since)
  {
    if ev.Finish? && ev.i < |s.e.services| { ReleaseLoad(s, ev.i, since, operators); }
  }

  lemma {:induction false} HandledServiced(s: System, ev: Event, operators: set<nat>)
    requires Partitioned(s.e, operators) && s.served.Keys == operators && Serviced(s.served) == ServicedIn(s.e.journal)
    ensures ServedAfter(s, ev).Keys == operators && Serviced(ServedAfter(s, ev)) == ServicedIn(Handled(s.e, ev).journal)
  {
    hide Serviced, ServicedIn, Release;
    if ev.Finish? && ev.i < |s.e.services| {
      var p := s.e.services[ev.i];
      assert p in s.e.services;
      assert p.op in s.served;
      ReleaseServiced(s.e, ev.i, ev.inp.returned);
      CompleteAdds(s.served, p.op, s.e.now - p.start);
    }
  }

  lemma {:induction false} EventPool(s: System, ev: Event, operators: set<nat>, since: int)
    requires Agrees(s.e.q) && NoneFromTheFuture(s.e) && PoolSafe(s, operators, since) && Enabled(s.e, ev)
      && FixedInput(s.e, ev)
    ensures PoolSafe(Step(s, ev), operators, since)
  {
    EventOutcome(s.e, ev);
    HandledPartitioned(s.e, ev, operators);
    HandledLoad(s, ev, operators, since);
    HandledServiced(s, ev, operators);
    MovedPool(Handled(s.e, ev), Apply(s.e, ev), ServedAfter(s, ev), operators, since);
  }

  lemma MovedPool(e: Engine, r: Engine, served: Servers, operators: set<nat>, since: int)
    requires Moved(e, r) && PoolSafe(System(e, served), operators, since)
    ensures PoolSafe(System(r, served), operators, since)
  {
    MovedPartitioned(e, r, operators);
    MovedLoad(e, r, served, since);
  }

  lemma {:induction false} EventSystemSafe(s: System, ev: Event, operators: set<nat>, since: int)
    requires SystemSafe(s, operators, since) && Enabled(s.e, ev) && FixedInput(s.e, ev)
    ensures SystemSafe(Step(s, ev), operators, since)
  {
    hide Agrees, PoolSafe;
    EventSafe(s.e, ev);
    if ev.Advance? { PromptStops(s.e, ev.to); }
    EventOnTime(s.e, ev);
    EventPrompt(s.e, ev);
    EventPool(s, ev, operators, since);
  }

  lemma InitialSystemSafe(now: int, capacity: nat, operators: set<nat>)
    ensures SystemSafe(InitialSystem(now, capacity, operators), operators, now)
  {
    InitialSafe(now, capacity, operators);
    var s := InitialSystem(now, capacity, operators);
    SumOfZero(Counts(s.served));
  }

  /** Every read of the configured count yields the present size. */
  ghost predicate FixedRun(e: Engine, events: seq<Event>) {
    events != [] ==>
      var m := |events| - 1;
      FixedRun(e, events[..m]) && FixedInput(Exec(e, events[..m]), events[m])
  }

  lemma {:induction false} RunSystemSafe(now: int, capacity: nat, operators: set<nat>, events: seq<Event>)
    requires Feasible(Initial(now, capacity, operators), events) && FixedRun(Initial(now, capacity, operators), events)
    ensures var s := Simulate(InitialSystem(now, capacity, operators), events);
            SystemSafe(s, operators, now) && s.e == Exec(Initial(now, capacity, operators), events)
  {
    hide SystemSafe, Apply, Enabled;
    InitialSystemSafe(now, capacity, operators);
    if events != [] {
      var first := Initial(now, capacity, operators);
      var m := |events| - 1;
      RunSystemSafe(now, capacity, operators, events[..m]);
      EventSystemSafe(Simulate(InitialSystem(now, capacity, operators), events[..m]), events[m], operators, now);
    }
  }

  // ---------------------------------------------------------------------------------------------
  // The theorems
  // ---------------------------------------------------------------------------------------------

  /**
   Exact timeouts. With a fixed number of operators, and longest waits of any lengths, a waiting call always
   has an iteration posted no later than its timeout point, and every refusal for waiting falls on it.
   */
  lemma TimeoutsExact(now: int, capacity: nat, operators: set<nat>, events: seq<Event>)
    requires Feasible(Initial(now, capacity, operators), events) && FixedRun(Initial(now, capacity, operators), events)
    ensures var e := Exec(Initial(now, capacity, operators), events);
      && (e.q.receipt != [] ==> exists t :: t in e.tasks && forall c :: c in e.q.receipt ==> t <= c.Timeout())
      && (forall c :: c in e.q.receipt ==> e.now <= c.Timeout())
      && (forall r :: r in e.journal && r.status == Some(Timeout) ==> r.complete == r.timeoutPoint)
  {
    hide Feasible, FixedRun, Exec, Simulate;
    RunSystemSafe(now, capacity, operators, events);
  }

  /** Work conservation. Between handlers no operator is free while a call waits, and each is free or serving. */
  lemma NoIdleOperator(now: int, capacity: nat, operators: set<nat>, events: seq<Event>)
    requires Feasible(Initial(now, capacity, operators), events) && FixedRun(Initial(now, capacity, operators), events)
    ensures var e := Exec(Initial(now, capacity, operators), events);
      && (e.q.receipt != [] ==> e.free == {})
      && Partitioned(e, operators)
  {
    hide Feasible, FixedRun, Exec, Simulate;
    RunSystemSafe(now, capacity, operators, events);
  }

  /** The load served since recording began never exceeds the number of operators. */
  lemma LoadNeverExceedsOperators(now: int, capacity: nat, operators: set<nat>, events: seq<Event>)
    requires Feasible(Initial(now, capacity, operators), events) && FixedRun(Initial(now, capacity, operators), events)
    ensures var s := Simulate(InitialSystem(now, capacity, operators), events);
      && TotalServiceTime(s.served) <= |operators| * (s.e.now - now)
      && (s.e.now > now ==> TotalServiceTime(s.served) as real / (s.e.now - now) as real <= |operators| as real)
  {
    hide SystemSafe, TotalServiceTime, Feasible, FixedRun, Exec, Simulate;
    RunSystemSafe(now, capacity, operators, events);
    LoadBound(Simulate(InitialSystem(now, capacity, operators), events), operators, now);
  }

  lemma LoadBound(s: System, operators: set<nat>, since: int)
    requires SystemSafe(s, operators, since)
    ensures TotalServiceTime(s.served) <= |operators| * (s.e.now - since)
    ensures s.e.now > since ==> TotalServiceTime(s.served) as real / (s.e.now - since) as real <= |operators| as real
  {
    hide Agrees, TotalServiceTime, PoolSafe, Clocked;
    TotalBound(s, operators, since);
    if s.e.now > since { QuotientBound(TotalServiceTime(s.served), |operators|, s.e.now - since); }
  }

  lemma TotalBound(s: System, operators: set<nat>, since: int)
    requires PoolSafe(s, operators, since) && Clocked(s.e)
    ensures TotalServiceTime(s.served) <= |operators| * (s.e.now - since)
  {
    forall op | op in Times(s.served) ensures Times(s.served)[op] <= s.e.now - since {
      if op !in s.e.free {
        var p :| p in s.e.services && p.op == op;
      }
    }
    SumOfBound(Times(s.served), s.e.now - since);
    assert Times(s.served).Keys == operators;
  }

  lemma QuotientBound(total: int, n: nat, elapsed: int)
    requires elapsed > 0 && total <= n * elapsed
    ensures total as real / elapsed as real <= n as real
  {
    assert (n * elapsed) as real == n as real * elapsed as real;
    assert total as real <= n as real * elapsed as real;
  }

  /** Arrivals are the calls serviced, summed over the operators, plus the refused ones and those in the system. */
  lemma ArrivalsBalance(now: int, capacity: nat, operators: set<nat>, events: seq<Event>)
    requires Feasible(Initial(now, capacity, operators), events) && FixedRun(Initial(now, capacity, operators), events)
    ensures var s := Simulate(InitialSystem(now, capacity, operators), events);
      s.e.counters.arrivals == Serviced(s.served) + s.e.counters.dropouts + s.e.counters.inSystem
  {
    hide Feasible, FixedRun, Exec, Simulate;
    RunSystemSafe(now, capacity, operators, events);
  }
}
