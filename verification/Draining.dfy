/**
 Draining: once no more calls are pushed the event loop comes to an end, in whatever order due events are
 taken and however the pool is resized meanwhile, and then nothing is left over.
 */
module Draining {
  import opened Options
  import opened CallQueues
  import opened Sequences
  import opened Expiries
  import opened Engines
  import opened EngineSafety
  import opened FixedPools

  /** A waiting call has two handlers ahead of it, a call in service one. */
  function CallsAhead(e: Engine): nat { 2 * |e.q.receipt| + |e.services| }

  /** Iterations that may pass before a waiting call expires; all of them if no call waits. */
  function IterationsAhead(e: Engine): nat {
    if e.q.receipt == [] || e.q.timeouts == [] then |e.tasks| else Within(e.tasks, e.q.timeouts[0].Timeout() - 1)
  }

  /** The distance to the end, compared component by component. */
  ghost predicate Nearer(r: Engine, e: Engine) {
    CallsAhead(r) < CallsAhead(e) || (CallsAhead(r) == CallsAhead(e) && IterationsAhead(r) < IterationsAhead(e))
  }

  /** An iteration that rejects nothing and finds no operator only moves its task behind the present moment. */
  lemma RepostShrinks(e: Engine, i: nat, least: int)
    requires i < |e.tasks| && e.tasks[i] <= e.now < least
    ensures Within(RemoveAt(e.tasks, i) + [least], least - 1) < Within(e.tasks, least - 1)
  {
    hide Within;
    WithinAppend(RemoveAt(e.tasks, i), least, least - 1);
    WithinRemove(e.tasks, i, least - 1);
  }

  lemma IterationCallsAhead(e: Engine, inp: Input)
    requires Agrees(e.q)
    ensures var r := PerformCallProcessingIteration(e, inp);
      && Agrees(r.q) && r.arrived == e.arrived
      && CallsAhead(r) <= CallsAhead(e)
      && (CallsAhead(r) == CallsAhead(e) ==>
            r.q == e.q && (e.q.receipt == [] ==> r.tasks == e.tasks)
            && (e.q.receipt != [] ==>
                  r.tasks == e.tasks + [e.q.timeouts[0].Timeout()] && e.now < e.q.timeouts[0].Timeout()))
  {
    hide Agrees;
    if e.q.receipt != [] {
      RejectAllKeeps(e);
      var a := RejectAllTimeoutCalls(e);
      AssignKeeps(a, inp);
      MinTimeoutIsLeast(e.q);
      AssignServices(a, inp);
    }
  }

  lemma AssignServices(e: Engine, inp: Input)
    requires Agrees(e.q)
    ensures |Assign(e, inp).services| == |e.services| + (if inp.second.op.Some? && e.q.receipt != [] then 1 else 0)
    ensures inp.second.op.None? || e.q.receipt == [] ==> Assign(e, inp).q == e.q
  {
    hide Agrees;
    if inp.second.op.Some? && e.q.receipt != [] { var k := PopAgrees(e.q); }
  }

  /** Every handler brings the end nearer, whatever its inputs are. */
  lemma HandlerShrinks(e: Engine, ev: Event)
    requires Agrees(e.q) && Enabled(e, ev) && (ev.Iteration? || ev.Finish?)
    ensures var r := Apply(e, ev);
      && Agrees(r.q) && r.arrived == e.arrived
      && Nearer(r, e)
  {
    hide Agrees;
    match ev
    case Iteration(i, inp) =>
      IterationCallsAhead(e.(tasks := RemoveAt(e.tasks, i)), inp);
      if e.q.receipt != [] {
        MinTimeoutIsLeast(e.q);
        if e.now < e.q.timeouts[0].Timeout() { RepostShrinks(e, i, e.q.timeouts[0].Timeout()); }
      }
    case Finish(i, inp) =>
      SameIndicesAgree(e.q, Release(e, i, inp.returned).q);
      IterationCallsAhead(Release(e, i, inp.returned), inp);
  }

  // ---------------------------------------------------------------------------------------------
  // Nobody is stranded
  // ---------------------------------------------------------------------------------------------

  /** At least as many iterations are posted as calls wait, whatever their waits and whatever the pool does. */
  ghost predicate Stocked(e: Engine) { |e.q.receipt| <= |e.tasks| }

  /** An iteration makes up for the one that brought it about: it hands a call over or posts another one. */
  lemma IterationStocked(e: Engine, inp: Input)
    requires Agrees(e.q) && |e.q.receipt| <= |e.tasks| + 1
    ensures Stocked(PerformCallProcessingIteration(e, inp))
  {
    hide Agrees;
    if e.q.receipt != [] {
      RejectAllKeeps(e);
      AssignKeeps(RejectAllTimeoutCalls(e), inp);
    }
  }

  lemma EnqueueStocked(e: Engine, c: Call, capacity: nat, inp: Input)
    requires Agrees(e.q) && Stocked(e) && forall d :: d in e.q.receipt ==> d.arrival <= c.arrival
    ensures Stocked(Enqueue(e, c, capacity, inp))
  {
    hide Agrees;
    var (result, q) := e.q.Push(c, capacity);
    PushRefines(e.q, c, capacity);
    if result == Accepted { IterationStocked(e.(q := q), inp); }
  }

  lemma {:induction false} EventStocked(e: Engine, ev: Event)
    requires Safe(e, None) && Stocked(e) && Enabled(e, ev)
    ensures Stocked(Apply(e, ev))
  {
    hide Agrees, Conserved, Counted, Recorded;
    match ev
    case Push(c, capacity, inp) =>
      var a := Arrive(e, c);
      BypassKeeps(a, c, inp);
      var (started, r) := StartCallProcessingIfPossible(a, c, inp);
      if !started { EnqueueStocked(r, c, capacity, inp); }
    case Iteration(i, inp) => IterationStocked(e.(tasks := RemoveAt(e.tasks, i)), inp);
    case Finish(i, inp) =>
      SameIndicesAgree(e.q, Release(e, i, inp.returned).q);
      IterationStocked(Release(e, i, inp.returned), inp);
    case Advance(to) =>
  }

  lemma {:induction false} RunStocked(now: int, capacity: nat, free: set<nat>, events: seq<Event>)
    requires Feasible(Initial(now, capacity, free), events)
    ensures Safe(Exec(Initial(now, capacity, free), events), None)
      && Stocked(Exec(Initial(now, capacity, free), events))
  {
    hide Safe, Apply, Enabled;
    RunSafe(now, capacity, free, events);
    if events != [] {
      var m := |events| - 1;
      RunSafe(now, capacity, free, events[..m]);
      RunStocked(now, capacity, free, events[..m]);
      EventStocked(Exec(Initial(now, capacity, free), events[..m]), events[m]);
    }
  }

  // ---------------------------------------------------------------------------------------------
  // The event loop without new calls
  // ---------------------------------------------------------------------------------------------

  ghost predicate Pending(e: Engine) { e.tasks != [] || e.services != [] }

  /** Time passes up to `to`, if at all, and then a due event is handled. */
  ghost predicate Choice(e: Engine, to: int, ev: Event) {
    && (to == e.now || Enabled(e, Advance(to)))
    && (ev.Iteration? || ev.Finish?)
    && Enabled(e.(now := to), ev)
  }

  /** As long as an event is posted there is a next one, in a fixed pool too. */
  lemma SomethingHappens(e: Engine) returns (to: int, ev: Event)
    requires Pending(e)
    ensures Choice(e, to, ev) && FixedInput(e.(now := to), ev)
  {
    var found := if e.free == {} then Taken({}, None) else var op :| op in e.free; Taken(e.free, Some(op));
    var due := Dues(e);
    var k := LeastIndex(due);
    to := if due[k] < e.now then e.now else due[k];
    if k < |e.tasks| {
      ev := Iteration(k, Input(found, e.free, found, e.free, 0));
    } else {
      var i := k - |e.tasks|;
      var back := e.free + {e.services[i].op};
      var taken := Taken(back, Some(e.services[i].op));
      ev := Finish(i, Input(found, back, taken, back, 0));
    }
    if to != e.now {
      forall t | t in e.tasks ensures to <= t {
        var j :| 0 <= j < |e.tasks| && e.tasks[j] == t;
        assert due[j] == t;
      }
      forall p | p in e.services ensures to <= p.due {
        var j :| 0 <= j < |e.services| && e.services[j] == p;
        assert due[|e.tasks| + j] == p.due;
      }
    }
  }

  function Dues(e: Engine): seq<int> {
    e.tasks + seq(|e.services|, i requires 0 <= i < |e.services| => e.services[i].due)
  }

  lemma {:induction false} LeastIndex(ts: seq<int>) returns (k: nat)
    requires ts != []
    ensures k < |ts| && forall j :: 0 <= j < |ts| ==> ts[k] <= ts[j]
  {
    k := 0;
    for n := 1 to |ts|
      invariant k < n && forall j :: 0 <= j < n ==> ts[k] <= ts[j]
    {
      if ts[n] < ts[k] { k := n; }
    }
  }

  /** A schedule decides which due event comes next and what its inputs are. */
  ghost predicate IsSchedule(choose: Engine -> (int, Event)) {
    forall e: Engine :: Pending(e) ==> Choice(e, choose(e).0, choose(e).1)
  }

  function Handle(e: Engine, to: int, ev: Event): Engine { Apply(e.(now := to), ev) }

  lemma {:induction false} HandleSafe(e: Engine, to: int, ev: Event)
    requires Safe(e, None) && Stocked(e) && Choice(e, to, ev)
    ensures Safe(e.(now := to), None)
    ensures Safe(Handle(e, to, ev), None) && Stocked(Handle(e, to, ev))
    ensures Handle(e, to, ev).arrived == e.arrived && Nearer(Handle(e, to, ev), e)
  {
    hide Agrees, Conserved, Counted, NoOvertaking, Recorded, Apply;
    var a := e.(now := to);
    if to == e.now { assert a == e; } else { AdvanceSafe(e, to); }
    EventSafe(a, ev);
    EventStocked(a, ev);
    HandlerShrinks(a, ev);
    SameDistance(e, to);
  }

  lemma SameDistance(e: Engine, to: int)
    ensures CallsAhead(e.(now := to)) == CallsAhead(e) && IterationsAhead(e.(now := to)) == IterationsAhead(e)
  {
  }

  /** The event loop without new calls, run until no event is left. That it is a function means that it ends. */
  ghost function RunToEnd(e: Engine, choose: Engine -> (int, Event)): (r: Engine)
    requires Safe(e, None) && Stocked(e) && IsSchedule(choose)
    ensures Safe(r, None) && Stocked(r) && !Pending(r) && r.arrived == e.arrived
    decreases CallsAhead(e), IterationsAhead(e)
  {
    if !Pending(e) then e
    else
      var (to, ev) := choose(e);
      HandleSafe(e, to, ev);
      RunToEnd(Handle(e, to, ev), choose)
  }

  /**
   Draining. From every state a run can reach, with any waits and any resizing, every schedule of the pending
   events comes to an end. Then no call waits or is in service, the counters are back at zero, and the finished
   calls are exactly the calls that ever arrived, each with a status.
   */
  lemma DrainsCompletely(now: int, capacity: nat, free: set<nat>, events: seq<Event>, choose: Engine -> (int, Event))
    requires Feasible(Initial(now, capacity, free), events) && IsSchedule(choose)
    ensures var e := Exec(Initial(now, capacity, free), events);
      && Safe(e, None) && Stocked(e)
      && var r := RunToEnd(e, choose);
      && r.arrived == e.arrived
      && r.q.receipt == [] && r.q.timeouts == [] && r.services == [] && r.tasks == []
      && r.counters.inSystem == 0 && r.counters.queueSize == 0
      && multiset(RecordIds(r.journal)) == multiset(Ids(e.arrived))
      && (forall record :: record in r.journal ==> record.WasFinished())
  {
    hide Feasible, Exec;
    RunStocked(now, capacity, free, events);
    SettledIsEmpty(RunToEnd(Exec(Initial(now, capacity, free), events), choose));
  }

  lemma SettledIsEmpty(e: Engine)
    requires Safe(e, None) && Stocked(e) && !Pending(e)
    ensures e.q.receipt == [] && e.q.timeouts == []
    ensures multiset(RecordIds(e.journal)) == multiset(Ids(e.arrived))
    ensures e.counters.inSystem == 0 && e.counters.queueSize == 0
    ensures forall record :: record in e.journal ==> record.WasFinished()
  {
    SameElements(e.q);
    assert ServiceIds(e.services) == [] && Ids(e.q.receipt) == [];
    forall record | record in e.journal ensures record.WasFinished() { assert Accounted(record); }
  }

  // ---------------------------------------------------------------------------------------------
  // In a fixed pool all operators come home
  // ---------------------------------------------------------------------------------------------

  ghost predicate IsFixed(choose: Engine -> (int, Event)) {
    forall e: Engine :: Pending(e) ==> FixedInput(e.(now := choose(e).0), choose(e).1)
  }

  lemma {:induction false} EndPartitioned(e: Engine, choose: Engine -> (int, Event), operators: set<nat>)
    requires Safe(e, None) && Stocked(e) && IsSchedule(choose) && IsFixed(choose) && Partitioned(e, operators)
    ensures Partitioned(RunToEnd(e, choose), operators)
    decreases CallsAhead(e), IterationsAhead(e)
  {
    hide Agrees, Conserved, Counted, NoOvertaking, Recorded, Apply;
    if Pending(e) {
      var (to, ev) := choose(e);
      HandleSafe(e, to, ev);
      var a := e.(now := to);
      HandledPartitioned(a, ev, operators);
      EventOutcome(a, ev);
      MovedPartitioned(Handled(a, ev), Apply(a, ev), operators);
      EndPartitioned(Handle(e, to, ev), choose, operators);
    }
  }

  /** With a fixed number of operators all of them are free at the end. */
  lemma AllOperatorsFree(now: int, capacity: nat, operators: set<nat>, events: seq<Event>,
                         choose: Engine -> (int, Event))
    requires Feasible(Initial(now, capacity, operators), events) && FixedRun(Initial(now, capacity, operators), events)
    requires IsSchedule(choose) && IsFixed(choose)
    ensures var e := Exec(Initial(now, capacity, operators), events);
            Safe(e, None) && Stocked(e) && RunToEnd(e, choose).free == operators
  {
    hide Feasible, FixedRun, Exec, Simulate, Agrees;
    RunStocked(now, capacity, operators, events);
    NoIdleOperator(now, capacity, operators, events);
    var e := Exec(Initial(now, capacity, operators), events);
    EndPartitioned(e, choose, operators);
    assert RunToEnd(e, choose).services == [];
  }
}
