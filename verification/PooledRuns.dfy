/**
 Runs whose free operators are those of the pool: every operator taken or returned is a step of the pool under some
 configured number, at least one, read at that step. These are the runs the program has.
 */
module PooledRuns {
  import opened Options
  import opened CallQueues
  import opened Sequences
  import opened OperatorSets
  import opened Engines
  import opened EngineSafety

  /** An operator is taken, if there is one, after the pool was resized. */
  ghost predicate TakeStep(p: Pool, t: Taken, after: Pool) {
    && (exists configured: Option<nat> :: PoolNext(p, Take(configured, t.op), after))
    && t.found == (if t.op.Some? then after.free + {t.op.value} else after.free)
  }

  /** An operator is returned and the pool is resized. */
  ghost predicate ReturnStep(p: Pool, op: nat, free: set<nat>, after: Pool) {
    (exists configured: Option<nat> :: PoolNext(p, Return(op, configured), after)) && free == after.free
  }

  // The steps of the pool in each handler, as far as the handler gets to them.

  ghost predicate BypassSteps(e: Engine, c: Call, inp: Input, p: Pool, after: Pool) {
    if e.q.receipt != [] then after == p
    else exists mid: Pool ::
      && TakeStep(p, inp.first, mid)
      && if inp.first.op.Some? && !StartCallProcessingIfPossible(e, c, inp).0
         then ReturnStep(mid, inp.first.op.value, inp.returned, after)
         else after == mid
  }

  ghost predicate AssignSteps(e: Engine, inp: Input, p: Pool, after: Pool) {
    exists mid: Pool ::
      && TakeStep(p, inp.second, mid)
      && if inp.second.op.Some? && e.q.receipt == []
         then ReturnStep(mid, inp.second.op.value, inp.returnedAgain, after)
         else after == mid
  }

  ghost predicate IterationSteps(e: Engine, inp: Input, p: Pool, after: Pool) {
    if e.q.receipt == [] then after == p else AssignSteps(RejectAllTimeoutCalls(e), inp, p, after)
  }

  ghost predicate EnqueueSteps(e: Engine, c: Call, capacity: nat, inp: Input, p: Pool, after: Pool) {
    match e.q.Push(c, capacity)
    case (Accepted, q) => IterationSteps(e.(q := q), inp, p, after)
    case (_, _) => after == p
  }

  ghost predicate PushSteps(e: Engine, c: Call, capacity: nat, inp: Input, p: Pool, after: Pool) {
    exists mid: Pool ::
      && BypassSteps(Arrive(e, c), c, inp, p, mid)
      && var (started, r) := StartCallProcessingIfPossible(Arrive(e, c), c, inp);
         if started then after == mid else EnqueueSteps(r, c, capacity, inp, mid, after)
  }

  ghost predicate FinishSteps(e: Engine, i: nat, inp: Input, p: Pool, after: Pool)
    requires i < |e.services|
  {
    exists mid: Pool ::
      ReturnStep(p, e.services[i].op, inp.returned, mid) && IterationSteps(Release(e, i, inp.returned), inp, mid, after)
  }

  ghost predicate EventSteps(e: Engine, ev: Event, p: Pool, after: Pool) {
    match ev
    case Push(c, capacity, inp) => PushSteps(e, c, capacity, inp, p, after)
    case Iteration(i, inp) => i < |e.tasks| && IterationSteps(e.(tasks := RemoveAt(e.tasks, i)), inp, p, after)
    case Finish(i, inp) => i < |e.services| && FinishSteps(e, i, inp, p, after)
    case Advance(_) => after == p
  }

  /** The pools before, between and after the events. */
  ghost predicate RunSteps(e: Engine, events: seq<Event>, pools: seq<Pool>) {
    && |pools| == |events| + 1
    && (events != [] ==>
          var m := |events| - 1;
          && RunSteps(e, events[..m], pools[..m + 1])
          && EventSteps(Exec(e, events[..m]), events[m], pools[m], pools[m + 1]))
  }

  // The steps depend only on the inputs they use.

  lemma BypassStepsInputs(e: Engine, c: Call, inp: Input, other: Input, p: Pool, after: Pool)
    requires BypassSteps(e, c, inp, p, after) && other.first == inp.first && other.returned == inp.returned
    ensures BypassSteps(e, c, other, p, after)
  {
    hide TakeStep, ReturnStep;
    if e.q.receipt == [] {
      var mid: Pool :| TakeStep(p, inp.first, mid)
        && if inp.first.op.Some? && !StartCallProcessingIfPossible(e, c, inp).0
           then ReturnStep(mid, inp.first.op.value, inp.returned, after)
           else after == mid;
      assert TakeStep(p, other.first, mid);
    }
  }

  lemma AssignStepsInputs(e: Engine, inp: Input, other: Input, p: Pool, after: Pool)
    requires AssignSteps(e, inp, p, after) && other.second == inp.second && other.returnedAgain == inp.returnedAgain
    ensures AssignSteps(e, other, p, after)
  {
  }

  lemma IterationStepsInputs(e: Engine, inp: Input, other: Input, p: Pool, after: Pool)
    requires IterationSteps(e, inp, p, after)
    requires other.second == inp.second && other.returnedAgain == inp.returnedAgain
    ensures IterationSteps(e, other, p, after)
  {
    hide AssignSteps;
    if e.q.receipt != [] { AssignStepsInputs(RejectAllTimeoutCalls(e), inp, other, p, after); }
  }

  lemma FinishStepsOf(e: Engine, i: nat, inp: Input, p: Pool, mid: Pool, after: Pool)
    requires i < |e.services| && ReturnStep(p, e.services[i].op, inp.returned, mid)
    requires IterationSteps(Release(e, i, inp.returned), inp, mid, after)
    ensures EventSteps(e, Finish(i, inp), p, after)
  {
    hide ReturnStep, IterationSteps, Release;
  }

  lemma EnqueueStepsInputs(e: Engine, c: Call, capacity: nat, inp: Input, other: Input, p: Pool, after: Pool)
    requires EnqueueSteps(e, c, capacity, inp, p, after)
    requires other.second == inp.second && other.returnedAgain == inp.returnedAgain
    ensures EnqueueSteps(e, c, capacity, other, p, after)
  {
    hide IterationSteps;
    var (result, q) := e.q.Push(c, capacity);
    if result == Accepted { IterationStepsInputs(e.(q := q), inp, other, p, after); }
  }

  /** The program starts with all operators free, and at least one. */
  ghost predicate StartPool(p: Pool) { p.operators != {} && p.free == p.operators }

  ghost predicate PooledRun(now: int, capacity: nat, pools: seq<Pool>, events: seq<Event>) {
    && pools != [] && StartPool(pools[0])
    && Feasible(Initial(now, capacity, pools[0].free), events)
    && RunSteps(Initial(now, capacity, pools[0].free), events, pools)
  }

  // Building a run event by event.

  lemma NothingYet(now: int, capacity: nat, p: Pool)
    requires StartPool(p)
    ensures PooledRun(now, capacity, [p], [])
    ensures Exec(Initial(now, capacity, p.free), []) == Initial(now, capacity, p.free)
  {
  }

  lemma RunPools(now: int, capacity: nat, pools: seq<Pool>, events: seq<Event>)
    requires PooledRun(now, capacity, pools, events)
    ensures |pools| == |events| + 1 && StartPool(pools[0])
  {
  }

  lemma Extended(now: int, capacity: nat, pools: seq<Pool>, events: seq<Event>, ev: Event, after: Pool)
    requires PooledRun(now, capacity, pools, events)
    requires var e := Exec(Initial(now, capacity, pools[0].free), events);
             Enabled(e, ev) && EventSteps(e, ev, pools[|events|], after)
    ensures PooledRun(now, capacity, pools + [after], events + [ev])
    ensures Exec(Initial(now, capacity, pools[0].free), events + [ev]) ==
            Apply(Exec(Initial(now, capacity, pools[0].free), events), ev)
  {
    hide Enabled, Apply, EventSteps, Initial;
    assert (events + [ev])[..|events|] == events;
    assert (pools + [after])[..|pools|] == pools;
  }

  lemma ClockSteps(e: Engine, to: int, p: Pool)
    ensures EventSteps(e, Advance(to), p, p)
  {
  }

  // ---------------------------------------------------------------------------------------------
  // Busy operators are those that serve
  // ---------------------------------------------------------------------------------------------

  function Serving(s: seq<Service>): set<nat> { set i | 0 <= i < |s| :: s[i].op }

  function HandSet(hand: Option<nat>): set<nat> { if hand.Some? then {hand.value} else {} }

  ghost predicate OneEach(s: seq<Service>) { forall i, j :: 0 <= i < j < |s| ==> s[i].op != s[j].op }

  /** The pool is that of the engine: an operator out serves one call, or is the one in the hand of the handler. */
  ghost predicate Fits(e: Engine, p: Pool, hand: Option<nat>) {
    && p.Valid() && p.free == e.free
    && p.Busy() == Serving(e.services) + HandSet(hand) && Serving(e.services) !! HandSet(hand)
    && OneEach(e.services)
  }

  lemma TakeStepFacts(p: Pool, t: Taken, after: Pool)
    requires p.Valid() && TakeStep(p, t, after)
    ensures after.Valid() && after.free == t.Left() && after.Busy() == p.Busy() + HandSet(t.op)
    ensures t.op.Some? ==> t.op.value !in p.Busy()
  {
    var configured: Option<nat> :| PoolNext(p, Take(configured, t.op), after);
    EraseFreeFacts(p, configured, t.op, after);
    if t.op.Some? { assert t.op.value in after.Busy(); }
  }

  lemma TakeFits(e: Engine, p: Pool, t: Taken, after: Pool)
    requires Fits(e, p, None) && TakeStep(p, t, after)
    ensures Fits(e.(free := t.Left()), after, t.op)
  {
    hide TakeStep;
    TakeStepFacts(p, t, after);
  }

  lemma ReturnFits(e: Engine, p: Pool, op: nat, free: set<nat>, after: Pool)
    requires Fits(e, p, Some(op)) && ReturnStep(p, op, free, after)
    ensures Fits(e.(free := free), after, None)
  {
    var configured: Option<nat> :| PoolNext(p, Return(op, configured), after);
    InsertFreeFacts(p, op, configured, after);
  }

  lemma StartFits(e: Engine, p: Pool, c: Call, op: nat, delay: nat)
    requires Fits(e, p, Some(op))
    ensures Fits(StartCallProcessing(e, c, op, delay), p, None)
  {
    var r := StartCallProcessing(e, c, op, delay);
    ServingAppend(e.services, r.services[|e.services|]);
  }

  lemma ServingAppend(s: seq<Service>, x: Service)
    ensures Serving(s + [x]) == Serving(s) + {x.op}
    ensures OneEach(s) && x.op !in Serving(s) ==> OneEach(s + [x])
  {
    var r := s + [x];
    forall op ensures op in Serving(r) <==> op in Serving(s) || op == x.op {
      if op in Serving(s) {
        var i :| 0 <= i < |s| && s[i].op == op;
        assert r[i].op == op;
      }
      if op == x.op { assert r[|s|].op == op; }
    }
  }

  /** Nothing else a handler does concerns the pool. */
  lemma SameFits(e: Engine, r: Engine, p: Pool, hand: Option<nat>)
    requires Fits(e, p, hand) && r.free == e.free && r.services == e.services
    ensures Fits(r, p, hand)
  {
  }

  lemma BypassFits(e: Engine, c: Call, inp: Input, p: Pool, after: Pool)
    requires Fits(e, p, None) && BypassSteps(e, c, inp, p, after)
    ensures Fits(StartCallProcessingIfPossible(e, c, inp).1, after, None)
  {
    hide Fits, TakeStep, ReturnStep;
    if e.q.receipt == [] {
      var mid: Pool :| TakeStep(p, inp.first, mid)
        && if inp.first.op.Some? && !StartCallProcessingIfPossible(e, c, inp).0
           then ReturnStep(mid, inp.first.op.value, inp.returned, after)
           else after == mid;
      var r := e.(free := inp.first.Left());
      TakeFits(e, p, inp.first, mid);
      if inp.first.op.Some? {
        var (added, q) := r.q.InsertToProcessing(c);
        if added {
          SameFits(r, r.(q := q), mid, inp.first.op);
          StartFits(r.(q := q), mid, c, inp.first.op.value, inp.delay);
        } else {
          ReturnFits(r, mid, inp.first.op.value, inp.returned, after);
        }
      }
    }
  }

  lemma AssignFits(e: Engine, inp: Input, p: Pool, after: Pool)
    requires Agrees(e.q) && Fits(e, p, None) && AssignSteps(e, inp, p, after)
    ensures Fits(Assign(e, inp), after, None)
  {
    hide Fits, TakeStep, ReturnStep, Agrees;
    var mid: Pool :| TakeStep(p, inp.second, mid)
      && if inp.second.op.Some? && e.q.receipt == []
         then ReturnStep(mid, inp.second.op.value, inp.returnedAgain, after)
         else after == mid;
    var r := e.(free := inp.second.Left());
    TakeFits(e, p, inp.second, mid);
    if inp.second.op.None? {
      SameFits(r, PostNext(r), mid, None);
    } else if e.q.receipt == [] {
      ReturnFits(r, mid, inp.second.op.value, inp.returnedAgain, after);
    } else {
      var q := r.q.Pop().1.InsertToProcessing(r.q.Pop().0.value).1;
      SameFits(r, r.(q := q), mid, inp.second.op);
      StartFits(r.(q := q), mid, r.q.Pop().0.value, inp.second.op.value, inp.delay);
    }
  }

  lemma IterationFits(e: Engine, inp: Input, p: Pool, after: Pool)
    requires Agrees(e.q) && Fits(e, p, None) && IterationSteps(e, inp, p, after)
    ensures Fits(PerformCallProcessingIteration(e, inp), after, None)
  {
    hide Agrees, Fits, AssignSteps;
    if e.q.receipt != [] {
      RejectAllKeeps(e);
      SameFits(e, RejectAllTimeoutCalls(e), p, None);
      AssignFits(RejectAllTimeoutCalls(e), inp, p, after);
    }
  }

  lemma EnqueueFits(e: Engine, c: Call, capacity: nat, inp: Input, p: Pool, after: Pool)
    requires Agrees(e.q) && Fits(e, p, None) && EnqueueSteps(e, c, capacity, inp, p, after)
    requires forall d :: d in e.q.receipt ==> d.arrival <= c.arrival
    ensures Fits(Enqueue(e, c, capacity, inp), after, None)
  {
    hide Agrees, Fits, IterationSteps;
    var (result, q) := e.q.Push(c, capacity);
    SameFits(e, e.(q := q), p, None);
    if result == Accepted {
      PushKeepsAgreement(e.q, c, capacity);
      IterationFits(e.(q := q), inp, p, after);
    } else {
      SameFits(e, Enqueue(e, c, capacity, inp), p, None);
    }
  }

  lemma ReleaseFits(e: Engine, i: nat, free: set<nat>, p: Pool, after: Pool)
    requires Fits(e, p, None) && i < |e.services| && ReturnStep(p, e.services[i].op, free, after)
    ensures Fits(Release(e, i, free), after, None)
  {
    hide ReturnStep;
    var op := e.services[i].op;
    var r := e.(services := RemoveAt(e.services, i));
    ServingRemove(e.services, i);
    assert Fits(r, p, Some(op));
    ReturnFits(r, p, op, free, after);
    SameFits(r.(free := free), Release(e, i, free), after, None);
  }

  lemma ServingRemove(s: seq<Service>, i: nat)
    requires i < |s| && OneEach(s)
    ensures OneEach(RemoveAt(s, i)) && s[i].op in Serving(s) && Serving(RemoveAt(s, i)) == Serving(s) - {s[i].op}
  {
    var r := RemoveAt(s, i);
    forall op ensures op in Serving(r) <==> op in Serving(s) && op != s[i].op {
      if op in Serving(s) && op != s[i].op {
        var k :| 0 <= k < |s| && s[k].op == op;
        assert r[if k < i then k else k - 1].op == op;
      }
      if op in Serving(r) {
        var k :| 0 <= k < |r| && r[k].op == op;
        assert s[if k < i then k else k + 1].op == op;
      }
    }
  }

  lemma PushFits(e: Engine, c: Call, capacity: nat, inp: Input, p: Pool, after: Pool)
    requires Safe(e, None) && c.arrival == e.now && Fits(e, p, None) && PushSteps(e, c, capacity, inp, p, after)
    ensures Fits(PushCall(e, c, capacity, inp), after, None)
  {
    hide Agrees, Fits, BypassSteps, EnqueueSteps, Conserved, Counted, Recorded;
    var a := Arrive(e, c);
    var (started, r) := StartCallProcessingIfPossible(a, c, inp);
    var mid: Pool :| BypassSteps(a, c, inp, p, mid)
      && if started then after == mid else EnqueueSteps(r, c, capacity, inp, mid, after);
    SameFits(e, a, p, None);
    BypassFits(a, c, inp, p, mid);
    BypassKeeps(a, c, inp);
    if !started {
      SameIndicesAgree(e.q, r.q);
      EnqueueFits(r, c, capacity, inp, mid, after);
    }
  }

  lemma {:induction false} EventFits(e: Engine, ev: Event, p: Pool, after: Pool)
    requires Safe(e, None) && Enabled(e, ev) && Fits(e, p, None) && EventSteps(e, ev, p, after)
    ensures Fits(Apply(e, ev), after, None)
  {
    hide Agrees, Fits, PushSteps, IterationSteps, Conserved, Counted, Recorded;
    match ev
    case Push(c, capacity, inp) => PushFits(e, c, capacity, inp, p, after);
    case Iteration(i, inp) =>
      SameFits(e, e.(tasks := RemoveAt(e.tasks, i)), p, None);
      IterationFits(e.(tasks := RemoveAt(e.tasks, i)), inp, p, after);
    case Finish(i, inp) =>
      var r := Release(e, i, inp.returned);
      var mid: Pool :| ReturnStep(p, e.services[i].op, inp.returned, mid) && IterationSteps(r, inp, mid, after);
      ReleaseFits(e, i, inp.returned, p, mid);
      SameIndicesAgree(e.q, r.q);
      IterationFits(r, inp, mid, after);
    case Advance(to) => SameFits(e, e.(now := to), p, None);
  }

  /**
   However the pool is resized, in every state between handlers the free operators are those of the pool, and an
   operator of the pool that is not free serves one call.
   */
  lemma {:induction false} RunFits(now: int, capacity: nat, pools: seq<Pool>, events: seq<Event>)
    requires PooledRun(now, capacity, pools, events)
    ensures Fits(Exec(Initial(now, capacity, pools[0].free), events), pools[|events|], None)
  {
    hide Safe, Fits, Apply, Enabled, EventSteps;
    var e := Initial(now, capacity, pools[0].free);
    if events == [] {
      InitialFits(now, capacity, pools[0]);
    } else {
      var m := |events| - 1;
      RunFits(now, capacity, pools[..m + 1], events[..m]);
      RunSafe(now, capacity, pools[0].free, events[..m]);
      EventFits(Exec(e, events[..m]), events[m], pools[m], pools[m + 1]);
    }
  }

  /** So whenever no call is in service all operators are free, however often the pool was resized. */
  lemma OperatorsComeHome(now: int, capacity: nat, pools: seq<Pool>, events: seq<Event>)
    requires PooledRun(now, capacity, pools, events)
    requires Exec(Initial(now, capacity, pools[0].free), events).services == []
    ensures pools[|events|].free == pools[|events|].operators
    ensures pools[|events|].free == Exec(Initial(now, capacity, pools[0].free), events).free
  {
    hide PooledRun, Exec, Initial;
    RunPools(now, capacity, pools, events);
    RunFits(now, capacity, pools, events);
    assert pools[|events|].operators == pools[|events|].free + pools[|events|].Busy();
  }

  lemma InitialFits(now: int, capacity: nat, p: Pool)
    requires StartPool(p)
    ensures Fits(Initial(now, capacity, p.free), p, None)
  {
  }
}
