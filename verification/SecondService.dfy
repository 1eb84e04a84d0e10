/**
 A run of two operators in which a number in service is not refused. Two calls of one number wait, a millisecond
 apart, and are served together; the first to end erases the number, and the next call of it starts beside the other.
 */
module SecondService {
  import opened Options
  import opened CallQueues
  import opened Sequences
  import opened OperatorSets
  import opened Engines
  import opened PooledRuns
  import opened Duplicates

  // The calls, all ready to wait for 100 seconds.

  const First := Call(0, "x", 0, 100)
  const Second := Call(1, "y", 0, 100)
  const Early := Call(2, "p", 0, 100)
  const Late := Call(3, "p", 1, 100)
  const Third := Call(4, "p", 1000, 100)

  // Their services: the third call of the number is pushed when the early one has ended and the late one has not.

  const FirstService := Service(First, 0, 0, 1000)
  const SecondService := Service(Second, 1, 0, 1000)
  const EarlyService := Service(Early, 0, 1000, 1000)
  const LateService := Service(Late, 1, 1000, 6000)

  const Nobody := Taken({}, None)
  const Zero := Taken({0}, Some(0))
  const One := Taken({1}, Some(1))

  const PushFirst := Push(First, 10, Input(Taken({0, 1}, Some(0)), {}, Nobody, {}, 1))
  const PushSecond := Push(Second, 10, Input(One, {}, Nobody, {}, 1))
  const PushEarly := Push(Early, 10, Input(Nobody, {}, Nobody, {}, 0))
  const PushLate := Push(Late, 10, Input(Nobody, {}, Nobody, {}, 0))
  const FirstEnds := Finish(0, Input(Nobody, {0}, Zero, {}, 0))
  const SecondEnds := Finish(0, Input(Nobody, {1}, One, {}, 5))
  const EarlyEnds := Finish(0, Input(Nobody, {0}, Nobody, {}, 0))
  const PushThird := Push(Third, 10, Input(Zero, {}, Nobody, {}, 1))

  // The pool keeps its two operators.

  function Two(free: set<nat>): Pool { Pool({0, 1}, free) }

  lemma StaysTwo(free: set<nat>)
    requires free <= {0, 1}
    ensures |Two(free).operators| == 2 && ReadOperatorCount(None, 2) == 2 && Updated(Two(free), 2, Two(free))
  {
  }

  lemma TakesOne(free: set<nat>, op: nat)
    requires op in free && free <= {0, 1}
    ensures TakeStep(Two(free), Taken(free, Some(op)), Two(free - {op}))
  {
    hide Updated, ReadOperatorCount;
    StaysTwo(free);
    assert TakenFrom(Two(free), Some(op), Two(free - {op}));
    assert PoolNext(Two(free), Take(None, Some(op)), Two(free - {op}));
    assert free - {op} + {op} == free;
  }

  lemma TakesNone()
    ensures TakeStep(Two({}), Nobody, Two({}))
  {
    hide Updated, ReadOperatorCount;
    StaysTwo({});
    assert TakenFrom(Two({}), None, Two({}));
    assert PoolNext(Two({}), Take(None, None), Two({}));
  }

  lemma Returns(free: set<nat>, op: nat)
    requires op in {0, 1} && free <= {0, 1}
    ensures ReturnStep(Two(free), op, free + {op}, Two(free + {op}))
  {
    hide Updated, ReadOperatorCount;
    StaysTwo(free + {op});
    assert PoolNext(Two(free), Return(op, None), Two(free + {op}));
  }

  /** What the run looks like between two events. */
  ghost predicate Looks(e: Engine, now: int, receipt: seq<Call>, timeouts: seq<Call>, numbers: map<string, Call>,
                        services: seq<Service>, arrived: seq<Call>)
  {
    && e.now == now && e.q == Queue(receipt, timeouts, numbers, 10) && e.services == services && e.arrived == arrived
    && forall t :: t in e.tasks ==> t >= 1000
  }

  lemma {:induction false} FirstStarts(e: Engine)
    requires e == Initial(0, 10, {0, 1})
    ensures Enabled(e, PushFirst) && EventSteps(e, PushFirst, Two({0, 1}), Two({1}))
    ensures Looks(Apply(e, PushFirst), 0, [], [], map["x" := First], [FirstService], [First])
  {
    hide TakeStep;
    TakesOne({0, 1}, 0);
    assert {0, 1} - {0} == {1};
    assert !HasMatch(ReceiptOrder, [], First);
    assert BypassSteps(Arrive(e, First), First, PushFirst.inp, Two({0, 1}), Two({1}));
  }

  lemma {:induction false} SecondStarts(e: Engine)
    requires Looks(e, 0, [], [], map["x" := First], [FirstService], [First])
    ensures Enabled(e, PushSecond) && EventSteps(e, PushSecond, Two({1}), Two({}))
    ensures Looks(Apply(e, PushSecond), 0, [], [], map["x" := First, "y" := Second],
                  [FirstService, SecondService], [First, Second])
  {
    hide TakeStep;
    TakesOne({1}, 1);
    assert {1} - {1} == {};
    assert !HasMatch(ReceiptOrder, [], Second);
    assert BypassSteps(Arrive(e, Second), Second, PushSecond.inp, Two({1}), Two({}));
  }

  lemma {:induction false} EarlyQueued(q: Queue)
    requires q == Queue([], [], map["x" := First, "y" := Second], 10)
    ensures var r := Queue([Early], [Early], q.processing, 10);
            q.Push(Early, 10) == (Accepted, r) && r.EraseTimeout(0) == (None, r)
  {
    assert !HasMatch(ReceiptOrder, [], Early);
    assert Emplace(ReceiptOrder, [], Early) == [Early] && Emplace(TimeoutPointOrder, [], Early) == [Early];
  }

  lemma {:induction false} EarlyWaits(e: Engine)
    requires Looks(e, 0, [], [], map["x" := First, "y" := Second], [FirstService, SecondService], [First, Second])
    ensures Enabled(e, PushEarly) && EventSteps(e, PushEarly, Two({}), Two({}))
    ensures Looks(Apply(e, PushEarly), 0, [Early], [Early], map["x" := First, "y" := Second],
                  [FirstService, SecondService], [First, Second, Early])
  {
    hide TakeStep, Queue.Push, Queue.EraseTimeout, Queue.Contains;
    TakesNone();
    EarlyQueued(e.q);
    var (started, r) := StartCallProcessingIfPossible(Arrive(e, Early), Early, PushEarly.inp);
    assert !started && BypassSteps(Arrive(e, Early), Early, PushEarly.inp, Two({}), Two({}));
    var pushed := r.(q := Queue([Early], [Early], e.q.processing, 10));
    assert RejectAllTimeoutCalls(pushed) == pushed;
    assert AssignSteps(pushed, PushEarly.inp, Two({}), Two({}));
  }

  lemma TimePasses(e: Engine, to: int, receipt: seq<Call>, timeouts: seq<Call>, numbers: map<string, Call>,
                   services: seq<Service>, arrived: seq<Call>)
    requires Looks(e, e.now, receipt, timeouts, numbers, services, arrived) && e.now <= to <= 1000
    requires forall s :: s in services ==> to <= s.due
    ensures Enabled(e, Advance(to)) && Looks(Apply(e, Advance(to)), to, receipt, timeouts, numbers, services, arrived)
  {
  }

  lemma {:induction false} LateQueued(q: Queue)
    requires q == Queue([Early], [Early], map["x" := First, "y" := Second], 10)
    ensures var r := Queue([Early, Late], [Early, Late], q.processing, 10);
            q.Push(Late, 10) == (Accepted, r) && r.EraseTimeout(1) == (None, r)
  {
    assert UpperBound(ReceiptOrder, [Early], 1) == 1 && UpperBound(TimeoutPointOrder, [Early], 100001) == 1;
    assert !HasMatch(ReceiptOrder, [Early], Late);
    assert Emplace(ReceiptOrder, [Early], Late) == [Early, Late]
      && Emplace(TimeoutPointOrder, [Early], Late) == [Early, Late];
  }

  lemma {:induction false} LateWaits(e: Engine)
    requires Looks(e, 1, [Early], [Early], map["x" := First, "y" := Second],
                   [FirstService, SecondService], [First, Second, Early])
    ensures Enabled(e, PushLate) && EventSteps(e, PushLate, Two({}), Two({}))
    ensures Looks(Apply(e, PushLate), 1, [Early, Late], [Early, Late], map["x" := First, "y" := Second],
                  [FirstService, SecondService], [First, Second, Early, Late])
  {
    hide TakeStep, Queue.Push, Queue.EraseTimeout, Queue.Contains;
    TakesNone();
    LateQueued(e.q);
    var r := Arrive(e, Late);
    assert StartCallProcessingIfPossible(r, Late, PushLate.inp) == (false, r)
      && BypassSteps(r, Late, PushLate.inp, Two({}), Two({}));
    var pushed := r.(q := Queue([Early, Late], [Early, Late], e.q.processing, 10));
    assert RejectAllTimeoutCalls(pushed) == pushed;
    assert AssignSteps(pushed, PushLate.inp, Two({}), Two({}));
  }

  lemma {:induction false} EarlyPopped(q: Queue)
    requires q == Queue([Early, Late], [Early, Late], map["y" := Second], 10)
    ensures q.EraseTimeout(1000) == (None, q)
    ensures q.Pop() == (Some(Early), Queue([Late], [Late], q.processing, 10))
    ensures q.Pop().1.InsertToProcessing(Early) == (true, Queue([Late], [Late], map["y" := Second, "p" := Early], 10))
  {
    assert FirstMatch(ReceiptOrder, q.receipt, Early) == 0 && FirstMatch(TimeoutPointOrder, q.timeouts, Early) == 0;
    assert EraseFirst(ReceiptOrder, q.receipt, Early) == [Late]
      && EraseFirst(TimeoutPointOrder, q.timeouts, Early) == [Late];
    assert !HasMatch(ReceiptOrder, [Late], Early);
  }

  /** The pool at the end of a service whose operator goes on to the next call. */
  lemma HandedOn(e: Engine, op: nat, ev: Event)
    requires op in {0, 1} && ev.Finish? && ev.i == 0 && |e.services| > 0 && e.services[0].op == op && e.q.receipt != []
    requires ev.inp.returned == {op} && ev.inp.second == Taken({op}, Some(op))
    requires RejectAllTimeoutCalls(Release(e, 0, {op})).q.receipt != []
    ensures EventSteps(e, ev, Two({}), Two({}))
  {
    hide TakeStep, ReturnStep, RejectAllTimeoutCalls;
    Returns({}, op);
    TakesOne({op}, op);
    assert {op} - {op} == {} && {} + {op} == {op};
    var r := Release(e, 0, {op});
    assert AssignSteps(RejectAllTimeoutCalls(r), ev.inp, Two({op}), Two({}));
    assert IterationSteps(r, ev.inp, Two({op}), Two({}));
  }

  /** The operator of the first call goes on to the early one, whose number is entered. */
  lemma {:induction false} EarlyStarts(e: Engine)
    requires Looks(e, 1000, [Early, Late], [Early, Late], map["x" := First, "y" := Second],
                   [FirstService, SecondService], [First, Second, Early, Late])
    ensures Enabled(e, FirstEnds) && EventSteps(e, FirstEnds, Two({}), Two({}))
    ensures Looks(Apply(e, FirstEnds), 1000, [Late], [Late], map["y" := Second, "p" := Early],
                  [SecondService, EarlyService], [First, Second, Early, Late])
  {
    hide TakeStep, ReturnStep, Queue.Pop, Queue.EraseTimeout, Queue.InsertToProcessing;
    var r := Release(e, 0, {0});
    assert r.q == Queue([Early, Late], [Early, Late], map["y" := Second], 10) by {
      assert map["x" := First, "y" := Second] - {"x"} == map["y" := Second];
    }
    EarlyPopped(r.q);
    assert RemoveAt([FirstService, SecondService], 0) == [SecondService];
    assert RejectAllTimeoutCalls(r) == r;
    assert Apply(e, FirstEnds) == Assign(r, FirstEnds.inp);
    HandedOn(e, 0, FirstEnds);
  }

  lemma {:induction false} LatePopped(q: Queue)
    requires q == Queue([Late], [Late], map["p" := Early], 10)
    ensures q.EraseTimeout(1000) == (None, q)
    ensures q.Pop() == (Some(Late), Queue([], [], q.processing, 10))
    ensures q.Pop().1.InsertToProcessing(Late) == (false, Queue([], [], q.processing, 10))
  {
    assert FirstMatch(ReceiptOrder, q.receipt, Late) == 0 && FirstMatch(TimeoutPointOrder, q.timeouts, Late) == 0;
    assert EraseFirst(ReceiptOrder, q.receipt, Late) == [] && EraseFirst(TimeoutPointOrder, q.timeouts, Late) == [];
  }

  /** The operator of the second call goes on to the late one, whose number is known already. */
  lemma {:induction false} LateStarts(e: Engine)
    requires Looks(e, 1000, [Late], [Late], map["y" := Second, "p" := Early],
                   [SecondService, EarlyService], [First, Second, Early, Late])
    ensures Enabled(e, SecondEnds) && EventSteps(e, SecondEnds, Two({}), Two({}))
    ensures Looks(Apply(e, SecondEnds), 1000, [], [], map["p" := Early],
                  [EarlyService, LateService], [First, Second, Early, Late])
  {
    hide TakeStep, ReturnStep, Queue.Pop, Queue.EraseTimeout, Queue.InsertToProcessing;
    var r := Release(e, 0, {1});
    assert r.q == Queue([Late], [Late], map["p" := Early], 10) by {
      assert map["y" := Second, "p" := Early] - {"y"} == map["p" := Early];
    }
    LatePopped(r.q);
    assert RemoveAt([SecondService, EarlyService], 0) == [EarlyService];
    assert RejectAllTimeoutCalls(r) == r;
    assert Apply(e, SecondEnds) == Assign(r, SecondEnds.inp);
    HandedOn(e, 1, SecondEnds);
  }

  /** The early call ends and erases the number of the late one. */
  lemma {:induction false} NumberErased(e: Engine)
    requires Looks(e, 1000, [], [], map["p" := Early], [EarlyService, LateService], [First, Second, Early, Late])
    ensures Enabled(e, EarlyEnds) && EventSteps(e, EarlyEnds, Two({}), Two({0}))
    ensures Looks(Apply(e, EarlyEnds), 1000, [], [], map[], [LateService], [First, Second, Early, Late])
  {
    hide ReturnStep;
    Returns({}, 0);
    assert {} + {0} == {0};
    assert map["p" := Early] - {"p"} == map[];
    assert RemoveAt([EarlyService, LateService], 0) == [LateService];
  }

  lemma {:induction false} ThirdStarts(e: Engine)
    requires Looks(e, 1000, [], [], map[], [LateService], [First, Second, Early, Late])
    ensures Enabled(e, PushThird) && EventSteps(e, PushThird, Two({0}), Two({}))
    ensures InService(e, Third.phone)
    ensures Apply(e, PushThird).started == e.started + [Third] && Apply(e, PushThird).journal == e.journal
  {
    hide TakeStep;
    TakesOne({0}, 0);
    assert {0} - {0} == {};
    assert LateService in e.services;
    assert !HasMatch(ReceiptOrder, [], Third);
    assert BypassSteps(Arrive(e, Third), Third, PushThird.inp, Two({0}), Two({}));
  }

  /** A run built so far. */
  ghost predicate Runs(pools: seq<Pool>, events: seq<Event>, e: Engine, p: Pool) {
    && PooledRun(0, 10, pools, events) && pools[0] == Two({0, 1}) && pools[|events|] == p
    && (forall q :: q in pools ==> q.operators == {0, 1})
    && e == Exec(Initial(0, 10, {0, 1}), events)
  }

  lemma GoesOn(pools: seq<Pool>, events: seq<Event>, e: Engine, p: Pool, ev: Event, after: Pool)
    returns (pools2: seq<Pool>, events2: seq<Event>, e2: Engine)
    requires Runs(pools, events, e, p) && Enabled(e, ev) && EventSteps(e, ev, p, after) && after.operators == {0, 1}
    ensures Runs(pools2, events2, e2, after) && e2 == Apply(e, ev)
  {
    hide PooledRun, Apply, Enabled, EventSteps, Exec, Initial;
    Extended(0, 10, pools, events, ev, after);
    pools2, events2, e2 := pools + [after], events + [ev], Apply(e, ev);
    RunPools(0, 10, pools, events);
  }

  lemma BothWait() returns (pools: seq<Pool>, events: seq<Event>, e: Engine)
    ensures Runs(pools, events, e, Two({}))
    ensures Looks(e, 1000, [Early, Late], [Early, Late], map["x" := First, "y" := Second],
                  [FirstService, SecondService], [First, Second, Early, Late])
  {
    hide Runs, Enabled, EventSteps, Apply, Looks;
    pools, events, e := [Two({0, 1})], [], Initial(0, 10, {0, 1});
    RunBegins(e);
    FirstStarts(e);
    pools, events, e := GoesOn(pools, events, e, Two({0, 1}), PushFirst, Two({1}));
    SecondStarts(e);
    pools, events, e := GoesOn(pools, events, e, Two({1}), PushSecond, Two({}));
    EarlyWaits(e);
    pools, events, e := GoesOn(pools, events, e, Two({}), PushEarly, Two({}));
    Waiting1(e);
    pools, events, e := GoesOn(pools, events, e, Two({}), Advance(1), Two({}));
    LateWaits(e);
    pools, events, e := GoesOn(pools, events, e, Two({}), PushLate, Two({}));
    Waiting2(e);
    pools, events, e := GoesOn(pools, events, e, Two({}), Advance(1000), Two({}));
  }

  lemma RunBegins(e: Engine)
    requires e == Initial(0, 10, {0, 1})
    ensures Runs([Two({0, 1})], [], e, Two({0, 1}))
  {
    NothingYet(0, 10, Two({0, 1}));
  }

  lemma Waiting1(e: Engine)
    requires Looks(e, 0, [Early], [Early], map["x" := First, "y" := Second],
                   [FirstService, SecondService], [First, Second, Early])
    ensures Enabled(e, Advance(1)) && EventSteps(e, Advance(1), Two({}), Two({}))
    ensures Looks(Apply(e, Advance(1)), 1, [Early], [Early], map["x" := First, "y" := Second],
                  [FirstService, SecondService], [First, Second, Early])
  {
    TimePasses(e, 1, [Early], [Early], e.q.processing, e.services, e.arrived);
  }

  lemma Waiting2(e: Engine)
    requires Looks(e, 1, [Early, Late], [Early, Late], map["x" := First, "y" := Second],
                   [FirstService, SecondService], [First, Second, Early, Late])
    ensures Enabled(e, Advance(1000)) && EventSteps(e, Advance(1000), Two({}), Two({}))
    ensures Looks(Apply(e, Advance(1000)), 1000, [Early, Late], [Early, Late], map["x" := First, "y" := Second],
                  [FirstService, SecondService], [First, Second, Early, Late])
  {
    TimePasses(e, 1000, [Early, Late], [Early, Late], e.q.processing, e.services, e.arrived);
  }

  /**
   A number in service that is not refused: in a pool that keeps its two operators a call starts beside another one
   with its number.
   */
  lemma NumberInServiceAccepted() returns (pools: seq<Pool>, events: seq<Event>)
    ensures PooledRun(0, 10, pools, events) && forall p :: p in pools ==> p.operators == {0, 1}
    ensures var e := Exec(Initial(0, 10, pools[0].free), events);
      && Enabled(e, PushThird) && EventSteps(e, PushThird, pools[|events|], Two({}))
      && InService(e, Third.phone)
      && Apply(e, PushThird).started == e.started + [Third] && Apply(e, PushThird).journal == e.journal
  {
    hide Enabled, EventSteps, Apply, Looks, PooledRun, Exec;
    var e;
    pools, events, e := BothWait();
    EarlyStarts(e);
    pools, events, e := GoesOn(pools, events, e, Two({}), FirstEnds, Two({}));
    LateStarts(e);
    pools, events, e := GoesOn(pools, events, e, Two({}), SecondEnds, Two({}));
    NumberErased(e);
    pools, events, e := GoesOn(pools, events, e, Two({}), EarlyEnds, Two({0}));
    ThirdStarts(e);
    RunPools(0, 10, pools, events);
  }
}
