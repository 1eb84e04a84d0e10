/**
 Exactly when deadlines are met although the pool changes: when no two different waits are configured, apart from
 calls that will not wait at all.
 */
module MixedWaits {
  import opened Options
  import opened CallQueues
  import opened OperatorSets
  import opened Engines
  import opened Deadlines
  import opened PooledRuns

  /** The pushed calls have longest waits from the given ones. */
  ghost predicate PushesFrom(waits: iset<nat>, events: seq<Event>) {
    forall ev :: ev in events && ev.Push? ==> ev.c.maxWait in waits
  }

  /** No run of the program with such calls passes a timeout point, however its pool is resized. */
  ghost predicate AlwaysOnTime(waits: iset<nat>) {
    forall now: int, capacity: nat, pools: seq<Pool>, events: seq<Event> ::
      PooledRun(now, capacity, pools, events) && PushesFrom(waits, events) ==>
        OnTime(Exec(Initial(now, capacity, pools[0].free), events))
  }

  ghost predicate OnePositiveWait(waits: iset<nat>) {
    forall a, b :: a in waits && b in waits && a > 0 && b > 0 ==> a == b
  }

  // Two waits are enough for a missed deadline: two calls of the longer one and a call of the shorter one.

  function Blocker(a: nat): Call { Call(0, "0", 0, a) }

  function Patient(a: nat): Call { Call(1, "1", 0, a) }

  function Hasty(b: nat): Call { Call(2, "2", 0, b) }

  const Nobody := Taken({}, None)

  /** The only operator takes the first call for as long as the waits. */
  function FirstPush(a: nat): Event {
    Push(Blocker(a), 10, Input(Taken({0}, Some(0)), {}, Nobody, {}, a))
  }

  /** The second call waits. */
  function SecondPush(a: nat): Event { Push(Patient(a), 10, Input(Nobody, {}, Nobody, {}, 0)) }

  /** The third call waits behind the second; the pool has grown and the new operator takes the second call. */
  function ThirdPush(a: nat, b: nat): Event {
    Push(Hasty(b), 10, Input(Nobody, {}, Taken({1}, Some(1)), {}, a))
  }

  const OneOut := Pool({0}, {})
  const TwoOut := Pool({0, 1}, {})

  lemma FirstTaken()
    ensures TakeStep(Pool({0}, {0}), Taken({0}, Some(0)), OneOut)
  {
    var p := Pool({0}, {0});
    var n := ReadOperatorCount(None, 1);
    assert Updated(p, n, p) && TakenFrom(p, Some(0), OneOut);
    assert PoolNext(p, Take(None, Some(0)), OneOut);
  }

  lemma {:induction false} BlockerStarts(e: Engine, a: nat)
    requires e == Initial(0, 10, {0})
    ensures Enabled(e, FirstPush(a)) && EventSteps(e, FirstPush(a), Pool({0}, {0}), OneOut)
    ensures var r := Apply(e, FirstPush(a));
      && r.now == 0 && r.q == Queue([], [], map["0" := Blocker(a)], 10) && r.tasks == [] && r.arrived == [Blocker(a)]
      && r.services == [Service(Blocker(a), 0, 0, 1000 * a)]
  {
    hide TakeStep;
    assert !HasMatch(ReceiptOrder, [], Blocker(a));
    FirstTaken();
    assert BypassSteps(Arrive(e, Blocker(a)), Blocker(a), FirstPush(a).inp, Pool({0}, {0}), OneOut);
  }

  lemma NobodyTaken()
    ensures TakeStep(OneOut, Nobody, OneOut)
  {
    var n := ReadOperatorCount(None, 1);
    assert Updated(OneOut, n, OneOut) && TakenFrom(OneOut, None, OneOut);
    assert PoolNext(OneOut, Take(None, None), OneOut);
  }

  lemma PoolGrows()
    ensures TakeStep(OneOut, Taken({1}, Some(1)), TwoOut)
  {
    var grown := Pool({0, 1}, {1});
    var n := ReadOperatorCount(Some(2), 1);
    assert n == 2 && Updated(OneOut, n, grown) && TakenFrom(grown, Some(1), TwoOut);
    assert PoolNext(OneOut, Take(Some(2), Some(1)), TwoOut);
  }

  lemma {:induction false} PatientPushed(q: Queue, a: nat)
    requires q == Queue([], [], map["0" := Blocker(a)], 10) && a > 0
    ensures var r := Queue([Patient(a)], [Patient(a)], q.processing, 10);
            q.Push(Patient(a), 10) == (Accepted, r) && r.EraseTimeout(0) == (None, r)
  {
    assert !HasMatch(ReceiptOrder, [], Patient(a));
    assert Emplace(ReceiptOrder, [], Patient(a)) == [Patient(a)]
      && Emplace(TimeoutPointOrder, [], Patient(a)) == [Patient(a)];
  }

  lemma {:induction false} PatientWaits(e: Engine, a: nat)
    requires e.now == 0 && e.q == Queue([], [], map["0" := Blocker(a)], 10) && e.tasks == [] && a > 0
    requires e.arrived == [Blocker(a)]
    ensures Enabled(e, SecondPush(a)) && EventSteps(e, SecondPush(a), OneOut, OneOut)
    ensures var r := Apply(e, SecondPush(a));
      && r.now == 0 && r.q == Queue([Patient(a)], [Patient(a)], map["0" := Blocker(a)], 10)
      && r.tasks == [1000 * a] && r.services == e.services && r.arrived == [Blocker(a), Patient(a)]
  {
    hide Queue.Push, Queue.EraseTimeout, Queue.Contains, TakeStep;
    PatientPushed(e.q, a);
    NobodyTaken();
    var (started, r) := StartCallProcessingIfPossible(Arrive(e, Patient(a)), Patient(a), SecondPush(a).inp);
    assert !started && BypassSteps(Arrive(e, Patient(a)), Patient(a), SecondPush(a).inp, OneOut, OneOut);
    var pushed := r.(q := Queue([Patient(a)], [Patient(a)], e.q.processing, 10));
    assert RejectAllTimeoutCalls(pushed) == pushed;
    assert AssignSteps(pushed, SecondPush(a).inp, OneOut, OneOut);
  }

  lemma {:induction false} HastyPushed(q: Queue, a: nat, b: nat)
    requires q == Queue([Patient(a)], [Patient(a)], map["0" := Blocker(a)], 10) && 0 < b < a
    ensures var r := Queue([Patient(a), Hasty(b)], [Hasty(b), Patient(a)], q.processing, 10);
            q.Push(Hasty(b), 10) == (Accepted, r) && r.EraseTimeout(0) == (None, r)
  {
    assert UpperBound(ReceiptOrder, [Patient(a)], 0) == 1 && UpperBound(TimeoutPointOrder, [Patient(a)], 1000 * b) == 0;
    assert !HasMatch(ReceiptOrder, [Patient(a)], Hasty(b));
    assert Emplace(ReceiptOrder, [Patient(a)], Hasty(b)) == [Patient(a), Hasty(b)];
    assert Emplace(TimeoutPointOrder, [Patient(a)], Hasty(b)) == [Hasty(b), Patient(a)];
  }

  lemma {:induction false} PatientPopped(q: Queue, a: nat, b: nat)
    requires q.receipt == [Patient(a), Hasty(b)] && q.timeouts == [Hasty(b), Patient(a)] && 0 < b < a
    ensures q.Pop().0 == Some(Patient(a)) && q.Pop().1.receipt == [Hasty(b)]
    ensures q.Pop().1.InsertToProcessing(Patient(a)).1.receipt == [Hasty(b)]
  {
    assert FirstMatch(ReceiptOrder, q.receipt, Patient(a)) == 0;
    assert EraseFirst(ReceiptOrder, q.receipt, Patient(a)) == [Hasty(b)];
  }

  lemma {:induction false} HastyWaitsAlone(e: Engine, a: nat, b: nat)
    requires e.now == 0 && e.q == Queue([Patient(a)], [Patient(a)], map["0" := Blocker(a)], 10) && 0 < b < a
    requires e.tasks == [1000 * a] && e.services == [Service(Blocker(a), 0, 0, 1000 * a)]
    requires e.arrived == [Blocker(a), Patient(a)]
    ensures Enabled(e, ThirdPush(a, b)) && EventSteps(e, ThirdPush(a, b), OneOut, TwoOut)
    ensures var r := Apply(e, ThirdPush(a, b));
      && r.now == 0 && r.q.receipt == [Hasty(b)] && r.tasks == [1000 * a]
      && (forall s :: s in r.services ==> s.due == 1000 * a)
  {
    hide Queue.Push, Queue.Pop, Queue.EraseTimeout, Queue.Contains, Queue.InsertToProcessing, TakeStep;
    HastyPushed(e.q, a, b);
    PoolGrows();
    var q := Queue([Patient(a), Hasty(b)], [Hasty(b), Patient(a)], e.q.processing, 10);
    PatientPopped(q, a, b);
    var r := Arrive(e, Hasty(b));
    var inp := ThirdPush(a, b).inp;
    assert StartCallProcessingIfPossible(r, Hasty(b), inp) == (false, r)
      && BypassSteps(r, Hasty(b), inp, OneOut, OneOut);
    assert RejectAllTimeoutCalls(r.(q := q)) == r.(q := q);
    assert Apply(e, ThirdPush(a, b)) == Assign(r.(q := q), inp);
    assert AssignSteps(r.(q := q), inp, OneOut, TwoOut);
  }

  lemma {:induction false} HastyIsLate(e: Engine, a: nat, b: nat)
    requires e.now == 0 && e.q.receipt == [Hasty(b)] && 0 < b < a
    requires e.tasks == [1000 * a] && forall s :: s in e.services ==> s.due == 1000 * a
    ensures Enabled(e, Advance(1000 * a)) && !OnTime(Apply(e, Advance(1000 * a)))
  {
    assert Hasty(b) in e.q.receipt && Hasty(b).Timeout() == 1000 * b;
  }

  /**
   With different waits a deadline can pass unnoticed when an operator joins: the iteration of the third push
   serves the second call and posts nothing, and the one posted before is due after the third call's timeout.
   */
  lemma {:induction false} MixedWaitsMissDeadline(a: nat, b: nat) returns (pools: seq<Pool>, events: seq<Event>)
    requires 0 < b < a
    ensures PooledRun(0, 10, pools, events) && (forall ev :: ev in events && ev.Push? ==> ev.c.maxWait in {a, b})
    ensures !OnTime(Exec(Initial(0, 10, pools[0].free), events))
  {
    hide Apply, Enabled, OnTime, Exec, PooledRun, EventSteps;
    var p := Pool({0}, {0});
    var e := Initial(0, 10, p.free);
    NothingYet(0, 10, p);
    pools, events := [p], [];
    BlockerStarts(e, a);
    Extended(0, 10, pools, events, FirstPush(a), OneOut);
    pools, events, e := pools + [OneOut], events + [FirstPush(a)], Apply(e, FirstPush(a));
    PatientWaits(e, a);
    Extended(0, 10, pools, events, SecondPush(a), OneOut);
    pools, events, e := pools + [OneOut], events + [SecondPush(a)], Apply(e, SecondPush(a));
    HastyWaitsAlone(e, a, b);
    Extended(0, 10, pools, events, ThirdPush(a, b), TwoOut);
    pools, events, e := pools + [TwoOut], events + [ThirdPush(a, b)], Apply(e, ThirdPush(a, b));
    HastyIsLate(e, a, b);
    assert EventSteps(e, Advance(1000 * a), TwoOut, TwoOut) by { ClockSteps(e, 1000 * a, TwoOut); }
    Extended(0, 10, pools, events, Advance(1000 * a), TwoOut);
    pools, events := pools + [TwoOut], events + [Advance(1000 * a)];
  }

  /** Calls with one positive wait, and calls that will not wait, are on time under any resizing. */
  lemma OneWaitOnTime(waits: iset<nat>, now: int, capacity: nat, pools: seq<Pool>, events: seq<Event>)
    requires OnePositiveWait(waits) && PooledRun(now, capacity, pools, events) && PushesFrom(waits, events)
    ensures OnTime(Exec(Initial(now, capacity, pools[0].free), events))
  {
    hide Exec, OnTime, Feasible;
    var wait := if exists a :: a in waits && a > 0 then var a :| a in waits && a > 0; a else 0;
    DeadlinesCovered(now, capacity, pools[0].free, events, wait);
  }

  /**
   The promise is that a call is refused when its longest wait has passed, and not later. For every choice of
   longest waits it is kept in all runs, under all histories of the configured number of operators, exactly when
   at most one of the waits is positive.
   */
  lemma DeadlinesMetIff(waits: iset<nat>)
    ensures AlwaysOnTime(waits) <==> OnePositiveWait(waits)
  {
    hide PooledRun, OnTime, Exec, Initial;
    if OnePositiveWait(waits) {
      forall now: int, capacity: nat, pools: seq<Pool>, events: seq<Event>
        | PooledRun(now, capacity, pools, events) && PushesFrom(waits, events)
        ensures pools != [] && OnTime(Exec(Initial(now, capacity, pools[0].free), events))
      {
        RunPools(now, capacity, pools, events);
        OneWaitOnTime(waits, now, capacity, pools, events);
      }
    } else {
      var a, b :| a in waits && b in waits && a > 0 && b > 0 && a != b;
      var pools, events := MixedWaitsMissDeadline(if a > b then a else b, if a > b then b else a);
    }
  }
}
