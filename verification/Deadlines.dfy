/**
 Deadlines under resizing: with one longest wait for all calls there are always enough iterations posted,
 early enough, for every waiting call, whatever operators the pool hands out and when. Calls that will not wait
 at all do not matter: they leave with the push that brings them.
 */
module Deadlines {
  import opened Options
  import opened CallDetailedRecords
  import opened CallQueues
  import opened Sequences
  import opened Expiries
  import opened Engines
  import opened EngineSafety

  /** `slack` iterations may be missing. */
  ghost predicate Covered(e: Engine, slack: nat) {
    forall t :: Expiring(e.q.receipt, t) <= Within(e.tasks, t) + slack
  }

  ghost predicate OneWait(e: Engine, wait: nat) { forall c :: c in e.q.receipt ==> c.maxWait == wait }

  /** The same for the calls that have not expired. */
  ghost predicate OneWaitAhead(e: Engine, wait: nat) {
    forall c :: c in e.q.receipt && e.now < c.Timeout() ==> c.maxWait == wait
  }

  predicate WaitsOrNot(c: Call, wait: nat) { c.maxWait == wait || c.maxWait == 0 }

  // Rejections and hand-overs only take calls away.

  lemma {:induction false} RejectAllCovered(e: Engine, slack: nat)
    requires Agrees(e.q) && Covered(e, slack)
    ensures Covered(RejectAllTimeoutCalls(e), slack)
    decreases |e.q.timeouts|
  {
    var (c, q) := e.q.EraseTimeout(e.now);
    var i := EraseTimeoutAgrees(e.q, e.now);
    if c.Some? {
      var r := RejectCall(e.(q := q), c.value, Timeout);
      forall t ensures Expiring(r.q.receipt, t) <= Within(r.tasks, t) + slack {
        ExpiringRemove(e.q.receipt, i, t);
        assert Expiring(e.q.receipt, t) <= Within(e.tasks, t) + slack;
      }
      RejectAllCovered(r, slack);
    }
  }

  /** With one wait the head of the queue expires first, so handing it over makes up for a missing iteration. */
  lemma PopCovered(s: seq<Call>, tasks: seq<int>, wait: nat)
    requires s != [] && Sorted(ReceiptOrder, s) && forall c :: c in s ==> c.maxWait == wait
    requires forall t :: Expiring(s, t) <= Within(tasks, t) + 1
    ensures forall t :: Expiring(s[1..], t) <= Within(tasks, t)
  {
    assert s[1..] == RemoveAt(s, 0);
    assert s[0] in s;
    forall c | c in s[1..] ensures s[0].Timeout() <= c.Timeout() {
      var i :| 0 < i < |s| && s[i] == c;
      assert Key(ReceiptOrder, s[0]) <= Key(ReceiptOrder, s[i]);
    }
    forall t ensures Expiring(s[1..], t) <= Within(tasks, t) {
      ExpiringRemove(s, 0, t);
      assert Expiring(s, t) <= Within(tasks, t) + 1;
      if t < s[0].Timeout() { NoneExpiring(s[1..], t); }
    }
  }

  /** So does posting an iteration for the least timeout point. */
  lemma PostCovered(s: seq<Call>, tasks: seq<int>, least: int)
    requires forall c :: c in s ==> least <= c.Timeout()
    requires forall t :: Expiring(s, t) <= Within(tasks, t) + 1
    ensures forall t :: Expiring(s, t) <= Within(tasks + [least], t)
  {
    forall t ensures Expiring(s, t) <= Within(tasks + [least], t) {
      WithinAppend(tasks, least, t);
      assert Expiring(s, t) <= Within(tasks, t) + 1;
      if t < least { NoneExpiring(s, t); }
    }
  }

  lemma EmptyCovered(e: Engine)
    requires e.q.receipt == []
    ensures Covered(e, 0)
  {
  }

  lemma SameQueueCovered(e: Engine, r: Engine, slack: nat)
    requires Covered(e, slack) && r.q.receipt == e.q.receipt && r.tasks == e.tasks
    ensures Covered(r, slack)
  {
    forall t ensures Expiring(r.q.receipt, t) <= Within(r.tasks, t) + slack {
      assert Expiring(e.q.receipt, t) <= Within(e.tasks, t) + slack;
    }
  }

  lemma AssignCovered(e: Engine, inp: Input, wait: nat)
    requires Agrees(e.q) && OneWait(e, wait) && Covered(e, 1)
    ensures Covered(Assign(e, inp), 0)
  {
    var r := Assign(e, inp);
    AssignKeeps(e, inp);
    if e.q.receipt == [] {
      EmptyCovered(r);
    } else if inp.second.op.Some? {
      PopCovered(e.q.receipt, e.tasks, wait);
    } else {
      MinTimeoutIsLeast(e.q);
      PostCovered(e.q.receipt, e.tasks, e.q.timeouts[0].Timeout());
    }
  }

  /** An iteration makes up for one missing task: the one that started it, or the one a new call asks for. */
  lemma IterationCovered(e: Engine, inp: Input, wait: nat)
    requires Agrees(e.q) && OneWaitAhead(e, wait) && Covered(e, 1)
    ensures var r := PerformCallProcessingIteration(e, inp); Covered(r, 0) && OneWait(r, wait)
  {
    hide Agrees;
    if e.q.receipt == [] {
      EmptyCovered(e);
    } else {
      RejectAllKeeps(e);
      RejectAllCovered(e, 1);
      AssignCovered(RejectAllTimeoutCalls(e), inp, wait);
      AssignKeeps(RejectAllTimeoutCalls(e), inp);
    }
  }

  lemma TaskRemoved(e: Engine, i: nat)
    requires Covered(e, 0) && i < |e.tasks|
    ensures Covered(e.(tasks := RemoveAt(e.tasks, i)), 1)
  {
    forall t ensures Expiring(e.q.receipt, t) <= Within(RemoveAt(e.tasks, i), t) + 1 {
      WithinRemove(e.tasks, i, t);
      assert Expiring(e.q.receipt, t) <= Within(e.tasks, t) + 0;
    }
  }

  lemma CallAdded(e: Engine, c: Call, q: Queue)
    requires Covered(e, 0) && q.receipt == e.q.receipt + [c]
    ensures Covered(e.(q := q), 1)
  {
    assert Timeouts(q.receipt) == Timeouts(e.q.receipt) + [c.Timeout()];
    forall t ensures Expiring(q.receipt, t) <= Within(e.tasks, t) + 1 {
      WithinAppend(Timeouts(e.q.receipt), c.Timeout(), t);
      assert Expiring(e.q.receipt, t) <= Within(e.tasks, t) + 0;
    }
  }

  lemma Weaker(e: Engine)
    requires Covered(e, 0)
    ensures Covered(e, 1)
  {
    forall t ensures Expiring(e.q.receipt, t) <= Within(e.tasks, t) + 1 {
      assert Expiring(e.q.receipt, t) <= Within(e.tasks, t) + 0;
    }
  }

  ghost predicate NoneFromTheFuture(e: Engine) { forall d :: d in e.q.receipt ==> d.arrival <= e.now }

  lemma EnqueueCovered(e: Engine, c: Call, capacity: nat, inp: Input, wait: nat)
    requires Agrees(e.q) && NoneFromTheFuture(e) && c.arrival == e.now
    requires WaitsOrNot(c, wait) && OneWait(e, wait) && Covered(e, 0)
    ensures var r := Enqueue(e, c, capacity, inp); Covered(r, 0) && OneWait(r, wait)
  {
    hide Agrees, Covered;
    var (result, q) := e.q.Push(c, capacity);
    PushRefines(e.q, c, capacity);
    if result == Accepted {
      CallAdded(e, c, q);
      IterationCovered(e.(q := q), inp, wait);
    } else {
      SameQueueCovered(e, Enqueue(e, c, capacity, inp), 0);
    }
  }

  lemma PushCovered(e: Engine, c: Call, capacity: nat, inp: Input, wait: nat)
    requires Agrees(e.q) && NoneFromTheFuture(e) && c.arrival == e.now
    requires WaitsOrNot(c, wait) && OneWait(e, wait) && Covered(e, 0)
    ensures var r := PushCall(e, c, capacity, inp); Covered(r, 0) && OneWait(r, wait)
  {
    hide Agrees, Covered;
    var (started, r) := StartCallProcessingIfPossible(Arrive(e, c), c, inp);
    BypassKeeps(Arrive(e, c), c, inp);
    SameQueueCovered(e, r, 0);
    if !started {
      SameIndicesAgree(e.q, r.q);
      EnqueueCovered(r, c, capacity, inp, wait);
    }
  }

  // ---------------------------------------------------------------------------------------------
  // Timeout points are met
  // ---------------------------------------------------------------------------------------------

  /** The clock has not passed a waiting call's timeout point, and no call was refused later than at it. */
  ghost predicate OnTime(e: Engine) {
    && (forall c :: c in e.q.receipt ==> e.now <= c.Timeout())
    && (forall r :: r in e.journal && r.status == Some(Timeout) ==> r.complete == r.timeoutPoint)
  }

  lemma RejectOneOnTime(e: Engine)
    requires Agrees(e.q) && OnTime(e) && e.q.EraseTimeout(e.now).0.Some?
    ensures var (c, q) := e.q.EraseTimeout(e.now);
            Agrees(q) && OnTime(RejectCall(e.(q := q), c.value, Timeout))
              && forall d :: d in q.receipt ==> d in e.q.receipt
  {
    EraseTimeoutMembers(e.q, e.now);
    var (c, q) := e.q.EraseTimeout(e.now);
    RejectOnTime(e.(q := q), c.value, Timeout);
  }

  lemma RejectOnTime(e: Engine, c: Call, reason: CallStatus)
    requires OnTime(e) && (reason == Timeout ==> c.Timeout() == e.now)
    ensures OnTime(RejectCall(e, c, reason))
  {
    var record := Waiting(c).Complete(reason, e.now);
    assert record.timeoutPoint == Some(c.Timeout());
  }

  lemma {:induction false} RejectAllOnTime(e: Engine)
    requires Agrees(e.q) && OnTime(e)
    ensures var r := RejectAllTimeoutCalls(e);
            Agrees(r.q) && OnTime(r) && forall d :: d in r.q.receipt ==> d in e.q.receipt
    decreases |e.q.timeouts|
  {
    var (c, q) := e.q.EraseTimeout(e.now);
    if c.Some? {
      RejectOneOnTime(e);
      RejectAllOnTime(RejectCall(e.(q := q), c.value, Timeout));
    }
  }

  lemma IterationOnTime(e: Engine, inp: Input)
    requires Agrees(e.q) && OnTime(e)
    ensures OnTime(PerformCallProcessingIteration(e, inp))
    ensures forall c :: c in PerformCallProcessingIteration(e, inp).q.receipt ==> c in e.q.receipt
  {
    RejectAllOnTime(e);
    AssignKeeps(RejectAllTimeoutCalls(e), inp);
  }

  lemma EnqueueOnTime(e: Engine, c: Call, capacity: nat, inp: Input)
    requires Agrees(e.q) && NoneFromTheFuture(e) && OnTime(e) && c.arrival == e.now
    ensures OnTime(Enqueue(e, c, capacity, inp))
    ensures forall d :: d in Enqueue(e, c, capacity, inp).q.receipt ==> d == c || d in e.q.receipt
  {
    var (result, q) := e.q.Push(c, capacity);
    if result == Accepted {
      PushRefines(e.q, c, capacity);
      AddedOnTime(e, c, q);
      IterationOnTime(e.(q := q), inp);
    } else {
      var reason := if result == AlreadyQueued then AlreadyInQueue else Overload;
      RejectOnTime(e.(q := q), c, reason);
    }
  }

  lemma AddedOnTime(e: Engine, c: Call, q: Queue)
    requires OnTime(e) && c.arrival == e.now && q.receipt == e.q.receipt + [c]
    ensures OnTime(e.(q := q))
  {
  }

  lemma PushOnTime(e: Engine, c: Call, capacity: nat, inp: Input)
    requires Agrees(e.q) && NoneFromTheFuture(e) && OnTime(e) && c.arrival == e.now
    ensures OnTime(PushCall(e, c, capacity, inp))
    ensures forall d :: d in PushCall(e, c, capacity, inp).q.receipt ==> d == c || d in e.q.receipt
  {
    BypassKeeps(Arrive(e, c), c, inp);
    var (started, r) := StartCallProcessingIfPossible(Arrive(e, c), c, inp);
    if !started { EnqueueOnTime(r, c, capacity, inp); }
  }

  /** Every handler keeps time; only the clock could break it, and it stops at the next posted event. */
  lemma {:induction false} EventOnTime(e: Engine, ev: Event)
    requires Safe(e, None) && OnTime(e) && Enabled(e, ev)
    requires ev.Advance? ==> forall c :: c in e.q.receipt ==> ev.to <= c.Timeout()
    ensures OnTime(Apply(e, ev))
    ensures forall c :: c in Apply(e, ev).q.receipt ==> c in e.q.receipt || (ev.Push? && c == ev.c)
  {
    match ev
    case Push(c, capacity, inp) => PushOnTime(e, c, capacity, inp);
    case Iteration(i, inp) => IterationOnTime(e.(tasks := RemoveAt(e.tasks, i)), inp);
    case Finish(i, inp) => IterationOnTime(Release(e, i, inp.returned), inp);
    case Advance(to) =>
  }

  lemma CoveredStops(e: Engine, to: int)
    requires Covered(e, 0) && Enabled(e, Advance(to))
    ensures forall c :: c in e.q.receipt ==> to <= c.Timeout()
  {
    forall c | c in e.q.receipt ensures to <= c.Timeout() {
      var t := c.Timeout();
      var i :| 0 <= i < |e.q.receipt| && e.q.receipt[i] == c;
      assert Timeouts(e.q.receipt)[i] == t;
      assert t in Timeouts(e.q.receipt);
      WithinSome(Timeouts(e.q.receipt), t);
      assert Expiring(e.q.receipt, t) <= Within(e.tasks, t) + 0;
      WithinSome(e.tasks, t);
    }
  }

  lemma {:induction false} EventCovered(e: Engine, ev: Event, wait: nat)
    requires Safe(e, None) && OneWait(e, wait) && Covered(e, 0) && Enabled(e, ev)
    requires ev.Push? ==> WaitsOrNot(ev.c, wait)
    ensures Covered(Apply(e, ev), 0) && OneWait(Apply(e, ev), wait)
  {
    hide Agrees, Covered, Conserved, Counted, Recorded;
    match ev
    case Push(c, capacity, inp) => PushCovered(e, c, capacity, inp, wait);
    case Iteration(i, inp) =>
      TaskRemoved(e, i);
      IterationCovered(e.(tasks := RemoveAt(e.tasks, i)), inp, wait);
    case Finish(i, inp) =>
      SameQueueCovered(e, Release(e, i, inp.returned), 0);
      Weaker(Release(e, i, inp.returned));
      SameIndicesAgree(e.q, Release(e, i, inp.returned).q);
      IterationCovered(Release(e, i, inp.returned), inp, wait);
    case Advance(to) => SameQueueCovered(e, e.(now := to), 0);
  }

  /**
   Deadline coverage. If all calls that wait at all have the same longest wait then in every state between handlers, for
   every instant, at least as many iterations are posted up to it as waiting calls time out up to it,
   however the pool was resized. So the clock never passes a timeout point, and every call refused for
   its wait is refused exactly at its timeout point.
   */
  lemma {:induction false} DeadlinesCovered(now: int, capacity: nat, free: set<nat>, events: seq<Event>, wait: nat)
    requires Feasible(Initial(now, capacity, free), events)
    requires forall ev :: ev in events && ev.Push? ==> WaitsOrNot(ev.c, wait)
    ensures var e := Exec(Initial(now, capacity, free), events);
            OneWait(e, wait) && OnTime(e) && forall t :: Expiring(e.q.receipt, t) <= Within(e.tasks, t)
  {
    hide Feasible, Exec;
    var e := Exec(Initial(now, capacity, free), events);
    RunCovered(now, capacity, free, events, wait);
    forall t ensures Expiring(e.q.receipt, t) <= Within(e.tasks, t) {
      assert Expiring(e.q.receipt, t) <= Within(e.tasks, t) + 0;
    }
  }

  lemma {:induction false} RunCovered(now: int, capacity: nat, free: set<nat>, events: seq<Event>, wait: nat)
    requires Feasible(Initial(now, capacity, free), events)
    requires forall ev :: ev in events && ev.Push? ==> WaitsOrNot(ev.c, wait)
    ensures var e := Exec(Initial(now, capacity, free), events); OneWait(e, wait) && OnTime(e) && Covered(e, 0)
  {
    if events == [] {
      EmptyCovered(Initial(now, capacity, free));
    } else {
      var m := |events| - 1;
      RunSafe(now, capacity, free, events[..m]);
      assert events[m] in events && forall ev :: ev in events[..m] ==> ev in events;
      RunCovered(now, capacity, free, events[..m], wait);
      var e := Exec(Initial(now, capacity, free), events[..m]);
      EventCovered(e, events[m], wait);
      if events[m].Advance? { CoveredStops(e, events[m].to); }
      EventOnTime(e, events[m]);
    }
  }
}
