/**
 What the journal tells: in every run each record is that of a call that was pushed, and its time points, its operator
 and its status are those of the events that wrote them.
 */
module Journals {
  import opened Options
  import opened CallDetailedRecords
  import opened CallQueues
  import opened Sequences
  import opened Engines
  import opened EngineSafety
  import D = Duplicates

  // ---------------------------------------------------------------------------------------------
  // What one event does
  // ---------------------------------------------------------------------------------------------

  /** The operator for the call an event starts: taken past an empty queue, or for the head of the queue. */
  function Handed(e: Engine, ev: Event): Option<nat> {
    match ev
    case Push(_, _, inp) => if e.q.receipt == [] && inp.first.op.Some? then inp.first.op else inp.second.op
    case Iteration(_, inp) => inp.second.op
    case Finish(_, inp) => inp.second.op
    case Advance(_) => None
  }

  /** How long the service started by an event takes, in milliseconds. */
  function Length(ev: Event): nat { if ev.Advance? then 0 else 1000 * ev.inp.delay }

  ghost predicate AtHand(e: Engine, ev: Event, c: Call) { c in e.q.receipt || (ev.Push? && ev.c == c) }

  /** The record is that of the call, with the time points of its arrival. */
  predicate RecordOf(r: Cdr, c: Call) {
    && r.id == c.id && r.phone == c.phone && r.maxWait == c.maxWait
    && r.arrival == Some(c.arrival) && r.timeoutPoint == Some(c.arrival + 1000 * c.maxWait)
  }

  /** The event starts a service now, with the operator it took, and posts its end. */
  ghost predicate Begins(e: Engine, ev: Event, s: Service) {
    && AtHand(e, ev, s.call) && Handed(e, ev) == Some(s.op) && s.start == e.now && s.due == e.now + Length(ev)
    && Apply(e, ev).started == e.started + [s.call] && s in Apply(e, ev).services
  }

  /** Why a call may be refused in an event. */
  ghost predicate Reason(e: Engine, ev: Event, c: Call, status: CallStatus) {
    match status
    case Ok => false
    case Timeout => c.Timeout() <= e.now
    case AlreadyInQueue => ev.Push? && ev.c == c && (c.phone in e.q.processing || D.Twin(e, c))
    case Overload =>
      ev.Push? && ev.c == c && !(c.phone in e.q.processing || D.Twin(e, c)) && |e.q.receipt| >= ev.capacity
  }

  /** The record of a refusal: written now, and no operator. */
  ghost predicate Refuses(e: Engine, ev: Event, c: Call, r: Cdr) {
    && AtHand(e, ev, c) && RecordOf(r, c)
    && r.start == None && r.operatorId == None && r.complete == Some(e.now)
    && r.status.Some? && Reason(e, ev, c, r.status.value)
  }

  /** The record of a service that ends now. */
  ghost predicate Ends(e: Engine, ev: Event, s: Service, r: Cdr) {
    && ev.Finish? && ev.i < |e.services| && e.services[ev.i] == s && RecordOf(r, s.call)
    && r.start == Some(s.start) && r.operatorId == Some(s.op) && r.complete == Some(e.now) && r.status == Some(Ok)
  }

  /** An iteration of a handler: at most one waiting call starts, and only expired ones are refused. */
  ghost predicate Moves(e: Engine, r: Engine, inp: Input) {
    && (forall d :: d in r.q.receipt ==> d in e.q.receipt)
    && (|| (r.services == e.services && r.started == e.started)
        || (inp.second.op.Some? && exists c :: c in e.q.receipt && Starts(e, r, c, inp.second.op.value, inp.delay)))
    && (forall x :: x in r.journal ==> x in e.journal || exists c :: c in e.q.receipt && TimesOut(e, c, x))
  }

  ghost predicate Starts(e: Engine, r: Engine, c: Call, op: nat, delay: nat) {
    && r.started == e.started + [c]
    && r.services == e.services + [Service(c, op, e.now, e.now + 1000 * delay)]
  }

  ghost predicate TimesOut(e: Engine, c: Call, x: Cdr) {
    && c.Timeout() <= e.now && RecordOf(x, c) && x.start == None && x.operatorId == None
    && x.complete == Some(e.now) && x.status == Some(Timeout)
  }

  lemma {:induction false} RejectAllMoves(e: Engine)
    requires Agrees(e.q)
    ensures var r := RejectAllTimeoutCalls(e);
      && r.services == e.services && r.started == e.started && r.now == e.now
      && (forall d :: d in r.q.receipt ==> d in e.q.receipt)
      && (forall x :: x in r.journal ==> x in e.journal || exists c :: c in e.q.receipt && TimesOut(e, c, x))
    decreases |e.q.receipt|
  {
    hide Agrees, TimesOut, Queue.EraseTimeout, Waiting, Cdr.Complete;
    var (c, q) := e.q.EraseTimeout(e.now);
    if c.Some? {
      EraseTimeoutMembers(e.q, e.now);
      var a := RejectCall(e.(q := q), c.value, Timeout);
      RejectAllMoves(a);
      RefusalTimesOut(e, c.value);
      forall x | x in RejectAllTimeoutCalls(a).journal && x !in a.journal
        ensures exists c :: c in e.q.receipt && TimesOut(e, c, x)
      {
        var d :| d in a.q.receipt && TimesOut(a, d, x);
        SameClock(e, a, d, x);
      }
    }
  }

  lemma RefusalTimesOut(e: Engine, c: Call)
    requires c.Timeout() <= e.now
    ensures TimesOut(e, c, Waiting(c).Complete(Timeout, e.now))
  {
  }

  lemma SameClock(e: Engine, a: Engine, c: Call, x: Cdr)
    requires TimesOut(a, c, x) && a.now == e.now
    ensures TimesOut(e, c, x)
  {
  }

  lemma PopsNothing(q: Queue)
    requires q.receipt == []
    ensures q.Pop() == (None, q)
  {
  }

  lemma PopsHead(q: Queue)
    requires q.receipt != []
    ensures q.Pop().0 == Some(q.receipt[0]) && q.receipt[0] in q.receipt
  {
  }

  lemma AssignMoves(e: Engine, inp: Input)
    requires Agrees(e.q)
    ensures Moves(e, Assign(e, inp), inp)
  {
    hide Agrees, Queue.Pop, Queue.InsertToProcessing, Queue.MinTimeout, TimesOut;
    AssignKeeps(e, inp);
    if e.q.receipt == [] {
      assert e.q.Pop() == (None, e.q) by { PopsNothing(e.q); }
    } else if inp.second.op.Some? {
      PopsHead(e.q);
      assert Starts(e, Assign(e, inp), e.q.receipt[0], inp.second.op.value, inp.delay);
    }
  }

  lemma IterationMoves(e: Engine, inp: Input)
    requires Agrees(e.q)
    ensures Moves(e, PerformCallProcessingIteration(e, inp), inp)
  {
    hide Agrees, Assign, TimesOut;
    if e.q.receipt != [] {
      RejectAllKeeps(e);
      RejectAllMoves(e);
      AssignMoves(RejectAllTimeoutCalls(e), inp);
      AssignKeeps(RejectAllTimeoutCalls(e), inp);
      MovesBehind(e, RejectAllTimeoutCalls(e), Assign(RejectAllTimeoutCalls(e), inp), inp);
    }
  }

  lemma MovesBehind(e: Engine, a: Engine, r: Engine, inp: Input)
    requires a.services == e.services && a.started == e.started && a.now == e.now
    requires forall d :: d in a.q.receipt ==> d in e.q.receipt
    requires forall x :: x in a.journal ==> x in e.journal || exists c :: c in e.q.receipt && TimesOut(e, c, x)
    requires Moves(a, r, inp) && r.journal == a.journal
    ensures Moves(e, r, inp)
  {
    hide TimesOut;
    if inp.second.op.Some? {
      assert forall c :: Starts(a, r, c, inp.second.op.value, inp.delay) ==>
          Starts(e, r, c, inp.second.op.value, inp.delay);
    }
  }

  /** What an event does to the calls, services and records. */
  ghost predicate Accounts(e: Engine, ev: Event, r: Engine) {
    && (forall d :: d in r.q.receipt ==> AtHand(e, ev, d))
    && (forall s :: s in r.services ==> s in e.services || Begins(e, ev, s))
    && (forall x :: x in r.journal ==>
          x in e.journal || (exists c :: Refuses(e, ev, c, x)) || (exists s :: Ends(e, ev, s, x)))
  }

  /** The engine `a` where the iteration of the event begins tells of the event what `e` does. */
  lemma MovesAccount(e: Engine, ev: Event, a: Engine, inp: Input)
    requires !ev.Advance? && ev.inp == inp && Handed(e, ev) == inp.second.op
    requires Moves(a, Apply(e, ev), inp) && a.now == e.now && a.started == e.started
    requires forall d :: d in a.q.receipt ==> AtHand(e, ev, d)
    requires forall s :: s in a.services ==> s in e.services
    requires forall x :: x in a.journal ==> x in e.journal || exists s :: Ends(e, ev, s, x)
    ensures Accounts(e, ev, Apply(e, ev))
  {
    hide Apply, AtHand, Handed, Ends, RecordOf;
    var r := Apply(e, ev);
    forall s | s in r.services && s !in e.services ensures Begins(e, ev, s) {
      var c :| c in a.q.receipt && Starts(a, r, c, inp.second.op.value, inp.delay);
      assert s == Service(c, inp.second.op.value, e.now, e.now + 1000 * inp.delay);
    }
    forall x | x in r.journal && x !in a.journal ensures exists c :: Refuses(e, ev, c, x) {
      var c :| c in a.q.receipt && TimesOut(a, c, x);
      assert Refuses(e, ev, c, x);
    }
  }

  lemma PushAccounts(e: Engine, c: Call, capacity: nat, inp: Input)
    requires Safe(e, None) && c.arrival == e.now
    ensures Accounts(e, Push(c, capacity, inp), PushCall(e, c, capacity, inp))
  {
    hide Agrees, Conserved, Counted, Recorded, PerformCallProcessingIteration, Refuses, Ends, RejectCall;
    var ev := Push(c, capacity, inp);
    var a := Arrive(e, c);
    BypassKeeps(a, c, inp);
    var (started, r) := StartCallProcessingIfPossible(a, c, inp);
    if !started {
      assert r.q == e.q;
      PushRefines(e.q, c, capacity);
      PushAdmitsIff(e.q, c, capacity);
      var (result, q) := r.q.Push(c, capacity);
      if result == Accepted {
        LetInAccounts(e, r, c, capacity, inp, q);
      } else {
        RefusalAccounts(e, r.(q := q), ev, if result == AlreadyQueued then AlreadyInQueue else Overload);
      }
    }
  }

  lemma RefusalAccounts(e: Engine, r: Engine, ev: Event, status: CallStatus)
    requires ev.Push? && Reason(e, ev, ev.c, status) && r.now == e.now
    requires r.q.receipt == e.q.receipt && r.services == e.services && r.journal == e.journal
    ensures Accounts(e, ev, RejectCall(r, ev.c, status))
  {
    hide Reason;
    assert Refuses(e, ev, ev.c, Waiting(ev.c).Complete(status, e.now));
  }

  lemma LetInAccounts(e: Engine, r: Engine, c: Call, capacity: nat, inp: Input, q: Queue)
    requires Agrees(q) && q.receipt == e.q.receipt + [c] && r.q == e.q && r.now == e.now && r.started == e.started
    requires r.services == e.services && r.journal == e.journal
    requires PushCall(e, c, capacity, inp) == PerformCallProcessingIteration(r.(q := q), inp)
    requires e.q.receipt != [] || inp.first.op.None?
    ensures Accounts(e, Push(c, capacity, inp), PushCall(e, c, capacity, inp))
  {
    hide Agrees, PerformCallProcessingIteration, PushCall;
    IterationMoves(r.(q := q), inp);
    MovesAccount(e, Push(c, capacity, inp), r.(q := q), inp);
  }

  lemma FinishAccounts(e: Engine, i: nat, inp: Input)
    requires Agrees(e.q) && i < |e.services|
    ensures Accounts(e, Finish(i, inp), FinishCallProcessing(e, i, inp))
  {
    hide Agrees, PerformCallProcessingIteration, Moves;
    var ev := Finish(i, inp);
    var s, a := e.services[i], Release(e, i, inp.returned);
    SameIndicesAgree(e.q, a.q);
    IterationMoves(a, inp);
    MembersOfRemoveAt(e.services, i);
    assert a.journal[|e.journal|].start == Some(s.start);
    assert Ends(e, ev, s, a.journal[|e.journal|]);
    MovesAccount(e, ev, a, inp);
  }

  lemma {:induction false} EventAccounts(e: Engine, ev: Event)
    requires Safe(e, None) && Enabled(e, ev)
    ensures Accounts(e, ev, Apply(e, ev))
  {
    hide Agrees, PerformCallProcessingIteration, Moves, FinishCallProcessing, PushCall, Accounts;
    match ev
    case Push(c, capacity, inp) => PushAccounts(e, c, capacity, inp);
    case Iteration(i, inp) =>
      IterationMoves(e.(tasks := RemoveAt(e.tasks, i)), inp);
      MovesAccount(e, ev, e.(tasks := RemoveAt(e.tasks, i)), inp);
    case Finish(i, inp) => FinishAccounts(e, i, inp);
    case Advance(to) => assert Accounts(e, ev, e.(now := to)) by { ClockAccounts(e, to); }
  }

  lemma ClockAccounts(e: Engine, to: int)
    ensures Accounts(e, Advance(to), e.(now := to))
  {
  }

  // ---------------------------------------------------------------------------------------------
  // What the events of a run did
  // ---------------------------------------------------------------------------------------------

  /** The engine as event `i` finds it. */
  function Before(e0: Engine, events: seq<Event>, i: nat): Engine
    requires i <= |events|
  {
    Exec(e0, events[..i])
  }

  /** Event `j` pushed the call, at the time of its arrival. */
  ghost predicate PushedAt(e0: Engine, events: seq<Event>, j: nat, c: Call) {
    j < |events| && events[j].Push? && events[j].c == c && c.arrival == Before(e0, events, j).now
  }

  ghost predicate BegunAt(e0: Engine, events: seq<Event>, i: nat, s: Service) {
    i < |events| && Begins(Before(e0, events, i), events[i], s)
  }

  /** The record came into the journal in event `k`. */
  ghost predicate WrittenAt(e0: Engine, events: seq<Event>, k: nat, r: Cdr) {
    && k < |events|
    && r !in Before(e0, events, k).journal && r in Apply(Before(e0, events, k), events[k]).journal
  }

  ghost predicate EndedAt(e0: Engine, events: seq<Event>, k: nat, s: Service, r: Cdr) {
    WrittenAt(e0, events, k, r) && Ends(Before(e0, events, k), events[k], s, r)
  }

  ghost predicate RefusedAt(e0: Engine, events: seq<Event>, k: nat, c: Call, r: Cdr) {
    WrittenAt(e0, events, k, r) && Refuses(Before(e0, events, k), events[k], c, r)
  }

  ghost predicate CallTold(e0: Engine, events: seq<Event>, c: Call) { exists j: nat :: PushedAt(e0, events, j, c) }

  ghost predicate ServiceTold(e0: Engine, events: seq<Event>, s: Service) {
    exists i: nat :: BegunAt(e0, events, i, s) && CallTold(e0, events[..i + 1], s.call)
  }

  ghost predicate RecordTold(e0: Engine, events: seq<Event>, r: Cdr) {
    || (exists k: nat, c: Call :: RefusedAt(e0, events, k, c, r) && CallTold(e0, events[..k + 1], c))
    || (exists k: nat, s: Service ::
          && EndedAt(e0, events, k, s, r) && ServiceTold(e0, events[..k], s)
          && r.complete == Some(s.due))
  }

  ghost predicate Told(e0: Engine, events: seq<Event>) {
    var e := Exec(e0, events);
    && (forall c :: c in e.q.receipt ==> CallTold(e0, events, c))
    && (forall s :: s in e.services ==> ServiceTold(e0, events, s))
    && (forall r :: r in e.journal ==> RecordTold(e0, events, r))
  }

  lemma SamePast(e0: Engine, events: seq<Event>, m: nat, i: nat)
    requires i <= m <= |events|
    ensures Before(e0, events[..m], i) == Before(e0, events, i)
  {
    assert events[..m][..i] == events[..i];
  }

  lemma CallStaysTold(e0: Engine, events: seq<Event>, m: nat, c: Call)
    requires m <= |events| && CallTold(e0, events[..m], c)
    ensures CallTold(e0, events, c)
  {
    hide Exec;
    var j: nat :| PushedAt(e0, events[..m], j, c);
    SamePast(e0, events, m, j);
    assert PushedAt(e0, events, j, c);
  }

  lemma ServiceStaysTold(e0: Engine, events: seq<Event>, m: nat, s: Service)
    requires m <= |events| && ServiceTold(e0, events[..m], s)
    ensures ServiceTold(e0, events, s)
  {
    hide Exec, Begins, CallTold;
    var i: nat :| BegunAt(e0, events[..m], i, s) && CallTold(e0, events[..m][..i + 1], s.call);
    SamePast(e0, events, m, i);
    assert events[..m][..i + 1] == events[..i + 1];
    assert BegunAt(e0, events, i, s);
  }

  lemma RecordStaysTold(e0: Engine, events: seq<Event>, m: nat, r: Cdr)
    requires m <= |events| && RecordTold(e0, events[..m], r)
    ensures RecordTold(e0, events, r)
  {
    hide Exec, Refuses, Ends, ServiceTold, CallTold, Apply;
    if k: nat, c: Call :| RefusedAt(e0, events[..m], k, c, r) && CallTold(e0, events[..m][..k + 1], c) {
      SamePast(e0, events, m, k);
      assert events[..m][..k + 1] == events[..k + 1];
      assert RefusedAt(e0, events, k, c, r);
    } else {
      var k: nat, s: Service :|
        EndedAt(e0, events[..m], k, s, r) && ServiceTold(e0, events[..m][..k], s) && r.complete == Some(s.due);
      SamePast(e0, events, m, k);
      assert events[..m][..k] == events[..k];
      assert EndedAt(e0, events, k, s, r);
    }
  }

  lemma StepTold(e0: Engine, events: seq<Event>, e: Engine, ev: Event)
    requires events != [] && ev == events[|events| - 1] && e == Exec(e0, events[..|events| - 1])
    requires Told(e0, events[..|events| - 1]) && Safe(e, None) && Enabled(e, ev)
    ensures Told(e0, events)
  {
    hide Apply, Agrees, Conserved, Counted, Recorded, NoOvertaking, Begins, Ends, Refuses;
    hide CallTold, ServiceTold, RecordTold;
    var m := |events| - 1;
    EventAccounts(e, ev);
    forall c | c in e.q.receipt ensures CallTold(e0, events, c) { CallStaysTold(e0, events, m, c); }
    if ev.Push? { PushTold(e0, events, e, ev); }
    forall s | s in e.services ensures ServiceTold(e0, events, s) { ServiceStaysTold(e0, events, m, s); }
    forall s | Begins(e, ev, s) ensures ServiceTold(e0, events, s) { ServiceTellable(e0, events, e, ev, s); }
    forall r | r in e.journal ensures RecordTold(e0, events, r) { RecordStaysTold(e0, events, m, r); }
    forall r | r in Apply(e, ev).journal && r !in e.journal ensures RecordTold(e0, events, r) {
      RecordTellable(e0, events, e, ev, r);
    }
  }

  lemma PushTold(e0: Engine, events: seq<Event>, e: Engine, ev: Event)
    requires events != [] && ev == events[|events| - 1] && e == Exec(e0, events[..|events| - 1])
    requires ev.Push? && ev.c.arrival == e.now
    ensures CallTold(e0, events, ev.c)
  {
    hide Exec;
    assert PushedAt(e0, events, |events| - 1, ev.c);
  }

  lemma ServiceTellable(e0: Engine, events: seq<Event>, e: Engine, ev: Event, s: Service)
    requires events != [] && ev == events[|events| - 1] && e == Exec(e0, events[..|events| - 1]) && Begins(e, ev, s)
    requires forall c :: c in e.q.receipt || (ev.Push? && ev.c == c) ==> CallTold(e0, events, c)
    ensures ServiceTold(e0, events, s)
  {
    hide Apply, Exec, CallTold;
    assert events[..|events| - 1 + 1] == events;
    assert BegunAt(e0, events, |events| - 1, s);
  }

  lemma RecordTellable(e0: Engine, events: seq<Event>, e: Engine, ev: Event, r: Cdr)
    requires events != [] && ev == events[|events| - 1] && e == Exec(e0, events[..|events| - 1]) && Enabled(e, ev)
    requires Clocked(e) && Accounts(e, ev, Apply(e, ev)) && r in Apply(e, ev).journal && r !in e.journal
    requires forall c :: c in e.q.receipt || (ev.Push? && ev.c == c) ==> CallTold(e0, events, c)
    requires forall s :: s in e.services ==> ServiceTold(e0, events[..|events| - 1], s)
    ensures RecordTold(e0, events, r)
  {
    hide Apply, Exec, CallTold, ServiceTold;
    var m := |events| - 1;
    assert WrittenAt(e0, events, m, r);
    if c :| Refuses(e, ev, c, r) {
      assert events[..m + 1] == events;
      assert RefusedAt(e0, events, m, c, r);
    } else {
      var s :| Ends(e, ev, s, r);
      assert s in e.services;
      assert EndedAt(e0, events, m, s, r);
    }
  }

  lemma {:induction false} RunTold(now: int, capacity: nat, free: set<nat>, events: seq<Event>)
    requires Feasible(Initial(now, capacity, free), events)
    ensures Told(Initial(now, capacity, free), events)
  {
    hide Safe, Apply, Enabled;
    var e0 := Initial(now, capacity, free);
    if events != [] {
      var m := |events| - 1;
      hide Told;
      RunTold(now, capacity, free, events[..m]);
      RunSafe(now, capacity, free, events[..m]);
      StepTold(e0, events, Exec(e0, events[..m]), events[m]);
    }
  }

  /**
   Every record of a served call: an event pushed the call, a later or the same event took an operator and started its
   service, and a later finish event wrote the record. It names the call and the operator taken, and its time points
   are the clock at the three events; the service took exactly as long as it was to take.
   */
  lemma ServedRecords(now: int, capacity: nat, free: set<nat>, events: seq<Event>, r: Cdr)
    returns (j: nat, i: nat, k: nat)
    requires Feasible(Initial(now, capacity, free), events)
    requires r in Exec(Initial(now, capacity, free), events).journal && r.status == Some(Ok)
    ensures j <= i < k < |events|
    ensures
      var e0 := Initial(now, capacity, free);
      var pushed, begun, ended := Before(e0, events, j), Before(e0, events, i), Before(e0, events, k);
      && events[j].Push? && RecordOf(r, events[j].c) && r.arrival == Some(pushed.now)
      && Apply(begun, events[i]).started == begun.started + [events[j].c]
      && r.start == Some(begun.now) && r.operatorId.Some? && r.operatorId == Handed(begun, events[i])
      && events[k].Finish? && r !in ended.journal && r in Apply(ended, events[k]).journal
      && r.complete == Some(ended.now) && ended.now == begun.now + Length(events[i])
  {
    hide Feasible, Exec, Apply, Handed, CallTold;
    var e0 := Initial(now, capacity, free);
    RunTold(now, capacity, free, events);
    assert RecordTold(e0, events, r);
    var s: Service;
    k, s :| EndedAt(e0, events, k, s, r) && ServiceTold(e0, events[..k], s) && r.complete == Some(s.due);
    i :| BegunAt(e0, events[..k], i, s) && CallTold(e0, events[..k][..i + 1], s.call);
    SamePast(e0, events, k, i);
    assert events[..k][..i + 1] == events[..i + 1];
    j := PushOf(e0, events, i, s.call);
  }

  lemma PushOf(e0: Engine, events: seq<Event>, i: nat, c: Call) returns (j: nat)
    requires i < |events| && CallTold(e0, events[..i + 1], c)
    ensures j <= i && PushedAt(e0, events, j, c)
  {
    hide Exec;
    j :| PushedAt(e0, events[..i + 1], j, c);
    SamePast(e0, events, i + 1, j);
  }

  /**
   Every record of a refused call: an event pushed the call and a later or the same event wrote the record. It names the
   call and no operator, and its time points are the clock at the two events. A call refused for waiting had reached its
   timeout point. Any other was refused by the event that pushed it: as a duplicate because its number was entered or
   waited from the same millisecond, for overload because as many calls waited as were to be let in.
   */
  lemma RefusedRecords(now: int, capacity: nat, free: set<nat>, events: seq<Event>, r: Cdr) returns (j: nat, k: nat)
    requires Feasible(Initial(now, capacity, free), events)
    requires r in Exec(Initial(now, capacity, free), events).journal && r.status != Some(Ok)
    ensures j <= k < |events|
    ensures
      var e0 := Initial(now, capacity, free);
      var pushed, refused := Before(e0, events, j), Before(e0, events, k);
      && events[j].Push? && RecordOf(r, events[j].c) && r.arrival == Some(pushed.now)
      && r !in refused.journal && r in Apply(refused, events[k]).journal
      && r.start == None && r.operatorId == None && r.complete == Some(refused.now)
      && r.status.Some? && Reason(refused, events[k], events[j].c, r.status.value)
      && (r.status.value == Timeout || j == k)
  {
    hide Feasible, Exec, Apply, CallTold, ServiceTold;
    var e0 := Initial(now, capacity, free);
    RunTold(now, capacity, free, events);
    assert RecordTold(e0, events, r);
    var c: Call;
    k, c :| RefusedAt(e0, events, k, c, r) && CallTold(e0, events[..k + 1], c);
    j := PushOf(e0, events, k, c);
    if r.status != Some(Timeout) {
      j := k;
      assert events[k] in events;
      PushedWhen(e0, events, k);
    }
  }

  lemma {:induction false} PushedWhen(e0: Engine, events: seq<Event>, k: nat)
    requires Feasible(e0, events) && k < |events|
    ensures Enabled(Before(e0, events, k), events[k])
  {
    hide Enabled, Exec;
    var m := |events| - 1;
    if k < m {
      PushedWhen(e0, events[..m], k);
      SamePast(e0, events, m, k);
    }
  }
}
