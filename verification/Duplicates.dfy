/**
 The promise that a number waiting or in service is refused. The queue knows the numbers that were entered when
 their calls began and not erased since, and it erases by number; so it is said here when it knows a number.
 */
module Duplicates {
  import opened Options
  import opened CallDetailedRecords
  import opened CallQueues
  import opened Sequences
  import opened Engines
  import opened EngineSafety

  ghost predicate Waits(e: Engine, phone: string) { exists d :: d in e.q.receipt && d.phone == phone }

  ghost predicate InService(e: Engine, phone: string) { exists s :: s in e.services && s.call.phone == phone }

  /** A call of the same number that waits from the same millisecond. */
  ghost predicate Twin(e: Engine, c: Call) {
    exists d :: d in e.q.receipt && d.phone == c.phone && d.arrival == c.arrival
  }

  ghost predicate RefusedAsDuplicate(e: Engine, c: Call, r: Engine) {
    r.journal == e.journal + [Waiting(c).Complete(AlreadyInQueue, e.now)]
  }

  /** A pushed call is refused as a duplicate exactly when its number is entered or has a twin. */
  lemma DuplicateRefusedIff(e: Engine, c: Call, capacity: nat, inp: Input)
    requires Safe(e, None) && c.arrival == e.now
    ensures RefusedAsDuplicate(e, c, PushCall(e, c, capacity, inp)) <==> c.phone in e.q.processing || Twin(e, c)
  {
    hide Agrees, Conserved, Counted, Recorded, ServesNext, PushCall;
    PushFate(e, c, capacity, inp);
    var r := PushCall(e, c, capacity, inp);
    if RefusedAsDuplicate(e, c, r) { assert r.journal[|e.journal|] == Waiting(c).Complete(AlreadyInQueue, e.now); }
  }

  // ---------------------------------------------------------------------------------------------
  // Which numbers are entered
  // ---------------------------------------------------------------------------------------------

  /** A handler starts no call and enters no number, or starts one and enters its number. */
  ghost predicate EntersWhatStarts(e: Engine, r: Engine) {
    || (r.started == e.started && r.q.processing.Keys == e.q.processing.Keys)
    || (exists c: Call :: r.started == e.started + [c] && r.q.processing.Keys == e.q.processing.Keys + {c.phone})
  }

  /** When the head of the queue enters, no other waiting call can be taken for it. */
  lemma HeadEnters(q: Queue)
    requires Agrees(q) && q.receipt != []
    ensures var (head, rest) := q.Pop();
      && head == Some(q.receipt[0]) && rest.InsertToProcessing(head.value).1.receipt == q.receipt[1..]
      && rest.InsertToProcessing(head.value).1.processing.Keys == q.processing.Keys + {head.value.phone}
  {
    hide SameCalls, Sorted, TiesInArrivalOrder, Queue.Pop;
    var k := PopAgrees(q);
    var c := q.receipt[0];
    var rest := q.Pop().1;
    assert rest.receipt == q.receipt[1..];
    assert forall i :: 0 <= i < |rest.receipt| ==> rest.receipt[i] == q.receipt[i + 1];
    assert forall i :: 0 <= i < |rest.receipt| ==> !Matches(ReceiptOrder, rest.receipt[i], c);
  }

  lemma AssignEnters(e: Engine, inp: Input)
    requires Agrees(e.q)
    ensures EntersWhatStarts(e, Assign(e, inp))
  {
    hide Agrees;
    if inp.second.op.Some? && e.q.receipt != [] {
      HeadEnters(e.q);
      var c := e.q.Pop().0.value;
      assert Assign(e, inp).started == e.started + [c];
    }
  }

  lemma IterationEnters(e: Engine, inp: Input)
    requires Agrees(e.q)
    ensures EntersWhatStarts(e, PerformCallProcessingIteration(e, inp))
  {
    hide Agrees;
    if e.q.receipt != [] {
      RejectAllKeeps(e);
      RejectAllLeavesNumbers(e);
      AssignEnters(RejectAllTimeoutCalls(e), inp);
    }
  }

  lemma {:induction false} RejectAllLeavesNumbers(e: Engine)
    ensures RejectAllTimeoutCalls(e).q.processing == e.q.processing
    decreases |e.q.timeouts|
  {
    var (c, q) := e.q.EraseTimeout(e.now);
    if c.Some? { RejectAllLeavesNumbers(RejectCall(e.(q := q), c.value, Timeout)); }
  }

  lemma BypassEnters(e: Engine, c: Call, inp: Input)
    ensures var (started, r) := StartCallProcessingIfPossible(e, c, inp);
      if started then r.started == e.started + [c] && r.q.processing.Keys == e.q.processing.Keys + {c.phone}
      else r.started == e.started && r.q.processing == e.q.processing
  {
  }

  lemma PushEnters(e: Engine, c: Call, capacity: nat, inp: Input)
    requires Safe(e, None) && c.arrival == e.now
    ensures EntersWhatStarts(e, PushCall(e, c, capacity, inp))
  {
    hide Agrees, Conserved, Counted, Recorded;
    var a := Arrive(e, c);
    BypassEnters(a, c, inp);
    BypassKeeps(a, c, inp);
    var (started, r) := StartCallProcessingIfPossible(a, c, inp);
    if !started {
      var (result, q) := r.q.Push(c, capacity);
      if result == Accepted {
        SameIndicesAgree(e.q, r.q);
        PushKeepsAgreement(r.q, c, capacity);
        IterationEnters(r.(q := q), inp);
      }
    }
  }

  /** A call of the number has begun. */
  predicate Starts(e: Engine, r: Engine, phone: string) {
    |r.started| > |e.started| && r.started[|r.started| - 1].phone == phone
  }

  /** A service of the number has ended. */
  predicate Ends(e: Engine, ev: Event, phone: string) {
    ev.Finish? && ev.i < |e.services| && e.services[ev.i].call.phone == phone
  }

  lemma {:induction false} EventNumbers(e: Engine, ev: Event, phone: string)
    requires Safe(e, None) && Enabled(e, ev)
    ensures phone in Apply(e, ev).q.processing <==>
      Starts(e, Apply(e, ev), phone) || (phone in e.q.processing && !Ends(e, ev, phone))
  {
    hide Agrees, Conserved, Counted, Recorded;
    match ev
    case Push(c, capacity, inp) => PushEnters(e, c, capacity, inp);
    case Iteration(i, inp) => IterationEnters(e.(tasks := RemoveAt(e.tasks, i)), inp);
    case Finish(i, inp) =>
      SameIndicesAgree(e.q, Release(e, i, inp.returned).q);
      IterationEnters(Release(e, i, inp.returned), inp);
    case Advance(to) =>
  }

  /** Of all starts and ends of services of the number the last was a start. */
  ghost predicate StartedLast(e: Engine, events: seq<Event>, phone: string) {
    events != [] &&
      var m := |events| - 1;
      var before := Exec(e, events[..m]);
      || Starts(before, Apply(before, events[m]), phone)
      || (StartedLast(e, events[..m], phone) && !Ends(before, events[m], phone))
  }

  /**
   In every run a number is entered exactly when the last start or end of a service of it was a start. So a number
   in service is missing exactly when another service of it has ended since the present ones began.
   */
  lemma {:induction false} EnteredIff(now: int, capacity: nat, free: set<nat>, events: seq<Event>, phone: string)
    requires Feasible(Initial(now, capacity, free), events)
    ensures phone in Exec(Initial(now, capacity, free), events).q.processing
       <==> StartedLast(Initial(now, capacity, free), events, phone)
  {
    hide Safe, Apply, Enabled, Starts, Ends;
    if events != [] {
      var m := |events| - 1;
      RunSafe(now, capacity, free, events[..m]);
      EnteredIff(now, capacity, free, events[..m], phone);
      EventNumbers(Exec(Initial(now, capacity, free), events[..m]), events[m], phone);
    }
  }

  /**
   The promise and what is kept of it. After every run exactly those calls are refused as duplicates whose number
   waits from the same millisecond or of whose services the last start or end was a start.
   */
  lemma RefusedIff(now: int, capacity: nat, free: set<nat>, events: seq<Event>, c: Call, configured: nat, inp: Input)
    requires Feasible(Initial(now, capacity, free), events)
    requires Enabled(Exec(Initial(now, capacity, free), events), Push(c, configured, inp))
    ensures var e := Exec(Initial(now, capacity, free), events);
            (RefusedAsDuplicate(e, c, PushCall(e, c, configured, inp)) <==>
               StartedLast(Initial(now, capacity, free), events, c.phone) || Twin(e, c))
  {
    hide Safe, PushCall, Feasible, Exec, StartedLast;
    RunSafe(now, capacity, free, events);
    EnteredIff(now, capacity, free, events, c.phone);
    DuplicateRefusedIff(Exec(Initial(now, capacity, free), events), c, configured, inp);
  }

  // ---------------------------------------------------------------------------------------------
  // When every number in service is entered
  // ---------------------------------------------------------------------------------------------

  /** A call is let in while another one with its number waits, from another millisecond. */
  ghost predicate Doubles(e: Engine, ev: Event) {
    ev.Push? && e.q.Push(ev.c, ev.capacity).0 == Accepted && Waits(e, ev.c.phone)
  }

  ghost predicate Undoubled(e: Engine, events: seq<Event>) {
    events != [] ==>
      var m := |events| - 1;
      Undoubled(e, events[..m]) && !Doubles(Exec(e, events[..m]), events[m])
  }

  ghost predicate OneOfEach(s: seq<Service>) {
    forall i, j :: 0 <= i < j < |s| ==> s[i].call.phone != s[j].call.phone
  }

  ghost predicate NoneAlike(s: seq<Call>) { forall c, d :: c in s && d in s && c.phone == d.phone ==> c == d }

  /** The numbers entered are those in service. */
  ghost predicate EnteredAreServed(e: Engine) { forall p :: p in e.q.processing <==> InService(e, p) }

  /** No number twice among the calls that wait or are in service, and those in service are the numbers entered. */
  ghost predicate Apart(e: Engine) {
    && NoneAlike(e.q.receipt) && OneOfEach(e.services) && EnteredAreServed(e)
    && (forall d :: d in e.q.receipt ==> d.phone !in e.q.processing)
  }

  /** A waiting call goes over into service and its number is entered. */
  ghost predicate GoesOver(e: Engine, r: Engine, s: Service) {
    && r.services == e.services + [s] && s.call in e.q.receipt && s.call !in r.q.receipt
    && r.q.processing.Keys == e.q.processing.Keys + {s.call.phone}
  }

  /** At most one call does, and no other joins the queue. */
  ghost predicate HandsOver(e: Engine, r: Engine) {
    && (forall d :: d in r.q.receipt ==> d in e.q.receipt)
    && (|| (r.services == e.services && r.q.processing.Keys == e.q.processing.Keys)
        || exists s: Service :: GoesOver(e, r, s))
  }

  lemma HandsOverApart(e: Engine, r: Engine)
    requires Apart(e) && HandsOver(e, r)
    ensures Apart(r)
  {
    hide OneOfEach, EnteredAreServed;
    if s: Service :| GoesOver(e, r, s) {
      ServedAfter(e, r, s);
    } else {
      SameServed(e, r);
    }
  }

  lemma SameServed(e: Engine, r: Engine)
    requires EnteredAreServed(e) && r.services == e.services && r.q.processing.Keys == e.q.processing.Keys
    ensures EnteredAreServed(r)
  {
    forall p ensures p in r.q.processing <==> InService(r, p) { assert p in e.q.processing <==> InService(e, p); }
  }

  /** A call whose number was not entered begins, and its number is. */
  lemma ServedAfter(e: Engine, r: Engine, s: Service)
    requires OneOfEach(e.services) && EnteredAreServed(e) && s.call.phone !in e.q.processing
    requires r.services == e.services + [s] && r.q.processing.Keys == e.q.processing.Keys + {s.call.phone}
    ensures OneOfEach(r.services) && EnteredAreServed(r)
  {
    forall p ensures InService(r, p) <==> InService(e, p) || p == s.call.phone { ServiceAdded(e, r, s, p); }
    forall i | 0 <= i < |e.services| ensures e.services[i].call.phone != s.call.phone {
      assert e.services[i] in e.services;
      assert !InService(e, s.call.phone);
    }
    forall p ensures p in r.q.processing <==> InService(r, p) { assert p in e.q.processing <==> InService(e, p); }
  }

  lemma ServiceAdded(e: Engine, r: Engine, s: Service, p: string)
    requires r.services == e.services + [s]
    ensures InService(r, p) <==> InService(e, p) || p == s.call.phone
  {
    assert s in r.services;
    if InService(e, p) {
      var t :| t in e.services && t.call.phone == p;
      assert t in r.services;
    }
  }

  lemma AssignHandsOver(e: Engine, inp: Input)
    requires Agrees(e.q)
    ensures HandsOver(e, Assign(e, inp))
  {
    hide Agrees, Queue.Pop, Queue.InsertToProcessing, Queue.MinTimeout;
    if e.q.receipt == [] {
      PopsNothing(e.q);
    } else if inp.second.op.Some? {
      HeadEnters(e.q);
      HeadStandsOnce(e.q);
      assert GoesOver(e, Assign(e, inp), Service(e.q.receipt[0], inp.second.op.value, e.now, e.now + 1000 * inp.delay));
    }
  }

  lemma PopsNothing(q: Queue)
    requires q.receipt == []
    ensures q.Pop() == (None, q)
  {
  }

  lemma IterationHandsOver(e: Engine, inp: Input)
    requires Agrees(e.q)
    ensures HandsOver(e, PerformCallProcessingIteration(e, inp))
  {
    hide Agrees, Assign;
    if e.q.receipt != [] {
      RejectAllKeeps(e);
      RejectAllLeavesNumbers(e);
      AssignHandsOver(RejectAllTimeoutCalls(e), inp);
      HandsOverBehind(e, RejectAllTimeoutCalls(e), Assign(RejectAllTimeoutCalls(e), inp));
    }
  }

  lemma HandsOverBehind(e: Engine, a: Engine, r: Engine)
    requires a.services == e.services && a.q.processing == e.q.processing && HandsOver(a, r)
    requires forall d :: d in a.q.receipt ==> d in e.q.receipt
    ensures HandsOver(e, r)
  {
    if s: Service :| GoesOver(a, r, s) { assert GoesOver(e, r, s); }
  }

  lemma HeadStandsOnce(q: Queue)
    requires Agrees(q) && q.receipt != []
    ensures q.receipt[0] in q.receipt && q.receipt[0] !in q.receipt[1..]
  {
    hide SameCalls, Sorted, TiesInArrivalOrder;
    assert forall i :: 0 < i < |q.receipt| ==> !Matches(ReceiptOrder, q.receipt[0], q.receipt[i]);
  }

  lemma PushApart(e: Engine, c: Call, capacity: nat, inp: Input)
    requires Safe(e, None) && c.arrival == e.now && Apart(e) && !Doubles(e, Push(c, capacity, inp))
    ensures Apart(PushCall(e, c, capacity, inp))
  {
    hide Agrees, Conserved, Counted, Recorded, HandsOver, PerformCallProcessingIteration;
    var a := Arrive(e, c);
    BypassEnters(a, c, inp);
    BypassKeeps(a, c, inp);
    var (started, r) := StartCallProcessingIfPossible(a, c, inp);
    if started {
      StartedApart(e, r, c, inp.first.op.value, inp.delay);
    } else {
      SameApart(e, r);
      var (result, q) := r.q.Push(c, capacity);
      SameIndicesAgree(e.q, r.q);
      if result == Accepted {
        PushRefines(r.q, c, capacity);
        PushAdmitsIff(r.q, c, capacity);
        AddedApart(r, c, q);
        PushKeepsAgreement(r.q, c, capacity);
        IterationHandsOver(r.(q := q), inp);
        HandsOverApart(r.(q := q), PerformCallProcessingIteration(r.(q := q), inp));
      } else {
        SameApart(r, Enqueue(r, c, capacity, inp));
      }
    }
  }

  lemma SameApart(e: Engine, r: Engine)
    requires Apart(e) && r.q.receipt == e.q.receipt && r.q.processing == e.q.processing && r.services == e.services
    ensures Apart(r)
  {
    hide EnteredAreServed;
    SameServed(e, r);
  }

  lemma StartedApart(e: Engine, r: Engine, c: Call, op: nat, delay: nat)
    requires Apart(e) && r.q.receipt == [] && c.phone !in e.q.processing
    requires r.services == e.services + [Service(c, op, e.now, e.now + 1000 * delay)]
    requires r.q.processing.Keys == e.q.processing.Keys + {c.phone}
    ensures Apart(r)
  {
    hide EnteredAreServed, OneOfEach;
    ServedAfter(e, r, Service(c, op, e.now, e.now + 1000 * delay));
  }

  lemma AddedApart(e: Engine, c: Call, q: Queue)
    requires Apart(e) && c.phone !in e.q.processing && !Waits(e, c.phone)
    requires q.receipt == e.q.receipt + [c] && q.processing == e.q.processing
    ensures Apart(e.(q := q))
  {
    hide EnteredAreServed, OneOfEach;
    SameServed(e, e.(q := q));
  }

  lemma ReleaseApart(e: Engine, i: nat, returned: set<nat>)
    requires Apart(e) && i < |e.services|
    ensures Apart(Release(e, i, returned))
  {
    hide EnteredAreServed, OneOfEach;
    var r := Release(e, i, returned);
    ReleasedServed(e, r, i);
  }

  lemma ReleasedServed(e: Engine, r: Engine, i: nat)
    requires OneOfEach(e.services) && EnteredAreServed(e) && i < |e.services|
    requires r.services == RemoveAt(e.services, i)
    requires r.q.processing.Keys == e.q.processing.Keys - {e.services[i].call.phone}
    ensures OneOfEach(r.services) && EnteredAreServed(r)
  {
    var s := RemoveAt(e.services, i);
    assert forall k :: 0 <= k < |s| ==> s[k] == e.services[if k < i then k else k + 1];
    forall p ensures p in r.q.processing <==> InService(r, p) {
      assert p in e.q.processing <==> InService(e, p);
      ServiceRemoved(e, r, i, p);
    }
  }

  lemma ServiceRemoved(e: Engine, r: Engine, i: nat, p: string)
    requires OneOfEach(e.services) && i < |e.services| && r.services == RemoveAt(e.services, i)
    ensures InService(r, p) <==> InService(e, p) && p != e.services[i].call.phone
  {
    MembersOfRemoveAt(e.services, i);
    if InService(r, p) {
      var k :| 0 <= k < |r.services| && r.services[k].call.phone == p;
      assert r.services[k] == e.services[if k < i then k else k + 1];
    }
    if InService(e, p) && p != e.services[i].call.phone {
      var t :| t in e.services && t.call.phone == p;
      assert t in r.services;
    }
  }

  lemma {:induction false} EventApart(e: Engine, ev: Event)
    requires Safe(e, None) && Enabled(e, ev) && Apart(e) && !Doubles(e, ev)
    ensures Apart(Apply(e, ev))
  {
    hide Agrees, Conserved, Counted, Recorded, Apart, HandsOver, PerformCallProcessingIteration;
    match ev
    case Push(c, capacity, inp) => PushApart(e, c, capacity, inp);
    case Iteration(i, inp) =>
      var a := e.(tasks := RemoveAt(e.tasks, i));
      SameApart(e, a);
      IterationHandsOver(a, inp);
      HandsOverApart(a, PerformCallProcessingIteration(a, inp));
    case Finish(i, inp) =>
      var a := Release(e, i, inp.returned);
      ReleaseApart(e, i, inp.returned);
      SameIndicesAgree(e.q, a.q);
      IterationHandsOver(a, inp);
      HandsOverApart(a, PerformCallProcessingIteration(a, inp));
    case Advance(to) => SameApart(e, e.(now := to));
  }

  lemma {:induction false} RunApart(now: int, capacity: nat, free: set<nat>, events: seq<Event>)
    requires Feasible(Initial(now, capacity, free), events) && Undoubled(Initial(now, capacity, free), events)
    ensures Apart(Exec(Initial(now, capacity, free), events))
  {
    hide Safe, Apply, Enabled, Doubles;
    if events != [] {
      var m := |events| - 1;
      RunSafe(now, capacity, free, events[..m]);
      RunApart(now, capacity, free, events[..m]);
      EventApart(Exec(Initial(now, capacity, free), events[..m]), events[m]);
    }
  }

  /**
   As long as no call was let in while another one with its number waited, the numbers in service are exactly those
   entered. Then every call whose number is in service is refused.
   */
  lemma NumberInServiceRefused(now: int, capacity: nat, free: set<nat>, events: seq<Event>,
                               c: Call, configured: nat, inp: Input)
    requires Feasible(Initial(now, capacity, free), events) && Undoubled(Initial(now, capacity, free), events)
    requires Enabled(Exec(Initial(now, capacity, free), events), Push(c, configured, inp))
    ensures var e := Exec(Initial(now, capacity, free), events);
      && (forall p :: p in e.q.processing <==> InService(e, p))
      && (InService(e, c.phone) ==> RefusedAsDuplicate(e, c, PushCall(e, c, configured, inp)))
  {
    hide Safe, PushCall, Feasible, Exec, Undoubled;
    var e := Exec(Initial(now, capacity, free), events);
    RunSafe(now, capacity, free, events);
    RunApart(now, capacity, free, events);
    if InService(e, c.phone) { DuplicateRefusedIff(e, c, configured, inp); }
  }

  // ---------------------------------------------------------------------------------------------
  // No number is refused that neither waits nor is in service
  // ---------------------------------------------------------------------------------------------

  ghost predicate OnlyServedEntered(e: Engine) { forall p :: p in e.q.processing ==> InService(e, p) }

  lemma HandsOverEntered(e: Engine, r: Engine)
    requires OnlyServedEntered(e) && HandsOver(e, r)
    ensures OnlyServedEntered(r)
  {
    if s: Service :| GoesOver(e, r, s) {
      forall p | p in r.q.processing ensures InService(r, p) { ServiceAdded(e, r, s, p); }
    } else {
      forall p | p in r.q.processing ensures InService(r, p) { assert InService(e, p); }
    }
  }

  lemma PushEntered(e: Engine, c: Call, capacity: nat, inp: Input)
    requires Safe(e, None) && c.arrival == e.now && OnlyServedEntered(e)
    ensures OnlyServedEntered(PushCall(e, c, capacity, inp))
  {
    hide Agrees, Conserved, Counted, Recorded, HandsOver, PerformCallProcessingIteration;
    var a := Arrive(e, c);
    BypassEnters(a, c, inp);
    BypassKeeps(a, c, inp);
    var (started, r) := StartCallProcessingIfPossible(a, c, inp);
    if started {
      var s := Service(c, inp.first.op.value, e.now, e.now + 1000 * inp.delay);
      forall p | p in r.q.processing ensures InService(r, p) { ServiceAdded(e, r, s, p); }
    } else {
      var (result, q) := r.q.Push(c, capacity);
      assert forall p :: p in q.processing ==> InService(e, p);
      if result == Accepted {
        SameIndicesAgree(e.q, r.q);
        PushKeepsAgreement(r.q, c, capacity);
        IterationHandsOver(r.(q := q), inp);
        HandsOverEntered(r.(q := q), PerformCallProcessingIteration(r.(q := q), inp));
      }
    }
  }

  lemma ReleaseEntered(e: Engine, i: nat, returned: set<nat>)
    requires OnlyServedEntered(e) && i < |e.services|
    ensures OnlyServedEntered(Release(e, i, returned))
  {
    var r := Release(e, i, returned);
    MembersOfRemoveAt(e.services, i);
    forall p | p in r.q.processing ensures InService(r, p) {
      assert InService(e, p);
      var t :| t in e.services && t.call.phone == p;
      assert t in r.services;
    }
  }

  lemma {:induction false} EventEntered(e: Engine, ev: Event)
    requires Safe(e, None) && Enabled(e, ev) && OnlyServedEntered(e)
    ensures OnlyServedEntered(Apply(e, ev))
  {
    hide Agrees, Conserved, Counted, Recorded, OnlyServedEntered, HandsOver, PerformCallProcessingIteration;
    match ev
    case Push(c, capacity, inp) => PushEntered(e, c, capacity, inp);
    case Iteration(i, inp) =>
      var a := e.(tasks := RemoveAt(e.tasks, i));
      SameEntered(e, a);
      IterationHandsOver(a, inp);
      HandsOverEntered(a, PerformCallProcessingIteration(a, inp));
    case Finish(i, inp) =>
      var a := Release(e, i, inp.returned);
      ReleaseEntered(e, i, inp.returned);
      SameIndicesAgree(e.q, a.q);
      IterationHandsOver(a, inp);
      HandsOverEntered(a, PerformCallProcessingIteration(a, inp));
    case Advance(to) => SameEntered(e, e.(now := to));
  }

  lemma SameEntered(e: Engine, r: Engine)
    requires OnlyServedEntered(e) && r.q.processing == e.q.processing && r.services == e.services
    ensures OnlyServedEntered(r)
  {
    assert forall p :: p in r.q.processing ==> InService(e, p);
  }

  lemma {:induction false} RunEntered(now: int, capacity: nat, free: set<nat>, events: seq<Event>)
    requires Feasible(Initial(now, capacity, free), events)
    ensures OnlyServedEntered(Exec(Initial(now, capacity, free), events))
  {
    hide Safe, Apply, Enabled;
    if events != [] {
      var m := |events| - 1;
      RunSafe(now, capacity, free, events[..m]);
      RunEntered(now, capacity, free, events[..m]);
      EventEntered(Exec(Initial(now, capacity, free), events[..m]), events[m]);
    }
  }

  /** In every run a call refused as a duplicate has a number that waits or is in service. */
  lemma RefusedRightly(now: int, capacity: nat, free: set<nat>, events: seq<Event>, c: Call, configured: nat,
                       inp: Input)
    requires Feasible(Initial(now, capacity, free), events)
    requires Enabled(Exec(Initial(now, capacity, free), events), Push(c, configured, inp))
    ensures var e := Exec(Initial(now, capacity, free), events);
            (RefusedAsDuplicate(e, c, PushCall(e, c, configured, inp)) ==> Waits(e, c.phone) || InService(e, c.phone))
  {
    hide Safe, PushCall, Feasible, Exec;
    var e := Exec(Initial(now, capacity, free), events);
    RunSafe(now, capacity, free, events);
    RunEntered(now, capacity, free, events);
    DuplicateRefusedIff(e, c, configured, inp);
  }
}
