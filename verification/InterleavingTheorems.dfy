/** What holds in every interleaving, in the words of the program. */
module InterleavingTheorems {
  import opened Options
  import opened CallDetailedRecords
  import opened CallQueues
  import opened QueueingMetrics
  import opened Expiries
  import opened Interleavings
  import opened Ownership
  import opened InterleavingSafety

  /** Some interleaving of some handlers leads to `w`, under one longest wait and whatever resizing of the pool. */
  ghost predicate Reachable(w: World) {
    exists now: int, wait: nat, capacity: nat, operators: set<nat>, hs: seq<Happening> ::
      Possible(Initial(now, wait, capacity, operators), hs) && w == History(Initial(now, wait, capacity, operators), hs)
  }

  lemma ReachableTied(w: World) returns (l: Ledger)
    requires Reachable(w)
    ensures Tied(w, l)
  {
    hide Tied, Possible, History, Initial;
    var now: int, wait: nat, capacity: nat, operators: set<nat>, hs: seq<Happening> :|
      && Possible(Initial(now, wait, capacity, operators), hs)
      && w == History(Initial(now, wait, capacity, operators), hs);
    l := HistoryTied(now, wait, capacity, operators, hs);
  }

  lemma ReachableStep(w: World, h: Happening)
    requires Reachable(w) && Enabled(w, h)
    ensures Reachable(Happen(w, h))
  {
    hide Happen, Enabled, Initial;
    var now: int, wait: nat, capacity: nat, operators: set<nat>, hs: seq<Happening> :|
      && Possible(Initial(now, wait, capacity, operators), hs)
      && w == History(Initial(now, wait, capacity, operators), hs);
    var w0 := Initial(now, wait, capacity, operators);
    var more := hs + [h];
    assert more[..|more| - 1] == hs;
    assert Possible(w0, more) && Happen(w, h) == History(w0, more);
  }

  // Ownership.

  /** Each operator is free, in the hands of one thread, or serving one call, and exactly one of these. */
  lemma OperatorInOnePlace(w: World, op: nat)
    requires Reachable(w) && op in w.operators
    ensures One(op in w.free) + One(exists t :: HeldOperator(At(w, t)) == Some(op))
          + One(exists f :: f in w.finishes && f.op == op) == 1
    ensures forall t, u :: HeldOperator(At(w, t)) == Some(op) && HeldOperator(At(w, u)) == Some(op) ==> t == u
    ensures forall f, g :: f in w.finishes && g in w.finishes && f.op == op && g.op == op ==> f == g
  {
    hide Reachable, HeldOperator, At, StatusesFit, CallsTied, Agrees, NoneStranded;
    var l := ReachableTied(w);
    match l.ops[op]
    case InFree =>
    case HeldBy(t) => assert HeldOperator(At(w, t)) == Some(op);
    case Serving(f) => assert f in w.finishes && f.op == op;
  }

  /** Each pushed call is in the hands of one thread, queued, in service, or in the journal, exactly one of these. */
  lemma CallInOnePlace(w: World, c: nat)
    requires Reachable(w) && c in w.records
    ensures One(exists t :: HeldCall(At(w, t)) == Some(c)) + One(exists d :: d in w.q.receipt && d.id == c)
          + One(exists f :: f in w.finishes && f.c == c) + One(c in w.journal) == 1
    ensures forall t, u :: HeldCall(At(w, t)) == Some(c) && HeldCall(At(w, u)) == Some(c) ==> t == u
    ensures forall f, g :: f in w.finishes && g in w.finishes && f.c == c && g.c == c ==> f == g
  {
    hide Reachable, HeldCall, At, OperatorsTied, RecordsFit, CountersFit, NumbersOwned, NotifiedOnce, Agrees;
    hide NoneStranded, Distinct;
    var l := ReachableTied(w);
    match l.calls[c]
    case With(t) => assert HeldCall(At(w, t)) == Some(c);
    case Queued => assert CallOf(Record(w, c)) in w.q.receipt && CallOf(Record(w, c)).id == c;
    case InService(f) => assert f in w.finishes && f.c == c;
    case Done =>
  }

  /** No assertion of the program but one can fail, whatever the interleaving and the resizing. */
  lemma AssertionsHold(w: World, t: nat)
    requires Reachable(w) && t in w.threads
    ensures AssertionHolds(w, t)
  {
    hide Reachable, OperatorsTied, CallsPlaced, RecordsFit, CountersFit, NumbersOwned, NotifiedOnce, Agrees;
    hide NoneStranded;
    var l := ReachableTied(w);
    var pc := w.threads[t];
    if HeldCall(pc).Some? { HandHolds(w, l.calls, t, HeldCall(pc).value); }
    if HeldOperator(pc).Some? { HandStatus(w, l.ops, t, HeldOperator(pc).value); }
  }

  /** Neither of the unsigned counters is at zero when a thread is about to take one off. */
  lemma CountersNeverWrap(w: World, t: nat)
    requires Reachable(w) && t in w.threads
    ensures w.threads[t].CountStart? || w.threads[t].CountRefusal? ==> w.counters.queueSize > 0
    ensures w.threads[t].CountRefusal? || w.threads[t].CountComplete? ==> w.counters.inSystem > 0
  {
    hide Reachable, OperatorsTied, CallsPlaced, RecordsFit, CountersFit, NumbersOwned, NotifiedOnce, Agrees;
    hide NoneStranded;
    var l := ReachableTied(w);
    if HeldCall(w.threads[t]).Some? {
      HandHolds(w, l.calls, t, HeldCall(w.threads[t]).value);
      HandCounted(w, l.calls, t, HeldCall(w.threads[t]).value);
    }
  }

  // One status, one notification, one journal record.

  lemma PushWritesNoFinished(w: World, t: nat, ch: Choice, c: nat)
    requires t in w.threads && AssertionHolds(w, t)
    requires c in w.records && w.records[c].WasFinished() && w.records[c].Valid()
    ensures c in PushSteps(w, t, ch).records && PushSteps(w, t, ch).records[c] == w.records[c]
  {
    hide Queue.InsertToProcessing, Queue.Push, Queue.Pop, Queue.EraseTimeout, Queue.EraseFromProcessing;
    hide Queue.MinTimeout;
    hide Decrement, CallOf;
  }

  lemma RejectWritesNoFinished(w: World, t: nat, c: nat)
    requires t in w.threads && AssertionHolds(w, t)
    requires c in w.records && w.records[c].WasFinished() && w.records[c].Valid()
    ensures c in RejectSteps(w, t).records && RejectSteps(w, t).records[c] == w.records[c]
  {
    hide Queue.InsertToProcessing, Queue.Push, Queue.Pop, Queue.EraseTimeout, Queue.EraseFromProcessing;
    hide Queue.MinTimeout;
    hide Decrement, CallOf;
  }

  lemma StartWritesNoFinished(w: World, t: nat, ch: Choice, c: nat)
    requires t in w.threads && AssertionHolds(w, t)
    requires c in w.records && w.records[c].WasFinished() && w.records[c].Valid()
    ensures c in StartSteps(w, t, ch).records && StartSteps(w, t, ch).records[c] == w.records[c]
  {
    hide Queue.InsertToProcessing, Queue.Push, Queue.Pop, Queue.EraseTimeout, Queue.EraseFromProcessing;
    hide Queue.MinTimeout;
    hide Decrement, CallOf;
  }

  lemma IterationWritesNoFinished(w: World, t: nat, ch: Choice, c: nat)
    requires t in w.threads && AssertionHolds(w, t)
    requires c in w.records && w.records[c].WasFinished() && w.records[c].Valid()
    ensures c in IterationSteps(w, t, ch).records && IterationSteps(w, t, ch).records[c] == w.records[c]
  {
    hide Queue.InsertToProcessing, Queue.Push, Queue.Pop, Queue.EraseTimeout, Queue.EraseFromProcessing;
    hide Queue.MinTimeout;
    hide Decrement, CallOf;
  }

  lemma FinishWritesNoFinished(w: World, t: nat, c: nat)
    requires t in w.threads && AssertionHolds(w, t)
    requires c in w.records && w.records[c].WasFinished() && w.records[c].Valid()
    ensures c in FinishSteps(w, t).records && FinishSteps(w, t).records[c] == w.records[c]
  {
    hide Queue.InsertToProcessing, Queue.Push, Queue.Pop, Queue.EraseTimeout, Queue.EraseFromProcessing;
    hide Queue.MinTimeout;
    hide Decrement, CallOf;
  }

  /** A thread that finds its assertion true does not write a finished record. */
  lemma RunWritesNoFinished(w: World, t: nat, ch: Choice, c: nat)
    requires t in w.threads && AssertionHolds(w, t)
    requires c in w.records && w.records[c].WasFinished() && w.records[c].Valid()
    ensures c in Run(w, t, ch).records && Run(w, t, ch).records[c] == w.records[c]
  {
    hide PushSteps, RejectSteps, StartSteps, IterationSteps, FinishSteps, AssertionHolds, Cdr.Valid;
    PushWritesNoFinished(w, t, ch, c);
    RejectWritesNoFinished(w, t, c);
    StartWritesNoFinished(w, t, ch, c);
    IterationWritesNoFinished(w, t, ch, c);
    FinishWritesNoFinished(w, t, c);
  }

  lemma FinishedValid(w: World, c: nat)
    requires Reachable(w) && c in w.records
    ensures w.records[c].Valid()
  {
    hide Reachable, OperatorsTied, InHands, InQueue, WithOperators, InJournal;
    hide CountersFit, NumbersOwned, NotifiedOnce, Agrees, NoneStranded;
    var l := ReachableTied(w);
    RecordOf(w, l.calls, c);
  }

  /** A record that has its status is never written again. */
  lemma FinishedStays(w: World, h: Happening, c: nat)
    requires Reachable(w) && Enabled(w, h) && c in w.records && w.records[c].WasFinished()
    ensures c in Happen(w, h).records && Happen(w, h).records[c] == w.records[c]
  {
    hide Reachable, Run, AssertionHolds, Cdr.Valid;
    if h.Stepped? {
      AssertionsHold(w, h.t);
      FinishedValid(w, c);
      RunWritesNoFinished(w, h.t, h.ch, c);
    }
  }

  /** So a call gets one status, whatever happens later. */
  lemma {:induction false} StatusIsFinal(w: World, hs: seq<Happening>, c: nat)
    requires Reachable(w) && Possible(w, hs) && c in w.records && w.records[c].WasFinished()
    ensures Reachable(History(w, hs)) && c in History(w, hs).records && History(w, hs).records[c] == w.records[c]
  {
    hide Reachable, Enabled, Happen;
    if hs != [] {
      var m := |hs| - 1;
      StatusIsFinal(w, hs[..m], c);
      ReachableStep(History(w, hs[..m]), hs[m]);
      FinishedStays(History(w, hs[..m]), hs[m], c);
    }
  }

  /** The callback has run once for each finished call and no other; the journal has only finished calls, none twice. */
  lemma NotifiedAndLoggedOnce(w: World)
    requires Reachable(w)
    ensures NotifiedOnce(w) && Distinct(w.journal)
    ensures forall c :: c in w.journal ==> c in w.records && w.records[c].WasFinished()
  {
    hide Reachable, OperatorsTied, InHands, InQueue, WithOperators, CountersFit, NumbersOwned, NotifiedOnce, Agrees;
    hide NoneStranded, Distinct;
    var l := ReachableTied(w);
    forall c | c in w.journal ensures c in w.records && w.records[c].WasFinished() {
      RecordOf(w, l.calls, c);
    }
  }

  // The queue.

  /** The two indices hold the same calls in every interleaving, although pushes need not come in arrival order. */
  lemma IndicesAgreeInterleaved(w: World)
    requires Reachable(w)
    ensures Agrees(w.q)
  {
    hide Reachable, OperatorsTied, CallsTied, Agrees, NoneStranded;
    var l := ReachableTied(w);
  }

  /**
   Every queued call has a posted iteration, or one at work that has neither popped nor found the queue empty, and
   one that is early enough: for every instant `x` those that are due by `x` or at work, unless settled on a later
   time, are at least as many as the queued calls that expire by `x`.
   */
  lemma NobodyStranded(w: World, x: int)
    requires Reachable(w)
    ensures |w.tasks| + |Workers(w)| >= |w.q.receipt|
    ensures Within(w.tasks, x) + |Guarding(w, x)| >= Expiring(w.q.receipt, x)
  {
    hide Reachable, OperatorsTied, CallsTied, Agrees, Workers, Guarding, Within, Expiring;
    var l := ReachableTied(w);
    assert CoveredBy(w, x);
  }

  /** So no queued call has outlived its timeout point while no iteration is at work and none is overdue. */
  lemma NobodyLate(w: World, c: Call)
    requires Reachable(w) && c in w.q.receipt
    requires (forall t :: t in w.threads ==> !Working(w.threads[t])) && forall due :: due in w.tasks ==> w.now < due
    ensures w.now < c.Timeout()
  {
    hide Reachable, Working, Expiring, Within;
    NobodyStranded(w, w.now);
    assert Guarding(w, w.now) == {};
    WithinSome(w.tasks, w.now);
    if c.Timeout() <= w.now { ExpiringSome(w.q.receipt, c, w.now); }
  }

  /** Call `c` is in service and its finish will erase its number. */
  ghost predicate Serves(w: World, c: nat) {
    (exists f :: f in w.finishes && f.c == c) || (exists t :: HeldCall(At(w, t)) == Some(c) && ServingPc(At(w, t)))
  }

  lemma ServedServes(w: World, calls: map<nat, CallPlace>, c: nat)
    requires CallsPlaced(w, calls) && IsServed(w, calls, c)
    ensures Serves(w, c)
  {
    hide HeldCall, ServingPc, At, InQueue, InJournal;
    if calls[c].With? { assert HeldCall(At(w, calls[c].t)) == Some(c); }
  }

  /** No number leaks: each one entered is the number of a call whose finish will erase it. */
  lemma NoLeakedPhone(w: World, p: string)
    requires Reachable(w) && p in w.q.processing
    ensures var c := w.q.processing[p].id; c in w.records && w.records[c].phone == p && Serves(w, c)
  {
    hide Reachable, OperatorsTied, CallsPlaced, RecordsFit, CountersFit, NotifiedOnce, Agrees, NoneStranded, Serves;
    hide IsServed;
    var l := ReachableTied(w);
    assert Owned(w, l.calls, p, w.q.processing[p].id);
    ServedServes(w, l.calls, w.q.processing[p].id);
  }

  /** So a push refused as a duplicate has a rival: another call with the same number that waits or is in service. */
  lemma RefusalHasRival(w: World, t: nat, c: nat, capacity: nat)
    requires Reachable(w) && At(w, t) == PushToQueue(c) && w.q.Push(CallOf(Record(w, c)), capacity).0 == AlreadyQueued
    ensures exists d :: d != c && d in w.records && w.records[d].phone == Record(w, c).phone
                     && ((exists x :: x in w.q.receipt && x.id == d) || Serves(w, d))
  {
    hide Reachable, OperatorsTied, CallsPlaced, RecordsFit, CountersFit, NumbersOwned, NotifiedOnce, Agrees;
    hide NoneStranded, Serves;
    var l := ReachableTied(w);
    var x := CallOf(Record(w, c));
    HandHolds(w, l.calls, t, c);
    if HasMatch(ReceiptOrder, w.q.receipt, x) {
      var y := w.q.receipt[FirstMatch(ReceiptOrder, w.q.receipt, x)];
      assert y in w.q.receipt;
      QueuedHolds(w, l.calls, y);
      assert y.id != c && w.records[y.id].phone == x.phone;
    } else {
      NoLeakedPhone(w, x.phone);
      OwnerIsServed(w, l.calls, x.phone);
      assert w.q.processing[x.phone].id != c;
    }
  }

  lemma OwnerIsServed(w: World, calls: map<nat, CallPlace>, p: string)
    requires NumbersOwned(w, calls) && p in w.q.processing
    ensures IsServed(w, calls, w.q.processing[p].id)
  {
    assert Owned(w, calls, p, w.q.processing[p].id);
  }

  // Between handlers.

  /** No handler is at work. */
  ghost predicate Quiet(w: World) { forall t :: At(w, t) == Ended }

  function Refused(w: World): set<nat> {
    set c | c in w.records && w.records[c].WasFinished() && !w.records[c].WasServiced()
  }

  function Serviced(w: World): set<nat> { set c | c in w.records && w.records[c].WasServiced() }

  function QueuedIds(s: seq<Call>): set<nat> { set i | 0 <= i < |s| :: s[i].id }

  function ServedIds(fs: set<Finish>): set<nat> { set f | f in fs :: f.c }

  lemma {:induction false} QueuedCount(s: seq<Call>)
    requires forall i, j :: 0 <= i < j < |s| ==> s[i].id != s[j].id
    ensures |QueuedIds(s)| == |s|
  {
    if s != [] {
      var m := |s| - 1;
      QueuedCount(s[..m]);
      assert QueuedIds(s) == QueuedIds(s[..m]) + {s[m].id} by {
        forall x | x in QueuedIds(s) ensures x in QueuedIds(s[..m]) || x == s[m].id {
          var i :| 0 <= i < |s| && s[i].id == x;
          if i < m { assert s[..m][i].id == x; }
        }
        forall i | 0 <= i < m ensures s[..m][i].id in QueuedIds(s) { assert s[i] == s[..m][i]; }
        assert s[m].id in QueuedIds(s);
      }
    }
  }

  lemma {:induction false} ServedCount(fs: set<Finish>)
    requires forall f, g :: f in fs && g in fs && f.c == g.c ==> f == g
    ensures |ServedIds(fs)| == |fs|
    decreases |fs|
  {
    if fs != {} {
      var f :| f in fs;
      ServedCount(fs - {f});
      assert ServedIds(fs) == ServedIds(fs - {f}) + {f.c};
      assert f.c !in ServedIds(fs - {f});
    }
  }

  lemma QuietPlaces(w: World, calls: map<nat, CallPlace>)
    requires CallsPlaced(w, calls) && Quiet(w)
    ensures forall c :: c in calls ==> !calls[c].With?
    ensures forall c :: c in calls ==> (calls[c] == Queued <==> c in QueuedIds(w.q.receipt))
    ensures forall c :: c in calls ==> (calls[c].InService? <==> c in ServedIds(w.finishes))
    ensures forall f, g :: f in w.finishes && g in w.finishes && f.c == g.c ==> f == g
  {
    hide At, InJournal;
    forall c | c in calls ensures !calls[c].With? {
      assert forall t :: calls[c] == With(t) ==> HeldCall(At(w, t)) == Some(c);
    }
    forall c | c in calls ensures calls[c] == Queued <==> c in QueuedIds(w.q.receipt) { QueuedIn(w, calls, c); }
    forall c | c in calls ensures calls[c].InService? <==> c in ServedIds(w.finishes) { ServedIn(w, calls, c); }
  }

  lemma QueuedIn(w: World, calls: map<nat, CallPlace>, c: nat)
    requires InQueue(w, calls) && c in calls
    ensures calls[c] == Queued <==> c in QueuedIds(w.q.receipt)
  {
    if calls[c] == Queued {
      var i :| 0 <= i < |w.q.receipt| && w.q.receipt[i] == CallOf(Record(w, c));
      assert w.q.receipt[i].id == c;
    }
    if c in QueuedIds(w.q.receipt) {
      var i :| 0 <= i < |w.q.receipt| && w.q.receipt[i].id == c;
      assert w.q.receipt[i] in w.q.receipt;
    }
  }

  lemma ServedIn(w: World, calls: map<nat, CallPlace>, c: nat)
    requires WithOperators(w, calls) && c in calls
    ensures calls[c].InService? <==> c in ServedIds(w.finishes)
  {
    if c in ServedIds(w.finishes) {
      var f :| f in w.finishes && f.c == c;
      assert calls[c] == InService(f);
    }
  }

  /** A call between handlers, by the collection it is in. */
  lemma QuietCall(w: World, calls: map<nat, CallPlace>, c: nat)
    requires CallsPlaced(w, calls) && RecordsFit(w, calls) && Quiet(w) && c in calls
    ensures var queued, served := c in QueuedIds(w.q.receipt), c in ServedIds(w.finishes);
      && TallyOf(w, calls, c) == Tally(true, queued, queued || served, c in Refused(w))
      && One(queued) + One(served) + One(c in Refused(w)) + One(c in Serviced(w)) == 1
  {
    hide InHands, InQueue, WithOperators, InJournal, At, TallyAt, Cdr.Valid, QueuedIds, ServedIds;
    QuietPlaces(w, calls);
    RecordOf(w, calls, c);
  }

  lemma QuietIds(w: World, calls: map<nat, CallPlace>)
    requires CallsPlaced(w, calls)
    ensures calls.Keys == w.records.Keys && QueuedIds(w.q.receipt) <= calls.Keys && ServedIds(w.finishes) <= calls.Keys
  {
    hide InHands, InJournal, Record;
    forall c | c in QueuedIds(w.q.receipt) ensures c in calls {
      var i :| 0 <= i < |w.q.receipt| && w.q.receipt[i].id == c;
      assert w.q.receipt[i] in w.q.receipt;
    }
  }

  lemma QuietSets(w: World, calls: map<nat, CallPlace>)
    requires CallsPlaced(w, calls) && RecordsFit(w, calls) && Quiet(w)
    ensures ArrivedCalls(w, calls) == w.records.Keys && WaitingCalls(w, calls) == QueuedIds(w.q.receipt)
    ensures PresentCalls(w, calls) == QueuedIds(w.q.receipt) + ServedIds(w.finishes)
    ensures DroppedCalls(w, calls) == Refused(w)
    ensures w.records.Keys == QueuedIds(w.q.receipt) + ServedIds(w.finishes) + Refused(w) + Serviced(w)
    ensures QueuedIds(w.q.receipt) !! ServedIds(w.finishes) !! Refused(w) !! Serviced(w)
  {
    hide CallsPlaced, RecordsFit, Quiet, TallyOf, QueuedIds, ServedIds;
    QuietIds(w, calls);
    forall c | c in calls
      ensures var queued, served := c in QueuedIds(w.q.receipt), c in ServedIds(w.finishes);
        && TallyOf(w, calls, c) == Tally(true, queued, queued || served, c in Refused(w))
        && One(queued) + One(served) + One(c in Refused(w)) + One(c in Serviced(w)) == 1
    {
      QuietCall(w, calls, c);
    }
  }

  lemma QueuedApart(w: World, calls: map<nat, CallPlace>)
    requires InQueue(w, calls) && Agrees(w.q)
    ensures |QueuedIds(w.q.receipt)| == |w.q.receipt|
  {
    hide SameCalls, Sorted, TiesInArrivalOrder;
    var s := w.q.receipt;
    forall i, j | 0 <= i < j < |s| ensures s[i].id != s[j].id {
      assert s[i] in s && s[j] in s && !Matches(ReceiptOrder, s[i], s[j]);
    }
    QueuedCount(s);
  }

  /**
   The counters in every interleaving, whenever no handler is at work: the arrivals are the calls ever pushed, the
   queue counter is the length of the queue, the system counter adds the calls in service, the dropouts are the
   calls refused, and the arrivals are the calls in the system, refused or serviced.
   */
  lemma CountersQuiet(w: World)
    requires Reachable(w) && Quiet(w)
    ensures w.counters.arrivals == |w.records|
    ensures w.counters.queueSize == |w.q.receipt| && w.counters.inSystem == |w.q.receipt| + |w.finishes|
    ensures w.counters.dropouts == |Refused(w)|
    ensures w.counters.arrivals == w.counters.inSystem + w.counters.dropouts + |Serviced(w)|
  {
    hide Reachable, Quiet, OperatorsTied, InHands, InJournal, RecordsFit, NumbersOwned, NotifiedOnce, Agrees;
    hide NoneStranded;
    var l := ReachableTied(w);
    QuietSets(w, l.calls);
    QuietPlaces(w, l.calls);
    QueuedApart(w, l.calls);
    ServedCount(w.finishes);
    assert |w.records| == |w.records.Keys|;
  }

  // Rest.

  /** All handlers have returned and no event is posted. */
  ghost predicate AtRest(w: World) {
    Quiet(w) && w.tasks == [] && w.finishes == {}
  }

  /**
   Nothing is lost: when the program has come to rest the queue is empty, every operator is free, no number is
   entered, nobody is counted as present, and every call ever pushed is counted, finished, notified and in the
   journal.
   */
  lemma RestIsClean(w: World)
    requires Reachable(w) && AtRest(w)
    ensures w.q.receipt == [] && w.q.timeouts == [] && w.q.processing == map[]
    ensures w.free == w.operators && forall op :: op in w.operators ==> op !in w.busy
    ensures w.counters.queueSize == 0 && w.counters.inSystem == 0
    ensures w.counters.arrivals == |w.records| && w.counters.dropouts == |Refused(w)|
    ensures forall c :: c in w.records ==> w.records[c].WasFinished() && c in w.notified && c in w.journal
  {
    hide Reachable, At;
    CountersQuiet(w);
    var l := ReachableTied(w);
    assert Workers(w) == {} by { RestWorkers(w); }
    assert w.q.receipt == [];
    SameElements(w.q);
    RestOperators(w, l.ops);
    RestCalls(w, l.calls);
  }

  lemma RestWorkers(w: World)
    requires AtRest(w)
    ensures Workers(w) == {}
  {
    forall t | t in w.threads ensures !Working(w.threads[t]) { assert At(w, t) == Ended; }
  }

  lemma RestOperators(w: World, ops: map<nat, OperatorPlace>)
    requires OperatorsTied(w, ops) && AtRest(w)
    ensures w.free == w.operators && forall op :: op in w.operators ==> op !in w.busy
  {
    hide At;
    forall op | op in w.operators ensures ops[op] == InFree {
      assert forall t :: ops[op] == HeldBy(t) ==> HeldOperator(At(w, t)) == Some(op);
    }
  }

  lemma RestPlaces(w: World, calls: map<nat, CallPlace>)
    requires CallsPlaced(w, calls) && AtRest(w) && w.q.receipt == []
    ensures forall c :: c in calls ==> calls[c] == Done && c in w.journal
  {
    hide At, Distinct;
    forall c | c in calls ensures calls[c] == Done {
      assert forall t :: calls[c] == With(t) ==> HeldCall(At(w, t)) == Some(c);
    }
  }

  lemma RestCalls(w: World, calls: map<nat, CallPlace>)
    requires CallsTied(w, calls) && AtRest(w) && w.q.receipt == []
    ensures w.q.processing == map[]
    ensures forall c :: c in w.records ==> w.records[c].WasFinished() && c in w.notified && c in w.journal
  {
    hide At, StageOf, TallyAt, ServingPc, InHands, InQueue, WithOperators, InJournal, Cdr.Valid;
    RestPlaces(w, calls);
    forall c | c in w.records ensures w.records[c].WasFinished() { RecordOf(w, calls, c); }
    forall p | p in w.q.processing ensures false { OwnerIsServed(w, calls, p); }
  }
}
