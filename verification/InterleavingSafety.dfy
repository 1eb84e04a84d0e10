/**
 Every step of every thread keeps the invariant of `Ownership`, so it holds in all interleavings. The theorems
 at the end say what that means for the program.
 */
module InterleavingSafety {
  import opened Options
  import opened Sequences
  import opened CallDetailedRecords
  import opened CallQueues
  import opened QueueingMetrics
  import opened Expiries
  import opened Interleavings
  import opened Ownership

  // ---------------------------------------------------------------------------------------------
  // What the invariant says about the call in the hands of a thread
  // ---------------------------------------------------------------------------------------------

  /** The call a thread holds is in its hands, and its record shows the stage the thread is in. */
  ghost predicate InHand(w: World, calls: map<nat, CallPlace>, t: nat, c: nat) {
    && c in calls && calls[c] == With(t)
    && c in w.records && Record(w, c) == w.records[c]
    && w.records[c].id == c && w.records[c].maxWait == w.wait && w.records[c].Valid()
    && ShowsStage(StageOf(At(w, t)), w.records[c])
  }

  lemma HandHolds(w: World, calls: map<nat, CallPlace>, t: nat, c: nat)
    requires CallsPlaced(w, calls) && RecordsFit(w, calls) && HeldCall(At(w, t)) == Some(c)
    ensures InHand(w, calls, t, c)
    ensures forall d :: d in w.q.receipt ==> d.id != c
  {
    hide HeldCall, ShowsStage, StageOf, At, WithOperators, InJournal;
    assert RecordAt(w, calls, c);
  }

  /** A thread tallies its call as the counters do, so neither counter is at zero when it takes one off. */
  lemma HandCounted(w: World, calls: map<nat, CallPlace>, t: nat, c: nat)
    requires CountersFit(w, calls) && c in calls && calls[c] == With(t)
    ensures TallyOf(w, calls, c) == TallyAt(At(w, t))
    ensures WaitingPc(At(w, t)) ==> w.counters.queueSize > 0
    ensures PresentPc(At(w, t)) ==> w.counters.inSystem > 0
  {
    hide WaitingPc, PresentPc, At;
    assert WaitingPc(At(w, t)) ==> c in WaitingCalls(w, calls);
    assert PresentPc(At(w, t)) ==> c in PresentCalls(w, calls);
  }

  // ---------------------------------------------------------------------------------------------
  // Steps that leave every call where it is
  // ---------------------------------------------------------------------------------------------

  /** Everything that says where calls are stays the same. */
  ghost predicate SameCollections(w: World, w2: World) {
    w2.q.receipt == w.q.receipt && w2.finishes == w.finishes && w2.journal == w.journal
  }

  /** The record of the call in hand shows the next stage. */
  ghost predicate NextRecord(w: World, w2: World, pc: Pc, c: nat) {
    && c in w.records && c in w2.records && w2.records == w.records[c := w2.records[c]]
    && var r := w2.records[c];
       r.id == c && r.maxWait == w.wait && r.Valid() && ShowsStage(StageOf(pc), r) && r.phone == w.records[c].phone
  }

  ghost predicate CountersMove(w: World, w2: World, before: Pc, pc: Pc) {
    Follows(w.counters, w2.counters, TallyAt(before), TallyAt(pc))
  }

  /** A thread with a call in its hands goes on with the same call. */
  lemma HandKeeps(w: World, w2: World, calls: map<nat, CallPlace>, t: nat, pc: Pc, c: nat)
    requires CallsTied(w, calls) && Moves(w, w2, t, pc) && SameCollections(w, w2)
    requires HeldCall(At(w, t)) == Some(c) && HeldCall(pc) == Some(c) && NextRecord(w, w2, pc, c)
    requires CountersMove(w, w2, At(w, t), pc) && NotifiedOnce(w2)
    requires forall p :: p in w2.q.processing ==>
      w2.q.processing[p].id == c || (p in w.q.processing && w2.q.processing[p] == w.q.processing[p])
    requires forall p :: p in w2.q.processing && w2.q.processing[p].id == c ==>
      ServingPc(pc) && w2.records[c].phone == p
    ensures CallsTied(w2, calls)
  {
    hide HeldCall, ShowsStage, StageOf, At, Moves, TallyAt, ServingPc, Touches;
    hide CallsPlaced, RecordsFit, CountersFit, NumbersOwned, NotifiedOnce, Cdr.Valid;
    Others(w, w2, t, pc);
    HandHolds(w, calls, t, c);
    HandCounted(w, calls, t, c);
    CallsKeep(w, w2, calls, t, pc, c);
    StepTouches(w, w2, calls, calls, t, pc, c);
    RecordsStep(w, w2, calls, calls, c);
    CountersStep(w, w2, calls, calls, c);
    NumbersStep(w, w2, calls, calls, c);
  }

  /** The plain case: the numbers entered stay and the call stays in service if it was. */
  lemma HandAdvances(w: World, w2: World, calls: map<nat, CallPlace>, t: nat, pc: Pc, c: nat)
    requires CallsTied(w, calls) && Moves(w, w2, t, pc) && SameCollections(w, w2)
    requires HeldCall(At(w, t)) == Some(c) && HeldCall(pc) == Some(c) && NextRecord(w, w2, pc, c)
    requires CountersMove(w, w2, At(w, t), pc) && NotifiedOnce(w2)
    requires w2.q.processing == w.q.processing && (ServingPc(At(w, t)) ==> ServingPc(pc))
    ensures CallsTied(w2, calls)
  {
    hide HeldCall, ShowsStage, StageOf, At, Moves, TallyAt, ServingPc;
    hide CallsPlaced, RecordsFit, CountersFit, NotifiedOnce, Cdr.Valid, CountersMove;
    HandHolds(w, calls, t, c);
    forall p | p in w2.q.processing && w2.q.processing[p].id == c ensures ServingPc(pc) && w2.records[c].phone == p {
      assert Owned(w, calls, p, c);
    }
    HandKeeps(w, w2, calls, t, pc, c);
  }

  /** A thread without a call goes on without one. */
  lemma IdleKeeps(w: World, w2: World, calls: map<nat, CallPlace>, t: nat, pc: Pc)
    requires CallsTied(w, calls) && Moves(w, w2, t, pc) && SameCollections(w, w2)
    requires HeldCall(At(w, t)) == None && HeldCall(pc) == None
    requires w2.records == w.records && w2.counters == w.counters && w2.q.processing == w.q.processing
    requires w2.notified == w.notified
    ensures CallsTied(w2, calls)
  {
    hide HeldCall, ShowsStage, StageOf, At, Moves, Touches, TallyAt, ServingPc, Cdr.Valid;
    hide CallsPlaced, RecordsFit, CountersFit, NumbersOwned;
    CallsKeep(w, w2, calls, t, pc, 0);
    StepTouches(w, w2, calls, calls, t, pc, 0);
    StepTouches(w, w2, calls, calls, t, pc, 1);
    Bystander(w, w2, calls, calls, 0);
    RecordsStep(w, w2, calls, calls, 0);
    CountersStep(w, w2, calls, calls, 0);
    NumbersStep(w, w2, calls, calls, 0);
  }

  lemma Bystander(w: World, w2: World, calls: map<nat, CallPlace>, calls2: map<nat, CallPlace>, c: nat)
    requires RecordsFit(w, calls) && NumbersOwned(w, calls) && Touches(w, w2, calls, calls2, c + 1)
    ensures c in calls2 && c in w2.records ==> RecordAt(w2, calls2, c)
    ensures TallyOf(w2, calls2, c) == TallyOf(w, calls, c)
    ensures forall p :: p in w.q.processing && w.q.processing[p].id == c ==> Owned(w2, calls2, p, c)
  {
    hide ShowsStage, StageOf, At, TallyAt, ServingPc, Cdr.Valid;
    assert Untouched(w, w2, calls, calls2, c);
    if c in calls && c in w.records { assert RecordAt(w, calls, c); }
    forall p | p in w.q.processing && w.q.processing[p].id == c ensures Owned(w2, calls2, p, c) {
      assert Owned(w, calls, p, c);
    }
  }

  lemma QueueKeeps(w: World, w2: World, t: nat, pc: Pc)
    requires Agrees(w.q) && NoneStranded(w) && Moves(w, w2, t, pc)
    requires w2.q.receipt == w.q.receipt && w2.q.timeouts == w.q.timeouts && w2.tasks == w.tasks
    requires !At(w, t).PostNext? && !pc.PostNext? && (Working(At(w, t)) ==> Working(pc))
    ensures Agrees(w2.q) && NoneStranded(w2)
  {
    hide Agrees, Working, At, Moves, NoneStranded, Expiring, Within;
    SameIndicesAgree(w.q, w2.q);
    QueueLooked(w, w2, t, pc);
  }

  lemma HolderPostsNothing(pc: Pc)
    requires HeldCall(pc).Some?
    ensures !pc.PostNext?
  {
  }

  /** The status of the operator in hand follows the program counter, no other status changes. */
  ghost predicate StatusMoves(w: World, w2: World, pc: Pc) {
    && (forall op :: HeldOperator(pc) != Some(op) ==> (op in w2.busy <==> op in w.busy))
    && (forall op :: HeldOperator(pc) == Some(op) ==> (op in w2.busy <==> BusyAt(pc)))
  }

  /** A step that moves neither calls nor operators and leaves the queue alone. */
  ghost predicate StaysPut(w: World, w2: World, t: nat, pc: Pc) {
    && Moves(w, w2, t, pc) && SameCollections(w, w2) && w2.q.timeouts == w.q.timeouts
    && HeldCall(pc) == HeldCall(At(w, t)) && HeldOperator(pc) == HeldOperator(At(w, t)) && w2.free == w.free
  }

  lemma Advance(w: World, w2: World, l: Ledger, t: nat, pc: Pc, c: nat)
    requires Tied(w, l) && StaysPut(w, w2, t, pc) && HeldCall(pc) == Some(c)
    requires w2.tasks == w.tasks && Working(pc) == Working(At(w, t)) && StatusMoves(w, w2, pc)
    requires NextRecord(w, w2, pc, c) && CountersMove(w, w2, At(w, t), pc) && NotifiedOnce(w2)
    requires w2.q.processing == w.q.processing && (ServingPc(At(w, t)) ==> ServingPc(pc))
    ensures Tied(w2, l)
  {
    hide HeldCall, HeldOperator, At, Moves, Working, ServingPc, BusyAt, NextRecord, CountersMove, NotifiedOnce, Agrees;
    hide OperatorsTied, CallsTied, NoneStranded;
    OperatorsKeep(w, w2, l.ops, t, pc);
    HandAdvances(w, w2, l.calls, t, pc, c);
    HolderPostsNothing(At(w, t));
    HolderPostsNothing(pc);
    QueueKeeps(w, w2, t, pc);
  }

  /** The same for a step that does not write the record. */
  /** The thread goes on with the same call and the same operator, in the same stage. */
  predicate Continues(before: Pc, pc: Pc, c: nat) {
    && HeldCall(before) == Some(c) && HeldCall(pc) == Some(c) && HeldOperator(pc) == HeldOperator(before)
    && StageOf(pc) == StageOf(before) && Working(pc) == Working(before) && (ServingPc(before) ==> ServingPc(pc))
  }

  /** The steps that do. */
  lemma PushContinues(c: nat, op: nat, reason: Refusal)
    ensures Continues(CountArrival(c), TryBypass(c), c) && Continues(TryBypass(c), TakeForBypass(c), c)
    ensures Continues(TryBypass(c), PushToQueue(c), c) && Continues(TakeForBypass(c), PushToQueue(c), c)
    ensures Continues(TakeForBypass(c), TakeForBypass(c), c) && Continues(EnterBypassing(c, op), ReturnBypass(c, op), c)
    ensures Continues(PushToQueue(c), Refuse(c, reason, false), c) && HeldOperator(Refuse(c, reason, false)) == None
  {
  }

  lemma RefusalContinues(c: nat, looping: bool)
    ensures Continues(CountRefusal(c, looping), CountDropout(c, looping), c)
    ensures Continues(CountDropout(c, looping), LogRefusal(c, looping), c)
  {
  }

  lemma ServiceContinues(c: nat, op: nat)
    ensures Continues(CountStart(c, op), TurnBusy(c, op), c) && Continues(TurnBusy(c, op), PostFinish(c, op), c)
    ensures Continues(TurnFree(c, op), CompleteCall(c, op), c)
      && Continues(CountComplete(c, op), LeaveProcessing(c, op), c)
  {
  }

  /** Only the steps after which the operator is turned busy or free touch its status. */
  lemma OperatorsHeld(c: nat, op: nat)
    ensures HeldOperator(EnterBypassing(c, op)) == HeldOperator(ReturnBypass(c, op)) == Some(op)
    ensures HeldOperator(CountStart(c, op)) == HeldOperator(TurnBusy(c, op)) == Some(op)
    ensures HeldOperator(PostFinish(c, op)) == Some(op)
    ensures HeldOperator(TurnFree(c, op)) == HeldOperator(CompleteCall(c, op)) == Some(op)
    ensures HeldOperator(CountComplete(c, op)) == HeldOperator(LeaveProcessing(c, op)) == Some(op)
  {
  }

  lemma NoOperatorHeld(c: nat, looping: bool)
    ensures HeldOperator(TryBypass(c)) == HeldOperator(TakeForBypass(c)) == HeldOperator(PushToQueue(c)) == None
    ensures HeldOperator(CountDropout(c, looping)) == HeldOperator(LogRefusal(c, looping)) == None
  {
  }

  lemma AdvanceUnwritten(w: World, w2: World, l: Ledger, t: nat, pc: Pc, c: nat)
    requires Tied(w, l) && Moves(w, w2, t, pc) && SameCollections(w, w2) && Continues(At(w, t), pc, c)
    requires w2.q.timeouts == w.q.timeouts && w2.q.processing == w.q.processing
    requires w2.free == w.free && w2.tasks == w.tasks && StatusMoves(w, w2, pc)
    requires w2.records == w.records && w2.notified == w.notified && CountersMove(w, w2, At(w, t), pc)
    ensures Tied(w2, l)
  {
    hide OperatorsTied, NoneStranded, Agrees, CallsTied, NextRecord, NotifiedOnce;
    hide StatusMoves, CountersMove, Working, ServingPc, StageOf, HeldCall, HeldOperator, At, Moves;
    HandUnwritten(w, w2, l.calls, t, pc, c);
    Advance(w, w2, l, t, pc, c);
  }

  ghost predicate Unwritten(w: World, w2: World, t: nat, pc: Pc) {
    w2.records == w.records && w2.notified == w.notified && StageOf(pc) == StageOf(At(w, t))
  }

  lemma HandUnwritten(w: World, w2: World, calls: map<nat, CallPlace>, t: nat, pc: Pc, c: nat)
    requires CallsTied(w, calls) && HeldCall(At(w, t)) == Some(c) && Unwritten(w, w2, t, pc)
    ensures NextRecord(w, w2, pc, c) && NotifiedOnce(w2)
  {
    hide CallsPlaced, NumbersOwned, RecordsFit, CountersFit, NotifiedOnce, StageOf, HeldCall, At, ShowsStage, Cdr.Valid;
    HandHolds(w, calls, t, c);
    NotifiedKeep(w, w2, c);
  }

  lemma HandStatus(w: World, ops: map<nat, OperatorPlace>, t: nat, op: nat)
    requires OperatorsTied(w, ops) && HeldOperator(At(w, t)) == Some(op)
    ensures op in w.operators && (op in w.busy <==> BusyAt(At(w, t)))
  {
    hide HeldOperator, At, BusyAt;
  }

  // ---------------------------------------------------------------------------------------------
  // The steps one by one
  // ---------------------------------------------------------------------------------------------

  /** The thread goes on with the same call and the same operator, in the stage its record will show. */
  predicate Proceeds(before: Pc, pc: Pc, c: nat) {
    && HeldCall(before) == Some(c) && HeldCall(pc) == Some(c) && HeldOperator(pc) == HeldOperator(before)
    && Working(pc) == Working(before) && (ServingPc(before) ==> ServingPc(pc))
  }

  lemma ArrivalProceeds(c: nat)
    ensures Proceeds(SetArrival(c), CountArrival(c), c) && HeldOperator(CountArrival(c)) == None
  {
  }

  lemma RefusalProceeds(c: nat, reason: Refusal, looping: bool)
    ensures Proceeds(Refuse(c, reason, looping), CountRefusal(c, looping), c)
    ensures HeldOperator(CountRefusal(c, looping)) == None
  {
  }

  lemma AnswerProceeds(c: nat, op: nat)
    ensures Proceeds(Answer(c, op), CountStart(c, op), c) && HeldOperator(CountStart(c, op)) == Some(op)
  {
  }

  lemma CompletionProceeds(c: nat, op: nat)
    ensures Proceeds(CompleteCall(c, op), CountComplete(c, op), c) && HeldOperator(CountComplete(c, op)) == Some(op)
  {
  }

  lemma SetArrivalKeeps(w: World, w2: World, l: Ledger, t: nat, c: nat)
    requires Tied(w, l) && At(w, t) == SetArrival(c)
    requires w2 == Go(Write(w, c, Record(w, c).Arrive(w.now)), t, CountArrival(c))
    ensures Tied(w2, l)
  {
    hide OperatorsTied, NoneStranded, Agrees, CallsPlaced, NumbersOwned, RecordsFit, CountersFit, NotifiedOnce;
    hide HeldCall, HeldOperator, Working, ServingPc;
    ArrivalProceeds(c);
    HandHolds(w, l.calls, t, c);
    NotifiedKeep(w, w2, c);
    Advance(w, w2, l, t, CountArrival(c), c);
  }

  lemma CountArrivalKeeps(w: World, w2: World, l: Ledger, t: nat, c: nat)
    requires Tied(w, l) && At(w, t) == CountArrival(c)
    requires w2 == Go(w.(counters := w.counters.Arrival()), t, TryBypass(c))
    ensures Tied(w2, l)
  {
    hide ShowsStage, Cdr.Valid, CallOf, CountersFit;
    hide OperatorsTied, NoneStranded, Agrees, CallsPlaced, NumbersOwned, RecordsFit, NotifiedOnce;
    hide HeldCall, HeldOperator, Working, ServingPc;
    PushContinues(c, 0, Overload);
    NoOperatorHeld(c, false);
    HandHolds(w, l.calls, t, c);
    HandCounted(w, l.calls, t, c);
    AdvanceUnwritten(w, w2, l, t, TryBypass(c), c);
  }

  /** The bypass is given up, or goes on to the operators. */
  lemma BypassKeeps(w: World, w2: World, l: Ledger, t: nat, c: nat, pc: Pc)
    requires Tied(w, l) && At(w, t) in {TryBypass(c), TakeForBypass(c)} && pc in {TakeForBypass(c), PushToQueue(c)}
    requires w2 == Go(w, t, pc)
    ensures Tied(w2, l)
  {
    hide ShowsStage, Cdr.Valid, CallOf;
    hide OperatorsTied, NoneStranded, Agrees, CallsPlaced, NumbersOwned, RecordsFit, CountersFit, NotifiedOnce;
    hide HeldCall, HeldOperator, Working, ServingPc;
    PushContinues(c, 0, Overload);
    NoOperatorHeld(c, false);
    HandHolds(w, l.calls, t, c);
    AdvanceUnwritten(w, w2, l, t, pc, c);
  }

  lemma BypassRefusedKeeps(w: World, w2: World, l: Ledger, t: nat, c: nat, op: nat)
    requires Tied(w, l) && At(w, t) == EnterBypassing(c, op)
    requires w2 == Go(w, t, ReturnBypass(c, op))
    ensures Tied(w2, l)
  {
    hide ShowsStage, Cdr.Valid, CallOf;
    hide OperatorsTied, NoneStranded, Agrees, CallsPlaced, NumbersOwned, RecordsFit, CountersFit, NotifiedOnce;
    hide HeldCall, HeldOperator, Working, ServingPc;
    PushContinues(c, op, Overload);
    OperatorsHeld(c, op);
    HandHolds(w, l.calls, t, c);
    HandStatus(w, l.ops, t, op);
    AdvanceUnwritten(w, w2, l, t, ReturnBypass(c, op), c);
  }

  /** Completing a live record shows the stage its status says. */
  lemma CompletionNext(w: World, w2: World, pc: Pc, c: nat, reason: CallStatus)
    requires c in w.records && w.records[c].id == c && w.records[c].maxWait == w.wait && w.records[c].Valid()
      && w.records[c].Live()
    requires w2.records == w.records[c := w.records[c].Complete(reason, w.now)]
    requires if reason == Ok then StageOf(pc) == Completed && w.records[c].start.Some?
             else StageOf(pc) == Refused && w.records[c].start.None?
    ensures NextRecord(w, w2, pc, c) && !w.records[c].WasFinished() && w2.records[c].WasFinished()
  {
    hide StageOf;
  }

  lemma RefuseKeeps(w: World, w2: World, l: Ledger, t: nat, c: nat, reason: Refusal, looping: bool)
    requires Tied(w, l) && At(w, t) == Refuse(c, reason, looping)
    requires
      var completed := Write(w, c, Record(w, c).Complete(reason, w.now));
      w2 == Go(completed.(notified := w.notified + [c]), t, CountRefusal(c, looping))
    ensures Tied(w2, l)
  {
    hide OperatorsTied, NoneStranded, Agrees, CallsPlaced, NumbersOwned, RecordsFit, CountersFit, NotifiedOnce;
    hide NextRecord, Cdr.Valid;
    hide HeldCall, HeldOperator, Working, ServingPc;
    RefusalProceeds(c, reason, looping);
    HandHolds(w, l.calls, t, c);
    CompletionNext(w, w2, CountRefusal(c, looping), c, reason);
    NotifiedNext(w, w2, c);
    Advance(w, w2, l, t, CountRefusal(c, looping), c);
  }

  lemma CountRefusalKeeps(w: World, w2: World, l: Ledger, t: nat, c: nat, looping: bool)
    requires Tied(w, l) && At(w, t) == CountRefusal(c, looping)
    requires
      var k := w.counters;
      var k2 := k.(queueSize := Decrement(k.queueSize), inSystem := Decrement(k.inSystem));
      w2 == Go(w.(counters := k2), t, CountDropout(c, looping))
    ensures Tied(w2, l)
  {
    hide ShowsStage, Cdr.Valid, CallOf, CountersFit;
    hide OperatorsTied, NoneStranded, Agrees, CallsPlaced, NumbersOwned, RecordsFit, NotifiedOnce;
    hide HeldCall, HeldOperator, Working, ServingPc;
    RefusalContinues(c, looping);
    NoOperatorHeld(c, looping);
    HandHolds(w, l.calls, t, c);
    HandCounted(w, l.calls, t, c);
    AdvanceUnwritten(w, w2, l, t, CountDropout(c, looping), c);
  }

  lemma CountDropoutKeeps(w: World, w2: World, l: Ledger, t: nat, c: nat, looping: bool)
    requires Tied(w, l) && At(w, t) == CountDropout(c, looping)
    requires w2 ==
      Go(w.(counters := w.counters.(dropouts := w.counters.dropouts + 1)), t, LogRefusal(c, looping))
    ensures Tied(w2, l)
  {
    hide ShowsStage, Cdr.Valid, CallOf, CountersFit;
    hide OperatorsTied, NoneStranded, Agrees, CallsPlaced, NumbersOwned, RecordsFit, NotifiedOnce;
    hide HeldCall, HeldOperator, Working, ServingPc;
    RefusalContinues(c, looping);
    NoOperatorHeld(c, looping);
    HandHolds(w, l.calls, t, c);
    HandCounted(w, l.calls, t, c);
    AdvanceUnwritten(w, w2, l, t, LogRefusal(c, looping), c);
  }

  lemma AnswerKeeps(w: World, w2: World, l: Ledger, t: nat, c: nat, op: nat)
    requires Tied(w, l) && At(w, t) == Answer(c, op)
    requires w2 == Go(Write(w, c, Record(w, c).Start(op, w.now)), t, CountStart(c, op))
    ensures Tied(w2, l)
  {
    hide OperatorsTied, NoneStranded, Agrees, CallsPlaced, NumbersOwned, RecordsFit, CountersFit, NotifiedOnce;
    hide HeldCall, HeldOperator, Working, ServingPc;
    AnswerProceeds(c, op);
    HandHolds(w, l.calls, t, c);
    HandStatus(w, l.ops, t, op);
    NotifiedKeep(w, w2, c);
    Advance(w, w2, l, t, CountStart(c, op), c);
  }

  lemma CountStartKeeps(w: World, w2: World, l: Ledger, t: nat, c: nat, op: nat)
    requires Tied(w, l) && At(w, t) == CountStart(c, op)
    requires w2 == Go(w.(counters := w.counters.ServiceStart()), t, TurnBusy(c, op))
    ensures Tied(w2, l)
  {
    hide ShowsStage, Cdr.Valid, CallOf, CountersFit;
    hide OperatorsTied, NoneStranded, Agrees, CallsPlaced, NumbersOwned, RecordsFit, NotifiedOnce;
    hide HeldCall, HeldOperator, Working, ServingPc;
    ServiceContinues(c, op);
    OperatorsHeld(c, op);
    HandHolds(w, l.calls, t, c);
    HandStatus(w, l.ops, t, op);
    HandCounted(w, l.calls, t, c);
    AdvanceUnwritten(w, w2, l, t, TurnBusy(c, op), c);
  }

  lemma TurnBusyKeeps(w: World, w2: World, l: Ledger, t: nat, c: nat, op: nat)
    requires Tied(w, l) && At(w, t) == TurnBusy(c, op)
    requires w2 == Go(w.(busy := w.busy + {op}), t, PostFinish(c, op))
    ensures Tied(w2, l)
  {
    hide ShowsStage, Cdr.Valid, CallOf, CountersFit;
    hide OperatorsTied, NoneStranded, Agrees, CallsPlaced, NumbersOwned, RecordsFit, NotifiedOnce;
    hide HeldCall, HeldOperator, Working, ServingPc;
    ServiceContinues(c, op);
    OperatorsHeld(c, op);
    HandHolds(w, l.calls, t, c);
    HandCounted(w, l.calls, t, c);
    AdvanceUnwritten(w, w2, l, t, PostFinish(c, op), c);
  }

  lemma TurnFreeKeeps(w: World, w2: World, l: Ledger, t: nat, c: nat, op: nat)
    requires Tied(w, l) && At(w, t) == TurnFree(c, op)
    requires w2 == Go(w.(busy := w.busy - {op}), t, CompleteCall(c, op))
    ensures Tied(w2, l)
  {
    hide ShowsStage, Cdr.Valid, CallOf, CountersFit;
    hide OperatorsTied, NoneStranded, Agrees, CallsPlaced, NumbersOwned, RecordsFit, NotifiedOnce;
    hide HeldCall, HeldOperator, Working, ServingPc;
    ServiceContinues(c, op);
    OperatorsHeld(c, op);
    HandHolds(w, l.calls, t, c);
    HandCounted(w, l.calls, t, c);
    AdvanceUnwritten(w, w2, l, t, CompleteCall(c, op), c);
  }

  lemma CompleteCallKeeps(w: World, w2: World, l: Ledger, t: nat, c: nat, op: nat)
    requires Tied(w, l) && At(w, t) == CompleteCall(c, op)
    requires
      var completed := Write(w, c, Record(w, c).Complete(Ok, w.now));
      w2 == Go(completed.(notified := w.notified + [c]), t, CountComplete(c, op))
    ensures Tied(w2, l)
  {
    hide OperatorsTied, NoneStranded, Agrees, CallsPlaced, NumbersOwned, RecordsFit, CountersFit, NotifiedOnce;
    hide NextRecord, Cdr.Valid;
    hide HeldCall, HeldOperator, Working, ServingPc;
    CompletionProceeds(c, op);
    HandHolds(w, l.calls, t, c);
    HandStatus(w, l.ops, t, op);
    CompletionNext(w, w2, CountComplete(c, op), c, Ok);
    NotifiedNext(w, w2, c);
    Advance(w, w2, l, t, CountComplete(c, op), c);
  }

  lemma CountCompleteKeeps(w: World, w2: World, l: Ledger, t: nat, c: nat, op: nat)
    requires Tied(w, l) && At(w, t) == CountComplete(c, op)
    requires w2 == Go(w.(counters := w.counters.ServiceComplete()), t, LeaveProcessing(c, op))
    ensures Tied(w2, l)
  {
    hide ShowsStage, Cdr.Valid, CallOf, CountersFit;
    hide OperatorsTied, NoneStranded, Agrees, CallsPlaced, NumbersOwned, RecordsFit, NotifiedOnce;
    hide HeldCall, HeldOperator, Working, ServingPc;
    ServiceContinues(c, op);
    OperatorsHeld(c, op);
    HandHolds(w, l.calls, t, c);
    HandStatus(w, l.ops, t, op);
    HandCounted(w, l.calls, t, c);
    AdvanceUnwritten(w, w2, l, t, LeaveProcessing(c, op), c);
  }

  // Entering and leaving the set of numbers entered.

  lemma Renumber(w: World, w2: World, l: Ledger, t: nat, pc: Pc, c: nat)
    requires Tied(w, l) && StaysPut(w, w2, t, pc) && HeldCall(pc) == Some(c)
    requires w2.tasks == w.tasks && Working(pc) == Working(At(w, t)) && w2.busy == w.busy
      && BusyAt(pc) == BusyAt(At(w, t))
    requires Unwritten(w, w2, t, pc) && CountersMove(w, w2, At(w, t), pc)
    requires
      var p := Record(w, c).phone;
      if !ServingPc(pc) then w2.q.processing == w.q.processing - {p}
      else w2.q.processing == w.q.processing || w2.q.processing == w.q.processing[p := CallOf(Record(w, c))]
    ensures Tied(w2, l)
  {
    hide HeldCall, HeldOperator, At, Moves, Working, ServingPc, BusyAt, StageOf, ShowsStage, Agrees, CountersMove;
    hide OperatorsTied, CallsPlaced, RecordsFit, CountersFit, NotifiedOnce, NoneStranded, Cdr.Valid;
    HandHolds(w, l.calls, t, c);
    HandUnwritten(w, w2, l.calls, t, pc, c);
    forall op | HeldOperator(pc) == Some(op) ensures op in w2.busy <==> BusyAt(pc) { HandStatus(w, l.ops, t, op); }
    OperatorsKeep(w, w2, l.ops, t, pc);
    forall p | p in w2.q.processing && w2.q.processing[p].id == c ensures ServingPc(pc) && w2.records[c].phone == p {
      if p != Record(w, c).phone { assert Owned(w, l.calls, p, c); }
    }
    HandKeeps(w, w2, l.calls, t, pc, c);
    HolderPostsNothing(At(w, t));
    HolderPostsNothing(pc);
    QueueKeeps(w, w2, t, pc);
  }

  lemma EnterKeeps(w: World, w2: World, l: Ledger, t: nat, c: nat, op: nat)
    requires Tied(w, l) && At(w, t) in {EnterBypassing(c, op), EnterQueued(c, op)}
    requires w2 == Go(w.(q := w.q.InsertToProcessing(CallOf(Record(w, c))).1), t, Answer(c, op))
    ensures Tied(w2, l)
  {
    hide Tied, Queue.Contains;
    Renumber(w, w2, l, t, Answer(c, op), c);
  }

  lemma LeaveKeeps(w: World, w2: World, l: Ledger, t: nat, c: nat, op: nat)
    requires Tied(w, l) && At(w, t) == LeaveProcessing(c, op)
    requires w2 == Go(w.(q := w.q.EraseFromProcessing(CallOf(Record(w, c)))), t, ReturnServed(c, op))
    ensures Tied(w2, l)
  {
    hide Tied;
    Renumber(w, w2, l, t, ReturnServed(c, op), c);
  }

  // Taking an operator and giving it back, with a call in hand or without.

  /** What a step that touches no record, counter or entered number keeps. */
  ghost predicate OnlyThread(w: World, w2: World) {
    && w2.records == w.records && w2.counters == w.counters && w2.q.processing == w.q.processing
    && w2.notified == w.notified && w2.busy == w.busy
  }

  lemma CallsStay(w: World, w2: World, calls: map<nat, CallPlace>, t: nat, pc: Pc)
    requires CallsTied(w, calls) && Moves(w, w2, t, pc) && SameCollections(w, w2) && OnlyThread(w, w2)
    requires HeldCall(pc) == HeldCall(At(w, t))
    requires HeldCall(pc).Some? ==>
      && StageOf(pc) == StageOf(At(w, t)) && TallyAt(pc) == TallyAt(At(w, t))
      && ServingPc(pc) == ServingPc(At(w, t))
    ensures CallsTied(w2, calls)
  {
    hide HeldCall, At, Moves, StageOf, TallyAt, ServingPc, CallsTied, NextRecord, NotifiedOnce;
    if HeldCall(pc).Some? {
      HandUnwritten(w, w2, calls, t, pc, HeldCall(pc).value);
      HandAdvances(w, w2, calls, t, pc, HeldCall(pc).value);
    } else {
      IdleKeeps(w, w2, calls, t, pc);
    }
  }

  lemma TakeKeeps(w: World, w2: World, l: Ledger, t: nat, pc: Pc, op: nat)
    requires Tied(w, l) && op in w.free
    requires (exists c :: At(w, t) == TakeForBypass(c) && pc == EnterBypassing(c, op))
          || (At(w, t) == TakeForQueue && pc == PopHead(op))
    requires w2 == Go(w.(free := w.free - {op}), t, pc)
    ensures Tied(w2, l.(ops := l.ops[op := HeldBy(t)]))
  {
    hide OperatorsTied, CallsTied, NoneStranded, Agrees;
    CallsStay(w, w2, l.calls, t, pc);
    OperatorTaken(w, w2, l.ops, t, pc, op);
    QueueKeeps(w, w2, t, pc);
  }

  lemma GiveKeeps(w: World, w2: World, l: Ledger, t: nat, pc: Pc, op: nat)
    requires Tied(w, l)
    requires (exists c :: At(w, t) == ReturnBypass(c, op) && pc == PushToQueue(c))
          || (exists c :: At(w, t) == ReturnServed(c, op) && pc == LogServed(c))
          || (At(w, t) == ReturnUnused(op) && pc == Ended)
    requires w2 == Go(Return(w, op), t, pc)
    ensures Tied(w2, l.(ops := l.ops[op := InFree]))
  {
    hide OperatorsTied, CallsTied, NoneStranded, Agrees;
    HandStatus(w, l.ops, t, op);
    CallsStay(w, w2, l.calls, t, pc);
    OperatorGiven(w, w2, l.ops, t, pc, op);
    QueueKeeps(w, w2, t, pc);
  }

  /** A step of an iteration that only looks, or posts the next iteration. */
  lemma LookKeeps(w: World, w2: World, l: Ledger, t: nat, pc: Pc)
    requires Tied(w, l) && StaysPut(w, w2, t, pc) && OnlyThread(w, w2) && HeldCall(pc) == None
    requires BusyAt(pc) == BusyAt(At(w, t))
    requires w.q.receipt == [] || |w2.tasks| + One(Working(pc)) >= |w.tasks| + One(Working(At(w, t)))
    requires forall x: int :: KeepsGuard(w, w2, At(w, t), pc, x)
    ensures Tied(w2, l)
  {
    hide HeldCall, HeldOperator, At, Moves, Working, BusyAt, OperatorsTied, CallsTied, Agrees, NoneStranded, KeepsGuard;
    CallsStay(w, w2, l.calls, t, pc);
    forall op | HeldOperator(pc) == Some(op) ensures op in w2.busy <==> BusyAt(pc) { HandStatus(w, l.ops, t, op); }
    OperatorsKeep(w, w2, l.ops, t, pc);
    QueueLooked(w, w2, t, pc);
    SameIndicesAgree(w.q, w2.q);
  }

  /** The plain case: the iteration is at work before and after, or the queue is empty. */
  lemma LookOn(w: World, w2: World, l: Ledger, t: nat, pc: Pc)
    requires Tied(w, l) && StaysPut(w, w2, t, pc) && OnlyThread(w, w2) && HeldCall(pc) == None && w2.tasks == w.tasks
    requires BusyAt(pc) == BusyAt(At(w, t)) && !At(w, t).PostNext? && !pc.PostNext?
    requires w.q.receipt == [] || (Working(At(w, t)) ==> Working(pc))
    ensures Tied(w2, l)
  {
    hide HeldCall, HeldOperator, At, Moves, Working, BusyAt, OperatorsTied, CallsTied, Agrees, NoneStranded, Within;
    if w.q.receipt == [] { forall x: int { NoneExpiring(w.q.receipt, x); } }
    LookKeeps(w, w2, l, t, pc);
  }

  // Steps that move a call from one place to another.

  /** The record of `c` and its part in the counters suit the new place as they suited the old one. */
  ghost predicate Suits(w: World, w2: World, calls: map<nat, CallPlace>, calls2: map<nat, CallPlace>, c: nat) {
    && c in w.records && c in calls && c in calls2 && calls2 == calls[c := calls2[c]]
    && RecordFits(w2, calls2[c], w.records[c])
    && TallyOf(w2, calls2, c) == TallyOf(w, calls, c)
    && (IsServed(w, calls, c) ==> IsServed(w2, calls2, c))
  }

  lemma Relocate(w: World, w2: World, calls: map<nat, CallPlace>, calls2: map<nat, CallPlace>, t: nat, pc: Pc, c: nat)
    requires CallsTied(w, calls) && Moves(w, w2, t, pc) && OnlyThread(w, w2) && CallsPlaced(w2, calls2)
    requires HeldCall(At(w, t)) == None || HeldCall(At(w, t)) == Some(c)
    requires Suits(w, w2, calls, calls2, c)
    ensures CallsTied(w2, calls2)
  {
    hide HeldCall, At, Moves, RecordFits, TallyOf, IsServed, CallsPlaced, Touches, Cdr.Valid;
    hide RecordsFit, CountersFit;
    Others(w, w2, t, pc);
    StepTouches(w, w2, calls, calls2, t, pc, c);
    assert RecordAt(w2, calls2, c) by { RecordOf(w, calls, c); }
    RecordsStep(w, w2, calls, calls2, c);
    CountersStep(w, w2, calls, calls2, c);
    forall p | p in w2.q.processing && w2.q.processing[p].id == c ensures Owned(w2, calls2, p, c) {
      assert Owned(w, calls, p, c);
    }
    NumbersStep(w, w2, calls, calls2, c);
  }

  lemma RecordOf(w: World, calls: map<nat, CallPlace>, c: nat)
    requires RecordsFit(w, calls) && c in calls && c in w.records
    ensures RecordAt(w, calls, c)
  {
  }

  lemma EnqueueKeeps(w: World, w2: World, l: Ledger, t: nat, c: nat)
    requires Tied(w, l) && At(w, t) == PushToQueue(c) && Moves(w, w2, t, CheckQueue) && OnlyThread(w, w2)
    requires w2.free == w.free && w2.finishes == w.finishes && w2.journal == w.journal && w2.tasks == w.tasks
    requires Agrees(w2.q) && |w2.q.receipt| == |w.q.receipt| + 1
    requires forall x: int :: Expiring(w2.q.receipt, x) <= Expiring(w.q.receipt, x) + 1
    requires forall d :: d in w2.q.receipt <==> d in w.q.receipt || d == CallOf(Record(w, c))
    ensures Tied(w2, l.(calls := l.calls[c := Queued]))
  {
    hide OperatorsTied, CallsPlaced, RecordsFit, CountersFit, NumbersOwned, NotifiedOnce, Agrees, Moves, NoneStranded;
    hide Cdr.Valid, Expiring;
    var calls2 := l.calls[c := Queued];
    Others(w, w2, t, CheckQueue);
    HandHolds(w, l.calls, t, c);
    OperatorsKeep(w, w2, l.ops, t, CheckQueue);
    CallQueued(w, w2, l.calls, t, CheckQueue, c);
    Relocate(w, w2, l.calls, calls2, t, CheckQueue, c);
    QueueGrown(w, w2, t, CheckQueue);
  }

  lemma DequeueKeeps(w: World, w2: World, l: Ledger, t: nat, pc: Pc, x: Call)
    requires Tied(w, l) && Moves(w, w2, t, pc) && OnlyThread(w, w2) && TakenOut(w.q, w2.q, x)
    requires w2.free == w.free && w2.finishes == w.finishes && w2.journal == w.journal && w2.tasks == w.tasks
    requires (At(w, t) == EraseExpired && pc == Refuse(x.id, Timeout, true))
          || ((exists op :: At(w, t) == PopHead(op) && pc == EnterQueued(x.id, op))
              && forall d :: d in w.q.receipt ==> x.Timeout() <= d.Timeout())
    ensures Tied(w2, l.(calls := l.calls[x.id := With(t)]))
  {
    hide OperatorsTied, CallsPlaced, RecordsFit, CountersFit, NumbersOwned, NotifiedOnce, Agrees, Moves, NoneStranded;
    hide Cdr.Valid, Expiring;
    var calls2 := l.calls[x.id := With(t)];
    Others(w, w2, t, pc);
    QueuedHolds(w, l.calls, x);
    forall op | HeldOperator(pc) == Some(op) ensures op in w2.busy <==> BusyAt(pc) { HandStatus(w, l.ops, t, op); }
    OperatorsKeep(w, w2, l.ops, t, pc);
    CallDequeued(w, w2, l.calls, t, pc, x);
    Relocate(w, w2, l.calls, calls2, t, pc, x.id);
    QueueShrunk(w, w2, t, pc, x);
  }

  lemma QueuedHolds(w: World, calls: map<nat, CallPlace>, x: Call)
    requires CallsPlaced(w, calls) && RecordsFit(w, calls) && x in w.q.receipt
    ensures x.id in calls && calls[x.id] == Queued && x.id in w.records && x == CallOf(w.records[x.id])
    ensures ShowsStage(Waits, w.records[x.id]) && x.maxWait == w.wait && x.arrival == w.records[x.id].arrival.value
  {
    hide InHands, WithOperators, InJournal;
    RecordOf(w, calls, x.id);
  }

  lemma PostKeeps(w: World, w2: World, l: Ledger, t: nat, f: Finish)
    requires Tied(w, l) && At(w, t) == PostFinish(f.c, f.op)
    requires w2 == Go(w.(finishes := w.finishes + {f}), t, Ended)
    ensures Tied(w2, Ledger(l.ops[f.op := Serving(f)], l.calls[f.c := InService(f)]))
  {
    hide OperatorsTied, CallsPlaced, RecordsFit, CountersFit, NumbersOwned, NotifiedOnce, Agrees, NoneStranded;
    hide Cdr.Valid;
    HandHolds(w, l.calls, t, f.c);
    OperatorPosted(w, w2, l.ops, t, Ended, f);
    CallPosted(w, w2, l.calls, t, Ended, f);
    Relocate(w, w2, l.calls, l.calls[f.c := InService(f)], t, Ended, f.c);
    QueueKeeps(w, w2, t, Ended);
  }

  lemma FireKeeps(w: World, w2: World, l: Ledger, t: nat, f: Finish)
    requires Tied(w, l) && At(w, t) == Ended && f in w.finishes
    requires w2 == Go(w.(finishes := w.finishes - {f}), t, TurnFree(f.c, f.op))
    ensures Tied(w2, Ledger(l.ops[f.op := HeldBy(t)], l.calls[f.c := With(t)]))
  {
    hide OperatorsTied, CallsPlaced, RecordsFit, CountersFit, NumbersOwned, NotifiedOnce, Agrees, NoneStranded;
    hide Cdr.Valid;
    ServedHolds(w, l.calls, f);
    OperatorFired(w, w2, l.ops, t, TurnFree(f.c, f.op), f);
    CallFired(w, w2, l.calls, t, TurnFree(f.c, f.op), f);
    Relocate(w, w2, l.calls, l.calls[f.c := With(t)], t, TurnFree(f.c, f.op), f.c);
    QueueKeeps(w, w2, t, TurnFree(f.c, f.op));
  }

  lemma ServedHolds(w: World, calls: map<nat, CallPlace>, f: Finish)
    requires CallsPlaced(w, calls) && RecordsFit(w, calls) && f in w.finishes
    ensures f.c in calls && calls[f.c] == InService(f) && f.c in w.records && ShowsStage(Served, w.records[f.c])
  {
    hide InHands, InQueue, InJournal;
    RecordOf(w, calls, f.c);
  }

  lemma LogKeeps(w: World, w2: World, l: Ledger, t: nat, pc: Pc, c: nat)
    requires Tied(w, l)
    requires (exists looping :: At(w, t) == LogRefusal(c, looping) && pc == AfterRejection(looping))
          || (At(w, t) == LogServed(c) && pc == LookAgain)
    requires w2 == Go(w.(journal := w.journal + [c]), t, pc)
    ensures Tied(w2, l.(calls := l.calls[c := Done]))
  {
    hide HeldCall, HeldOperator, Working, BusyAt, StageOf, ShowsStage, Cdr.Valid;
    hide OperatorsTied, CallsPlaced, RecordsFit, CountersFit, NumbersOwned, NotifiedOnce, Agrees, NoneStranded, Suits;
    LogsCall(c, true);
    LogsCall(c, false);
    HandHolds(w, l.calls, t, c);
    OperatorsKeep(w, w2, l.ops, t, pc);
    CallLogged(w, w2, l.calls, t, pc, c);
    LoggedSuits(w, w2, l.calls, t, c);
    Relocate(w, w2, l.calls, l.calls[c := Done], t, pc, c);
    QueueKeeps(w, w2, t, pc);
  }

  lemma LogsCall(c: nat, looping: bool)
    ensures HeldCall(LogRefusal(c, looping)) == HeldCall(LogServed(c)) == Some(c)
    ensures HeldCall(AfterRejection(looping)) == HeldCall(LookAgain) == None
    ensures HeldOperator(LogRefusal(c, looping)) == HeldOperator(LogServed(c)) == None
    ensures HeldOperator(AfterRejection(looping)) == HeldOperator(LookAgain) == None
    ensures Working(LogRefusal(c, looping)) == Working(AfterRejection(looping)) && !Working(LogServed(c))
  {
  }

  lemma LoggedSuits(w: World, w2: World, calls: map<nat, CallPlace>, t: nat, c: nat)
    requires w2.records == w.records
    requires InHand(w, calls, t, c)
    requires At(w, t) == LogServed(c) || exists looping :: At(w, t) == LogRefusal(c, looping)
    ensures Suits(w, w2, calls, calls[c := Done], c)
  {
    hide At, Cdr.Valid;
  }

  lemma BornKeeps(w: World, w2: World, l: Ledger, t: nat, c: nat, phone: string)
    requires Tied(w, l) && At(w, t) == Ended && c !in w.records
    requires w2 == Go(Write(w, c, NewRecord(c, phone, w.wait)), t, SetArrival(c))
    ensures Tied(w2, l.(calls := l.calls[c := With(t)]))
  {
    hide OperatorsTied, CallsPlaced, RecordsFit, NumbersOwned, NotifiedOnce, Agrees, NoneStranded;
    var calls2 := l.calls[c := With(t)];
    OperatorsKeep(w, w2, l.ops, t, SetArrival(c));
    CallBorn(w, w2, l.calls, t, SetArrival(c), c, NewRecord(c, phone, w.wait));
    assert c !in l.calls by { Strangers(w, l.calls); }
    StepTouches(w, w2, l.calls, calls2, t, SetArrival(c), c);
    RecordsStep(w, w2, l.calls, calls2, c);
    CountersStep(w, w2, l.calls, calls2, c);
    assert forall p :: p in w.q.processing ==> w.q.processing[p].id != c by { NumbersKnown(w, l.calls); }
    NumbersStep(w, w2, l.calls, calls2, c);
    NotifiedKeep(w, w2, c);
    QueueKeeps(w, w2, t, SetArrival(c));
  }

  lemma Strangers(w: World, calls: map<nat, CallPlace>)
    requires CallsPlaced(w, calls)
    ensures calls.Keys == w.records.Keys
  {
  }

  lemma NumbersKnown(w: World, calls: map<nat, CallPlace>)
    requires NumbersOwned(w, calls)
    ensures forall p :: p in w.q.processing ==> w.q.processing[p].id in w.records
  {
    assert forall p :: p in w.q.processing ==> Owned(w, calls, p, w.q.processing[p].id);
  }

  // Steps of the environment.

  /** Everything the invariant says about calls stays the same. */
  ghost predicate CallsAside(w: World, w2: World) {
    && w2.threads == w.threads && w2.records == w.records && w2.wait == w.wait && w2.q == w.q
      && w2.finishes == w.finishes
    && w2.journal == w.journal && w2.notified == w.notified && w2.counters == w.counters && w2.tasks == w.tasks
  }

  lemma AsideKeeps(w: World, w2: World, l: Ledger, ops2: map<nat, OperatorPlace>)
    requires Tied(w, l) && CallsAside(w, w2) && OperatorsTied(w2, ops2)
    ensures Tied(w2, l.(ops := ops2))
  {
    hide OperatorsTied, CallsPlaced, RecordsFit, CountersFit, NumbersOwned, Touches, At, Agrees, NoneStranded;
    assert forall t :: At(w2, t) == At(w, t) by { AsideThreads(w, w2); }
    AsideCalls(w, w2, l.calls);
    assert Touches(w, w2, l.calls, l.calls, 0) && Touches(w, w2, l.calls, l.calls, 1) by {
      AsideTouches(w, w2, l.calls);
    }
    Bystander(w, w2, l.calls, l.calls, 0);
    RecordsStep(w, w2, l.calls, l.calls, 0);
    CountersStep(w, w2, l.calls, l.calls, 0);
    NumbersStep(w, w2, l.calls, l.calls, 0);
    AsideQueue(w, w2);
  }

  lemma AsideQueue(w: World, w2: World)
    requires NoneStranded(w) && CallsAside(w, w2)
    ensures NoneStranded(w2)
  {
    hide Working, Expiring, Within;
    assert Workers(w2) == Workers(w);
    forall x: int ensures CoveredBy(w2, x) {
      assert CoveredBy(w, x) && Guarding(w2, x) == Guarding(w, x);
    }
  }

  lemma AsideThreads(w: World, w2: World)
    requires w2.threads == w.threads
    ensures forall t :: At(w2, t) == At(w, t)
  {
  }

  lemma AsideTouches(w: World, w2: World, calls: map<nat, CallPlace>)
    requires CallsAside(w, w2)
    ensures forall c :: Touches(w, w2, calls, calls, c)
  {
  }

  lemma AsideCalls(w: World, w2: World, calls: map<nat, CallPlace>)
    requires CallsPlaced(w, calls) && CallsAside(w, w2) && forall t :: At(w2, t) == At(w, t)
    ensures CallsPlaced(w2, calls)
  {
    hide At, HeldCall, Distinct;
  }

  lemma TickKeeps(w: World, w2: World, l: Ledger, to: int)
    requires Tied(w, l) && w2 == w.(now := to)
    ensures Tied(w2, l)
  {
    hide OperatorsPlaced, StatusesFit, CallsTied, At, Agrees, Workers;
    AsideThreads(w, w2);
    TickOperators(w, w2, l.ops);
    AsideKeeps(w, w2, l, l.ops);
  }

  lemma TickOperators(w: World, w2: World, ops: map<nat, OperatorPlace>)
    requires OperatorsTied(w, ops) && w2 == w.(now := w2.now) && forall t :: At(w2, t) == At(w, t)
    ensures OperatorsTied(w2, ops)
  {
    hide At, HeldOperator, BusyAt;
  }

  /** The pool after resizing: those added are free, those removed were. */
  function ResizedOps(ops: map<nat, OperatorPlace>, added: set<nat>, removed: set<nat>): map<nat, OperatorPlace> {
    map op | op in (ops.Keys + added) - removed :: if op in ops then ops[op] else InFree
  }

  lemma ResizeKeeps(w: World, w2: World, l: Ledger, added: set<nat>, removed: set<nat>)
    requires Tied(w, l) && Enabled(w, Resized(added, removed)) && w2 == Happen(w, Resized(added, removed))
    ensures Tied(w2, l.(ops := ResizedOps(l.ops, added, removed)))
  {
    hide OperatorsPlaced, StatusesFit, CallsTied, At, Agrees, Workers;
    AsideThreads(w, w2);
    ResizeOperators(w, w2, l.ops, added, removed);
    AsideKeeps(w, w2, l, ResizedOps(l.ops, added, removed));
  }

  lemma ResizeOperators(w: World, w2: World, ops: map<nat, OperatorPlace>, added: set<nat>, removed: set<nat>)
    requires OperatorsTied(w, ops) && forall t :: At(w2, t) == At(w, t)
    requires added !! w.operators && added !! w.busy && removed <= w.free
    requires w2.operators == w.operators + added - removed && w2.free == w.free + added - removed
    requires w2.finishes == w.finishes && w2.busy == w.busy
    ensures OperatorsTied(w2, ResizedOps(ops, added, removed))
  {
    hide At, HeldOperator, BusyAt, OperatorsPlaced, StatusesFit;
    ResizePlaces(w, w2, ops, added, removed);
    ResizeStatuses(w, w2, ops, added, removed);
  }

  lemma ResizePlaces(w: World, w2: World, ops: map<nat, OperatorPlace>, added: set<nat>, removed: set<nat>)
    requires OperatorsPlaced(w, ops) && forall t :: At(w2, t) == At(w, t)
    requires added !! w.operators && added !! w.busy && removed <= w.free
    requires w2.operators == w.operators + added - removed && w2.free == w.free + added - removed
    requires w2.finishes == w.finishes && w2.busy == w.busy
    ensures OperatorsPlaced(w2, ResizedOps(ops, added, removed))
  {
    hide At, HeldOperator;
    assert removed <= ops.Keys;
    assert forall op :: op in removed ==> ops[op] == InFree;
  }

  lemma ResizeStatuses(w: World, w2: World, ops: map<nat, OperatorPlace>, added: set<nat>, removed: set<nat>)
    requires OperatorsTied(w, ops) && forall t :: At(w2, t) == At(w, t)
    requires added !! w.operators && added !! w.busy && removed <= w.free
    requires w2.operators == w.operators + added - removed && w2.free == w.free + added - removed
    requires w2.finishes == w.finishes && w2.busy == w.busy
    ensures StatusesFit(w2, ResizedOps(ops, added, removed))
  {
    hide At, HeldOperator, BusyAt;
    forall op | op in ResizedOps(ops, added, removed)
      ensures op in w2.busy <==> ShouldBeBusy(w2, ResizedOps(ops, added, removed)[op])
    {
      assert op in ops ==> ShouldBeBusy(w2, ops[op]) == ShouldBeBusy(w, ops[op]);
    }
  }

  // ---------------------------------------------------------------------------------------------
  // Every step of every thread
  // ---------------------------------------------------------------------------------------------

  lemma PushStepKeeps(w: World, l: Ledger, t: nat, ch: Choice) returns (l2: Ledger)
    requires Tied(w, l) && t in w.threads && (w.free == {} || ch.pick in w.free)
    requires var pc := w.threads[t];
      pc.SetArrival? || pc.CountArrival? || pc.TryBypass? || pc.TakeForBypass? || pc.EnterBypassing? || pc.ReturnBypass?
    ensures Tied(PushSteps(w, t, ch), l2)
  {
    hide Tied, Queue.InsertToProcessing;
    var w2 := PushSteps(w, t, ch);
    l2 := l;
    match w.threads[t]
    case SetArrival(c) => SetArrivalKeeps(w, w2, l, t, c);
    case CountArrival(c) => CountArrivalKeeps(w, w2, l, t, c);
    case TryBypass(c) => BypassKeeps(w, w2, l, t, c, At(w2, t));
    case TakeForBypass(c) =>
      if ch.pick in w.free {
        TakeKeeps(w, w2, l, t, EnterBypassing(c, ch.pick), ch.pick);
        l2 := l.(ops := l.ops[ch.pick := HeldBy(t)]);
      } else {
        BypassKeeps(w, w2, l, t, c, PushToQueue(c));
      }
    case EnterBypassing(c, op) =>
      if w.q.InsertToProcessing(CallOf(Record(w, c))).0 {
        EnterKeeps(w, w2, l, t, c, op);
      } else {
        NotAddedSame(w.q, CallOf(Record(w, c)));
        BypassRefusedKeeps(w, w2, l, t, c, op);
      }
    case ReturnBypass(c, op) =>
      GiveKeeps(w, w2, l, t, PushToQueue(c), op);
      l2 := l.(ops := l.ops[op := InFree]);
  }

  lemma NotAddedSame(q: Queue, c: Call)
    requires !q.InsertToProcessing(c).0
    ensures q.InsertToProcessing(c).1 == q
  {
  }

  /** An accepted call is in the queue and the thread goes on as an iteration; a refused one stays in hand. */
  lemma PushToQueueKeeps(w: World, l: Ledger, t: nat, ch: Choice, c: nat) returns (l2: Ledger)
    requires Tied(w, l) && t in w.threads && w.threads[t] == PushToQueue(c)
    ensures Tied(PushSteps(w, t, ch), l2)
  {
    hide OperatorsTied, CallsPlaced, RecordsFit, CountersFit, NumbersOwned, NotifiedOnce, NoneStranded, Agrees;
    hide Queue.Push;
    var w2 := PushSteps(w, t, ch);
    var x := CallOf(Record(w, c));
    HandHolds(w, l.calls, t, c);
    forall d | d in w.q.receipt ensures d.maxWait == x.maxWait { QueuedHolds(w, l.calls, d); }
    PushPutsIn(w.q, x, ch.capacity);
    if w.q.Push(x, ch.capacity).0 == Accepted {
      EnqueueKeeps(w, w2, l, t, c);
      l2 := l.(calls := l.calls[c := Queued]);
    } else {
      l2 := l;
      PushRefusedSame(w.q, x, ch.capacity);
      RefusedKeeps(w, w2, l, t, c, if w.q.Push(x, ch.capacity).0 == AlreadyQueued then AlreadyInQueue else Overload);
    }
  }

  lemma RefusedKeeps(w: World, w2: World, l: Ledger, t: nat, c: nat, reason: Refusal)
    requires Tied(w, l) && At(w, t) == PushToQueue(c)
    requires w2 == Go(w.(q := w2.q), t, Refuse(c, reason, false)) && w2.q == w.q.(capacity := w2.q.capacity)
    ensures Tied(w2, l)
  {
    hide OperatorsTied, NoneStranded, Agrees, CallsPlaced, NumbersOwned, RecordsFit, CountersFit, NotifiedOnce;
    hide HeldCall, HeldOperator, Working, ServingPc, ShowsStage, Cdr.Valid, CallOf;
    PushContinues(c, 0, reason);
    NoOperatorHeld(c, false);
    AdvanceUnwritten(w, w2, l, t, Refuse(c, reason, false), c);
  }

  lemma PushRefusedSame(q: Queue, c: Call, capacity: nat)
    requires q.Push(c, capacity).0 != Accepted
    ensures q.Push(c, capacity).1 == q.(capacity := capacity)
  {
  }

  lemma RejectStepKeeps(w: World, l: Ledger, t: nat) returns (l2: Ledger)
    requires Tied(w, l) && t in w.threads
    requires var pc := w.threads[t]; pc.Refuse? || pc.CountRefusal? || pc.CountDropout? || pc.LogRefusal?
    ensures Tied(RejectSteps(w, t), l2)
  {
    hide Cdr.Start, Cdr.Complete, CallOf, Decrement, Queue.EraseFromProcessing, Counters.ServiceComplete;
    hide Counters.ServiceStart;
    hide Tied, Go, Write, Record;
    var w2 := RejectSteps(w, t);
    l2 := l;
    match w.threads[t]
    case Refuse(c, reason, looping) => RefuseKeeps(w, w2, l, t, c, reason, looping);
    case CountRefusal(c, looping) => CountRefusalKeeps(w, w2, l, t, c, looping);
    case CountDropout(c, looping) => CountDropoutKeeps(w, w2, l, t, c, looping);
    case LogRefusal(c, looping) =>
      LogKeeps(w, w2, l, t, AfterRejection(looping), c);
      l2 := l.(calls := l.calls[c := Done]);
  }

  lemma StartStepKeeps(w: World, l: Ledger, t: nat, ch: Choice) returns (l2: Ledger)
    requires Tied(w, l) && t in w.threads
    requires var pc := w.threads[t]; pc.Answer? || pc.CountStart? || pc.TurnBusy? || pc.PostFinish?
    ensures Tied(StartSteps(w, t, ch), l2)
  {
    hide Cdr.Start, Cdr.Complete, CallOf, Decrement, Queue.EraseFromProcessing, Counters.ServiceComplete;
    hide Counters.ServiceStart;
    hide Tied, Go, Write, Record;
    var w2 := StartSteps(w, t, ch);
    l2 := l;
    match w.threads[t]
    case Answer(c, op) => AnswerKeeps(w, w2, l, t, c, op);
    case CountStart(c, op) => CountStartKeeps(w, w2, l, t, c, op);
    case TurnBusy(c, op) => TurnBusyKeeps(w, w2, l, t, c, op);
    case PostFinish(c, op) =>
      var f := Finish(c, op, w.now + 1000 * ch.delay);
      PostKeeps(w, w2, l, t, f);
      l2 := Ledger(l.ops[op := Serving(f)], l.calls[c := InService(f)]);
  }

  lemma OperatorStepKeeps(w: World, l: Ledger, t: nat, ch: Choice) returns (l2: Ledger)
    requires Tied(w, l) && t in w.threads && (w.threads[t].TakeForQueue? || w.threads[t].ReturnUnused?)
    ensures Tied(IterationSteps(w, t, ch), l2)
  {
    hide OperatorsTied, CallsTied, NoneStranded, Agrees;
    var w2 := IterationSteps(w, t, ch);
    l2 := l;
    match w.threads[t]
    case TakeForQueue =>
      if ch.pick in w.free {
        TakeKeeps(w, w2, l, t, PopHead(ch.pick), ch.pick);
        l2 := l.(ops := l.ops[ch.pick := HeldBy(t)]);
      } else {
        LookOn(w, w2, l, t, FindNext);
      }
    case ReturnUnused(op) =>
      GiveKeeps(w, w2, l, t, Ended, op);
      l2 := l.(ops := l.ops[op := InFree]);
  }

  /** Steps of an iteration that only look or post. */
  lemma LookStepKeeps(w: World, l: Ledger, t: nat, ch: Choice)
    requires Tied(w, l) && t in w.threads
    requires var pc := w.threads[t]; pc.CheckQueue? || pc.FindNext? || pc.PostNext?
    ensures Tied(IterationSteps(w, t, ch), l)
  {
    hide OperatorsTied, CallsTied, NoneStranded, Agrees, Expiring, Within;
    var w2 := IterationSteps(w, t, ch);
    match w.threads[t]
    case CheckQueue => LookOn(w, w2, l, t, At(w2, t));
    case FindNext => FindNextKeeps(w, w2, l, t);
    case PostNext(at) => PostNextKeeps(w, w2, l, t, at);
  }

  /** The iteration settles on the least timeout point: no queued call expires before it. */
  lemma FindNextKeeps(w: World, w2: World, l: Ledger, t: nat)
    requires Tied(w, l) && At(w, t) == FindNext
    requires w2 == Go(w, t, if w.q.MinTimeout().Some? then PostNext(w.q.MinTimeout().value.Timeout()) else Ended)
    ensures Tied(w2, l)
  {
    hide OperatorsTied, CallsTied, NoneStranded, Agrees, Expiring, Within;
    if w.q.receipt == [] {
      LookOn(w, w2, l, t, Ended);
    } else {
      MinTimeoutIsLeast(w.q);
      var at := w.q.timeouts[0].Timeout();
      forall x: int ensures KeepsGuard(w, w2, FindNext, PostNext(at), x) {
        if x < at { NoneExpiring(w.q.receipt, x); }
      }
      LookKeeps(w, w2, l, t, PostNext(at));
    }
  }

  lemma PostNextKeeps(w: World, w2: World, l: Ledger, t: nat, at: int)
    requires Tied(w, l) && At(w, t) == PostNext(at) && w2 == Go(w.(tasks := w.tasks + [at]), t, Ended)
    ensures Tied(w2, l)
  {
    hide OperatorsTied, CallsTied, NoneStranded, Agrees, Expiring, Within;
    forall x: int ensures KeepsGuard(w, w2, PostNext(at), Ended, x) { WithinAppend(w.tasks, at, x); }
    LookKeeps(w, w2, l, t, Ended);
  }

  lemma TakeOutStepKeeps(w: World, l: Ledger, t: nat, ch: Choice) returns (l2: Ledger)
    requires Tied(w, l) && t in w.threads && (w.threads[t].EraseExpired? || w.threads[t].PopHead?)
    ensures Tied(IterationSteps(w, t, ch), l2)
  {
    hide OperatorsTied, CallsTied, NoneStranded, Agrees, TakenOut, Queue.Pop, Queue.EraseTimeout, Expiring, Within;
    var w2 := IterationSteps(w, t, ch);
    l2 := l;
    PopTakesOut(w.q);
    EraseTakesOut(w.q, w.now);
    var x := if w.threads[t].EraseExpired? then w.q.EraseTimeout(w.now).0 else w.q.Pop().0;
    if x.Some? {
      TakenOutProcessing(w.q, w2.q, x.value);
      if w.threads[t].PopHead? { PopTakesEarliest(w, l.calls); }
      DequeueKeeps(w, w2, l, t, At(w2, t), x.value);
      l2 := l.(calls := l.calls[x.value.id := With(t)]);
    } else {
      LookOn(w, w2, l, t, At(w2, t));
    }
  }

  /** With one longest wait the head of the queue is the call that expires first. */
  lemma PopTakesEarliest(w: World, calls: map<nat, CallPlace>)
    requires Agrees(w.q) && CallsTied(w, calls)
    ensures w.q.Pop().0.Some? ==> forall d :: d in w.q.receipt ==> w.q.Pop().0.value.Timeout() <= d.Timeout()
  {
    hide CallsPlaced, RecordsFit, CountersFit, NumbersOwned, NotifiedOnce, Agrees;
    if w.q.receipt != [] {
      var k := PopAgrees(w.q);
      assert w.q.receipt[0] in w.q.receipt;
      forall d | d in w.q.receipt ensures d.maxWait == w.wait { QueuedHolds(w, calls, d); }
    }
  }

  lemma TakenOutProcessing(q: Queue, q2: Queue, x: Call)
    requires TakenOut(q, q2, x)
    ensures q2.processing == q.processing
  {
  }

  lemma FreeStepKeeps(w: World, l: Ledger, t: nat)
    requires Tied(w, l) && t in w.threads && (w.threads[t].TurnFree? || w.threads[t].CompleteCall?)
    ensures Tied(FinishSteps(w, t), l)
  {
    hide Cdr.Complete, Queue.EraseFromProcessing, Counters.ServiceComplete, Tied, Go, Write, Record;
    var w2 := FinishSteps(w, t);
    match w.threads[t]
    case TurnFree(c, op) => TurnFreeKeeps(w, w2, l, t, c, op);
    case CompleteCall(c, op) => CompleteCallKeeps(w, w2, l, t, c, op);
  }

  lemma FinishStepKeeps(w: World, l: Ledger, t: nat)
    requires Tied(w, l) && t in w.threads
    requires var pc := w.threads[t]; pc.TurnFree? || pc.CompleteCall? || pc.CountComplete? || pc.LeaveProcessing?
    ensures Tied(FinishSteps(w, t), l)
  {
    hide Cdr.Complete, CallOf, Queue.EraseFromProcessing, Counters.ServiceComplete, Tied, Go, Write, Record;
    match w.threads[t]
    case CountComplete(c, op) => CountCompleteKeeps(w, FinishSteps(w, t), l, t, c, op);
    case LeaveProcessing(c, op) => LeaveKeeps(w, FinishSteps(w, t), l, t, c, op);
    case _ => FreeStepKeeps(w, l, t);
  }

  lemma AfterServiceKeeps(w: World, l: Ledger, t: nat) returns (l2: Ledger)
    requires Tied(w, l) && t in w.threads && (w.threads[t].ReturnServed? || w.threads[t].LogServed?)
    ensures Tied(FinishSteps(w, t), l2)
  {
    hide Tied;
    var w2 := FinishSteps(w, t);
    match w.threads[t]
    case ReturnServed(c, op) =>
      GiveKeeps(w, w2, l, t, LogServed(c), op);
      l2 := l.(ops := l.ops[op := InFree]);
    case LogServed(c) =>
      LogKeeps(w, w2, l, t, LookAgain, c);
      l2 := l.(calls := l.calls[c := Done]);
  }

  lemma LookAgainKeeps(w: World, l: Ledger, t: nat)
    requires Tied(w, l) && t in w.threads && w.threads[t] == LookAgain
    ensures Tied(FinishSteps(w, t), l)
  {
    hide OperatorsTied, CallsTied, NoneStranded, Agrees;
    var w2 := FinishSteps(w, t);
    LookOn(w, w2, l, t, At(w2, t));
  }

  lemma RunKeeps(w: World, l: Ledger, t: nat, ch: Choice) returns (l2: Ledger)
    requires Tied(w, l) && t in w.threads && (w.free == {} || ch.pick in w.free)
    ensures Tied(Run(w, t, ch), l2)
  {
    hide Tied, PushSteps, RejectSteps, StartSteps, IterationSteps, FinishSteps;
    l2 := l;
    match w.threads[t]
    case SetArrival(_) | CountArrival(_) | TryBypass(_) | TakeForBypass(_) => l2 := PushStepKeeps(w, l, t, ch);
    case EnterBypassing(_, _) | ReturnBypass(_, _) => l2 := PushStepKeeps(w, l, t, ch);
    case PushToQueue(c) => l2 := PushToQueueKeeps(w, l, t, ch, c);
    case Refuse(_, _, _) | CountRefusal(_, _) | CountDropout(_, _) | LogRefusal(_, _) => l2 := RejectStepKeeps(w, l, t);
    case Answer(_, _) | CountStart(_, _) | TurnBusy(_, _) | PostFinish(_, _) => l2 := StartStepKeeps(w, l, t, ch);
    case EraseExpired | PopHead(_) => l2 := TakeOutStepKeeps(w, l, t, ch);
    case TakeForQueue | ReturnUnused(_) => l2 := OperatorStepKeeps(w, l, t, ch);
    case CheckQueue | FindNext | PostNext(_) => LookStepKeeps(w, l, t, ch);
    case EnterQueued(c, op) => EnterQueuedKeeps(w, l, t, ch, c, op);
    case TurnFree(_, _) | CompleteCall(_, _) | CountComplete(_, _) | LeaveProcessing(_, _) => FinishStepKeeps(w, l, t);
    case ReturnServed(_, _) | LogServed(_) => l2 := AfterServiceKeeps(w, l, t);
    case LookAgain => LookAgainKeeps(w, l, t);
    case Ended =>
  }

  lemma EnterQueuedKeeps(w: World, l: Ledger, t: nat, ch: Choice, c: nat, op: nat)
    requires Tied(w, l) && t in w.threads && w.threads[t] == EnterQueued(c, op)
    ensures Tied(IterationSteps(w, t, ch), l)
  {
    hide Tied, Queue.InsertToProcessing;
    EnterKeeps(w, IterationSteps(w, t, ch), l, t, c, op);
  }

  /** A posted iteration becomes a thread that looks after the queue. */
  lemma IterationDueKeeps(w: World, l: Ledger, t: nat, i: nat)
    requires Tied(w, l) && t !in w.threads && i < |w.tasks|
    ensures Tied(Go(w.(tasks := RemoveAt(w.tasks, i)), t, CheckQueue), l)
  {
    hide OperatorsTied, CallsTied, NoneStranded, Agrees, Expiring, Within;
    var w2 := Go(w.(tasks := RemoveAt(w.tasks, i)), t, CheckQueue);
    forall x: int ensures KeepsGuard(w, w2, Ended, CheckQueue, x) { WithinRemove(w.tasks, i, x); }
    LookKeeps(w, w2, l, t, CheckQueue);
  }

  lemma HappenKeeps(w: World, l: Ledger, h: Happening) returns (l2: Ledger)
    requires Tied(w, l) && Enabled(w, h)
    ensures Tied(Happen(w, h), l2)
  {
    hide Tied, Run;
    l2 := l;
    match h
    case Pushed(t, c, phone) =>
      BornKeeps(w, Happen(w, h), l, t, c, phone);
      l2 := l.(calls := l.calls[c := With(t)]);
    case Stepped(t, ch) => l2 := RunKeeps(w, l, t, ch);
    case IterationDue(t, i) => IterationDueKeeps(w, l, t, i);
    case FinishDue(t, f) =>
      FireKeeps(w, Happen(w, h), l, t, f);
      l2 := Ledger(l.ops[f.op := HeldBy(t)], l.calls[f.c := With(t)]);
    case Resized(added, removed) =>
      ResizeKeeps(w, Happen(w, h), l, added, removed);
      l2 := l.(ops := ResizedOps(l.ops, added, removed));
    case Ticked(to) => TickKeeps(w, Happen(w, h), l, to);
  }

  lemma InitialTied(now: int, wait: nat, capacity: nat, operators: set<nat>)
    ensures Tied(Initial(now, wait, capacity, operators), Ledger(map op | op in operators :: InFree, map[]))
  {
    hide Within;
    forall x: int { NoneExpiring([], x); }
    var w := Initial(now, wait, capacity, operators);
    assert ArrivedCalls(w, map[]) == {} && WaitingCalls(w, map[]) == {};
    assert PresentCalls(w, map[]) == {} && DroppedCalls(w, map[]) == {};
  }

  /**
   In every interleaving there is a ledger that gives each operator and each call its one place, and all that
   the invariant says holds.
   */
  lemma {:induction false} HistoryTied(now: int, wait: nat, capacity: nat, operators: set<nat>,
                                       hs: seq<Happening>)
    returns (l: Ledger)
    requires Possible(Initial(now, wait, capacity, operators), hs)
    ensures Tied(History(Initial(now, wait, capacity, operators), hs), l)
  {
    hide Tied, Happen, Enabled, Initial;
    var w := Initial(now, wait, capacity, operators);
    if hs == [] {
      InitialTied(now, wait, capacity, operators);
      l := Ledger(map op | op in operators :: InFree, map[]);
    } else {
      var m := |hs| - 1;
      l := HistoryTied(now, wait, capacity, operators, hs[..m]);
      l := HappenKeeps(History(w, hs[..m]), l, hs[m]);
    }
  }
}
