/**
 Who owns what while handlers interleave. A ledger gives every operator and every call one place; the
 invariant says that the places are the true ones, that each record, status and counter fits them, and that
 the indices of the queue agree. The lemmas here say what each kind of step does to the ledger.
 */
module Ownership {
  import opened Options
  import opened Sequences
  import opened CallDetailedRecords
  import opened CallQueues
  import opened QueueingMetrics
  import opened Expiries
  import opened Interleavings

  datatype OperatorPlace = InFree | HeldBy(t: nat) | Serving(f: Finish)

  datatype CallPlace = With(t: nat) | Queued | InService(f: Finish) | Done

  datatype Ledger = Ledger(ops: map<nat, OperatorPlace>, calls: map<nat, CallPlace>)

  /** A thread that has not begun is one that has nothing left to do. */
  function At(w: World, t: nat): Pc { if t in w.threads then w.threads[t] else Ended }

  // ---------------------------------------------------------------------------------------------
  // The invariant: operators
  // ---------------------------------------------------------------------------------------------

  /** The ledger is right: an operator is free, in the hands of a thread, or serving, and only one of these. */
  ghost predicate OperatorsPlaced(w: World, ops: map<nat, OperatorPlace>) {
    && ops.Keys == w.operators
    && (forall op :: op in w.free <==> op in ops && ops[op] == InFree)
    && (forall t, op :: HeldOperator(At(w, t)) == Some(op) ==> op in ops && ops[op] == HeldBy(t))
    && (forall op :: op in ops && ops[op].HeldBy? ==> HeldOperator(At(w, ops[op].t)) == Some(op))
    && (forall f :: f in w.finishes ==> f.op in ops && ops[f.op] == Serving(f))
    && (forall op :: op in ops && ops[op].Serving? ==> ops[op].f in w.finishes && ops[op].f.op == op)
  }

  /** The steps between turning an operator busy and turning it free. */
  predicate BusyAt(pc: Pc) { pc.PostFinish? || pc.TurnFree? }

  predicate ShouldBeBusy(w: World, p: OperatorPlace) {
    match p
    case InFree => false
    case HeldBy(t) => BusyAt(At(w, t))
    case Serving(_) => true
  }

  ghost predicate StatusesFit(w: World, ops: map<nat, OperatorPlace>) {
    forall op :: op in ops ==> (op in w.busy <==> ShouldBeBusy(w, ops[op]))
  }

  ghost predicate OperatorsTied(w: World, ops: map<nat, OperatorPlace>) {
    OperatorsPlaced(w, ops) && StatusesFit(w, ops)
  }

  // ---------------------------------------------------------------------------------------------
  // The invariant: calls
  // ---------------------------------------------------------------------------------------------

  /** A call is in the hands of a thread, queued, in service, or in the journal, and only one of these. */
  ghost predicate CallsPlaced(w: World, calls: map<nat, CallPlace>) {
    && calls.Keys == w.records.Keys
    && InHands(w, calls)
    && InQueue(w, calls)
    && WithOperators(w, calls)
    && InJournal(w, calls)
  }

  ghost predicate InHands(w: World, calls: map<nat, CallPlace>) {
    && (forall t, c :: HeldCall(At(w, t)) == Some(c) ==> c in calls && calls[c] == With(t))
    && (forall c :: c in calls && calls[c].With? ==> HeldCall(At(w, calls[c].t)) == Some(c))
  }

  ghost predicate InQueue(w: World, calls: map<nat, CallPlace>) {
    && (forall d :: d in w.q.receipt ==> d.id in calls && calls[d.id] == Queued && d == CallOf(Record(w, d.id)))
    && (forall c :: c in calls && calls[c] == Queued ==> Record(w, c).id == c && CallOf(Record(w, c)) in w.q.receipt)
  }

  ghost predicate WithOperators(w: World, calls: map<nat, CallPlace>) {
    && (forall f :: f in w.finishes ==> f.c in calls && calls[f.c] == InService(f))
    && (forall c :: c in calls && calls[c].InService? ==> calls[c].f in w.finishes && calls[c].f.c == c)
  }

  ghost predicate InJournal(w: World, calls: map<nat, CallPlace>) {
    (forall c :: c in w.journal <==> c in calls && calls[c] == Done) && Distinct(w.journal)
  }

  ghost predicate Distinct(s: seq<nat>) { forall i, j :: 0 <= i < j < |s| ==> s[i] != s[j] }

  /** How far a call has come, as its record shows it. */
  datatype Stage = Fresh | Waits | Served | Refused | Completed

  function StageOf(pc: Pc): Stage {
    match pc
    case SetArrival(_) => Fresh
    case CountStart(_, _) => Served
    case TurnBusy(_, _) => Served
    case PostFinish(_, _) => Served
    case TurnFree(_, _) => Served
    case CompleteCall(_, _) => Served
    case CountRefusal(_, _) => Refused
    case CountDropout(_, _) => Refused
    case LogRefusal(_, _) => Refused
    case CountComplete(_, _) => Completed
    case LeaveProcessing(_, _) => Completed
    case ReturnServed(_, _) => Completed
    case LogServed(_) => Completed
    case _ => Waits
  }

  predicate ShowsStage(s: Stage, r: Cdr) {
    match s
    case Fresh => !r.WasArrived() && !r.WasFinished() && r.start.None?
    case Waits => r.Live() && r.start.None?
    case Served => r.Live() && r.start.Some?
    case Refused => r.WasFinished() && !r.WasServiced() && r.start.None?
    case Completed => r.WasServiced() && r.start.Some?
  }

  predicate RecordFits(w: World, p: CallPlace, r: Cdr) {
    match p
    case With(t) => ShowsStage(StageOf(At(w, t)), r)
    case Queued => ShowsStage(Waits, r)
    case InService(_) => ShowsStage(Served, r)
    case Done => ShowsStage(Refused, r) || ShowsStage(Completed, r)
  }

  ghost predicate RecordsFit(w: World, calls: map<nat, CallPlace>) {
    forall c :: c in calls && c in w.records ==> RecordAt(w, calls, c)
  }

  predicate RecordAt(w: World, calls: map<nat, CallPlace>, c: nat)
    requires c in calls && c in w.records
  {
    var r := w.records[c];
    r.id == c && r.maxWait == w.wait && r.Valid() && RecordFits(w, calls[c], r)
  }

  /** Counted as waiting: between the count of the arrival and the count of the start or the refusal. */
  predicate WaitingPc(pc: Pc) {
    pc.CountStart? || pc.CountRefusal? || (StageOf(pc) == Waits && !pc.CountArrival?)
  }

  predicate PresentPc(pc: Pc) { WaitingPc(pc) || StageOf(pc) == Served || pc.CountComplete? }

  /** Being served: between the place where its number is entered and the place where it is erased. */
  predicate ServingPc(pc: Pc) {
    pc.Answer? || StageOf(pc) == Served || pc.CountComplete? || pc.LeaveProcessing?
  }

  /** What the counters count a call as. */
  datatype Tally = Tally(arrived: bool, waiting: bool, present: bool, dropped: bool)

  function TallyAt(pc: Pc): Tally {
    Tally(!pc.SetArrival? && !pc.CountArrival?, WaitingPc(pc), PresentPc(pc), pc.LogRefusal?)
  }

  function TallyOf(w: World, calls: map<nat, CallPlace>, c: nat): Tally {
    if c !in calls then Tally(false, false, false, false)
    else
      match calls[c]
      case With(t) => TallyAt(At(w, t))
      case Queued => Tally(true, true, true, false)
      case InService(_) => Tally(true, false, true, false)
      case Done => Tally(true, false, false, !Record(w, c).WasServiced())
  }

  predicate IsServed(w: World, calls: map<nat, CallPlace>, c: nat) {
    c in calls && match calls[c]
                  case With(t) => ServingPc(At(w, t))
                  case InService(_) => true
                  case _ => false
  }

  function ArrivedCalls(w: World, calls: map<nat, CallPlace>): set<nat> {
    set c | c in calls && TallyOf(w, calls, c).arrived
  }

  function WaitingCalls(w: World, calls: map<nat, CallPlace>): set<nat> {
    set c | c in calls && TallyOf(w, calls, c).waiting
  }

  function PresentCalls(w: World, calls: map<nat, CallPlace>): set<nat> {
    set c | c in calls && TallyOf(w, calls, c).present
  }

  function DroppedCalls(w: World, calls: map<nat, CallPlace>): set<nat> {
    set c | c in calls && TallyOf(w, calls, c).dropped
  }

  ghost predicate CountersFit(w: World, calls: map<nat, CallPlace>) {
    && w.counters.arrivals == |ArrivedCalls(w, calls)| && w.counters.queueSize == |WaitingCalls(w, calls)|
    && w.counters.inSystem == |PresentCalls(w, calls)| && w.counters.dropouts == |DroppedCalls(w, calls)|
  }

  /** The counters follow one call from one tally to another. */
  ghost predicate Follows(k: Counters, k2: Counters, before: Tally, after: Tally) {
    && k2.arrivals == k.arrivals + One(after.arrived) - One(before.arrived)
    && k2.queueSize == k.queueSize + One(after.waiting) - One(before.waiting)
    && k2.inSystem == k.inSystem + One(after.present) - One(before.present)
    && k2.dropouts == k.dropouts + One(after.dropped) - One(before.dropped)
  }

  /** Every number entered belongs to a call being served, which will erase it. */
  ghost predicate NumbersOwned(w: World, calls: map<nat, CallPlace>) {
    forall p :: p in w.q.processing ==> Owned(w, calls, p, w.q.processing[p].id)
  }

  predicate Owned(w: World, calls: map<nat, CallPlace>, p: string, c: nat) {
    IsServed(w, calls, c) && c in w.records && w.records[c].phone == p
  }

  /** The callback has run once for each finished call and for no other. */
  ghost predicate NotifiedOnce(w: World) {
    Distinct(w.notified) && forall c :: c in w.notified <==> c in w.records && w.records[c].WasFinished()
  }

  ghost predicate CallsTied(w: World, calls: map<nat, CallPlace>) {
    CallsPlaced(w, calls) && RecordsFit(w, calls) && CountersFit(w, calls) && NumbersOwned(w, calls) && NotifiedOnce(w)
  }

  // ---------------------------------------------------------------------------------------------
  // The invariant: the queue and the iterations that look after it
  // ---------------------------------------------------------------------------------------------

  /** Nobody is stranded: every queued call has a posted iteration or one at work, and one that is early enough. */
  ghost predicate NoneStranded(w: World) {
    |w.tasks| + |Workers(w)| >= |w.q.receipt| && forall x: int :: CoveredBy(w, x)
  }

  ghost predicate CoveredBy(w: World, x: int) {
    Expiring(w.q.receipt, x) <= Within(w.tasks, x) + |Guarding(w, x)|
  }

  ghost predicate Tied(w: World, l: Ledger) {
    && OperatorsTied(w, l.ops)
    && CallsTied(w, l.calls)
    && Agrees(w.q)
    && NoneStranded(w)
  }

  // ---------------------------------------------------------------------------------------------
  // What a step does to the operators
  // ---------------------------------------------------------------------------------------------

  /** Thread `t` goes on to `pc`; nothing else about the threads changes. */
  ghost predicate Moves(w: World, w2: World, t: nat, pc: Pc) {
    w2.threads == w.threads[t := pc] && w2.operators == w.operators && w2.wait == w.wait
  }

  lemma Others(w: World, w2: World, t: nat, pc: Pc)
    requires Moves(w, w2, t, pc)
    ensures At(w2, t) == pc && forall u :: u != t ==> At(w2, u) == At(w, u)
    ensures w2.operators == w.operators && w2.wait == w.wait
  {
  }

  lemma OperatorsKeep(w: World, w2: World, ops: map<nat, OperatorPlace>, t: nat, pc: Pc)
    requires OperatorsTied(w, ops) && Moves(w, w2, t, pc) && HeldOperator(pc) == HeldOperator(At(w, t))
    requires w2.free == w.free && w2.finishes == w.finishes
    requires forall op :: HeldOperator(pc) != Some(op) ==> (op in w2.busy <==> op in w.busy)
    requires forall op :: HeldOperator(pc) == Some(op) ==> (op in w2.busy <==> BusyAt(pc))
    ensures OperatorsTied(w2, ops)
  {
    hide HeldOperator, At, Moves;
    Others(w, w2, t, pc);
  }

  lemma OperatorTaken(w: World, w2: World, ops: map<nat, OperatorPlace>, t: nat, pc: Pc, op: nat)
    requires OperatorsTied(w, ops) && Moves(w, w2, t, pc) && HeldOperator(At(w, t)) == None
    requires HeldOperator(pc) == Some(op) && !BusyAt(pc) && op in w.free
    requires w2.free == w.free - {op} && w2.finishes == w.finishes && w2.busy == w.busy
    ensures OperatorsTied(w2, ops[op := HeldBy(t)])
  {
    hide HeldOperator, At, Moves;
    Others(w, w2, t, pc);
  }

  lemma OperatorGiven(w: World, w2: World, ops: map<nat, OperatorPlace>, t: nat, pc: Pc, op: nat)
    requires OperatorsTied(w, ops) && Moves(w, w2, t, pc) && HeldOperator(At(w, t)) == Some(op) && !BusyAt(At(w, t))
    requires HeldOperator(pc) == None
    requires w2.free == w.free + {op} && w2.finishes == w.finishes && w2.busy == w.busy
    ensures OperatorsTied(w2, ops[op := InFree])
  {
    hide HeldOperator, At, Moves;
    Others(w, w2, t, pc);
  }

  lemma OperatorPosted(w: World, w2: World, ops: map<nat, OperatorPlace>, t: nat, pc: Pc, f: Finish)
    requires OperatorsTied(w, ops) && Moves(w, w2, t, pc) && HeldOperator(At(w, t)) == Some(f.op) && BusyAt(At(w, t))
    requires HeldOperator(pc) == None
    requires w2.free == w.free && w2.finishes == w.finishes + {f} && w2.busy == w.busy
    ensures OperatorsTied(w2, ops[f.op := Serving(f)])
  {
    hide At, Moves, HeldOperator;
    Others(w, w2, t, pc);
  }

  lemma OperatorFired(w: World, w2: World, ops: map<nat, OperatorPlace>, t: nat, pc: Pc, f: Finish)
    requires OperatorsTied(w, ops) && Moves(w, w2, t, pc) && HeldOperator(At(w, t)) == None && f in w.finishes
    requires HeldOperator(pc) == Some(f.op) && BusyAt(pc)
    requires w2.free == w.free && w2.finishes == w.finishes - {f} && w2.busy == w.busy
    ensures OperatorsTied(w2, ops[f.op := HeldBy(t)])
  {
    hide At, Moves, HeldOperator;
    Others(w, w2, t, pc);
  }

  // ---------------------------------------------------------------------------------------------
  // What a step does to the places of calls
  // ---------------------------------------------------------------------------------------------

  ghost predicate SameQueued(w: World, w2: World) { forall d :: d in w2.q.receipt <==> d in w.q.receipt }

  /** Only the record of `c` may change. */
  ghost predicate OnlyRecord(w: World, w2: World, c: nat) {
    w2.records.Keys == w.records.Keys && forall d :: d in w.records && d != c ==> w2.records[d] == w.records[d]
  }

  lemma Held(w: World, calls: map<nat, CallPlace>, t: nat, c: nat)
    requires InHands(w, calls) && HeldCall(At(w, t)) == Some(c)
    ensures c in calls && calls[c] == With(t)
  {
  }

  lemma Waiting(w: World, calls: map<nat, CallPlace>, x: Call)
    requires InQueue(w, calls) && x in w.q.receipt
    ensures x.id in calls && calls[x.id] == Queued
  {
  }

  lemma Posted(w: World, calls: map<nat, CallPlace>, f: Finish)
    requires WithOperators(w, calls) && f in w.finishes
    ensures f.c in calls && calls[f.c] == InService(f)
  {
  }

  lemma SameRecords(w: World, w2: World)
    requires w2.records == w.records && w2.wait == w.wait
    ensures forall d :: Record(w2, d) == Record(w, d)
  {
  }

  lemma HandsKeep(w: World, w2: World, calls: map<nat, CallPlace>, t: nat, pc: Pc)
    requires InHands(w, calls) && Moves(w, w2, t, pc) && HeldCall(pc) == HeldCall(At(w, t))
    ensures InHands(w2, calls)
  {
    hide HeldCall, At, Moves;
    Others(w, w2, t, pc);
  }

  /** The thread lets go of `c`, which gets the place `p`. */
  lemma HandsLetGo(w: World, w2: World, calls: map<nat, CallPlace>, t: nat, pc: Pc, c: nat, p: CallPlace)
    requires InHands(w, calls) && Moves(w, w2, t, pc) && HeldCall(At(w, t)) == Some(c) && HeldCall(pc) == None
      && !p.With?
    ensures InHands(w2, calls[c := p])
  {
    hide HeldCall, At, Moves;
    Others(w, w2, t, pc);
  }

  /** The thread, which had no call, takes `c`, which no thread had. */
  lemma HandsTake(w: World, w2: World, calls: map<nat, CallPlace>, t: nat, pc: Pc, c: nat)
    requires InHands(w, calls) && Moves(w, w2, t, pc) && HeldCall(At(w, t)) == None && HeldCall(pc) == Some(c)
    requires c in calls ==> !calls[c].With?
    ensures InHands(w2, calls[c := With(t)])
  {
    hide HeldCall, At, Moves;
    Others(w, w2, t, pc);
  }

  // A call that gets the place `p` and is neither in the collection before nor after.

  lemma QueueUnmoved(w: World, w2: World, calls: map<nat, CallPlace>, c: nat, p: CallPlace)
    requires InQueue(w, calls) && SameQueued(w, w2) && p != Queued && (c in calls ==> calls[c] != Queued)
    requires forall d :: d in calls && d != c ==> Record(w2, d) == Record(w, d)
    ensures InQueue(w2, calls[c := p])
  {
    hide Record;
  }

  lemma ServiceUnmoved(w: World, w2: World, calls: map<nat, CallPlace>, c: nat, p: CallPlace)
    requires WithOperators(w, calls) && w2.finishes == w.finishes
    requires !p.InService? && (c in calls ==> !calls[c].InService?)
    ensures WithOperators(w2, calls[c := p])
  {
  }

  lemma JournalUnmoved(w: World, w2: World, calls: map<nat, CallPlace>, c: nat, p: CallPlace)
    requires InJournal(w, calls) && w2.journal == w.journal && p != Done && (c in calls ==> calls[c] != Done)
    ensures InJournal(w2, calls[c := p])
  {
    hide Distinct;
  }

  // A call that joins a collection or leaves it.

  lemma QueueJoined(w: World, w2: World, calls: map<nat, CallPlace>, c: nat)
    requires InQueue(w, calls) && c in calls && calls[c] != Queued && Record(w, c).id == c && w2.records == w.records
    requires w2.wait == w.wait && forall d :: d in w2.q.receipt <==> d in w.q.receipt || d == CallOf(Record(w, c))
    ensures InQueue(w2, calls[c := Queued])
  {
  }

  lemma QueueLeft(w: World, w2: World, calls: map<nat, CallPlace>, x: Call, p: CallPlace)
    requires InQueue(w, calls) && x in w.q.receipt && p != Queued && w2.records == w.records && w2.wait == w.wait
    requires forall d :: d in w2.q.receipt <==> d in w.q.receipt && d != x
    ensures InQueue(w2, calls[x.id := p])
  {
  }

  lemma ServiceJoined(w: World, w2: World, calls: map<nat, CallPlace>, f: Finish)
    requires WithOperators(w, calls) && f.c in calls && !calls[f.c].InService? && w2.finishes == w.finishes + {f}
    ensures WithOperators(w2, calls[f.c := InService(f)])
  {
  }

  lemma ServiceLeft(w: World, w2: World, calls: map<nat, CallPlace>, f: Finish, p: CallPlace)
    requires WithOperators(w, calls) && f in w.finishes && w2.finishes == w.finishes - {f} && !p.InService?
    ensures WithOperators(w2, calls[f.c := p])
  {
  }

  lemma JournalGrows(w: World, w2: World, calls: map<nat, CallPlace>, c: nat)
    requires InJournal(w, calls) && w2.journal == w.journal + [c] && c in calls && calls[c] != Done
    ensures InJournal(w2, calls[c := Done])
  {
    assert c !in w.journal;
  }

  lemma CallsKeep(w: World, w2: World, calls: map<nat, CallPlace>, t: nat, pc: Pc, c: nat)
    requires CallsPlaced(w, calls) && Moves(w, w2, t, pc) && HeldCall(pc) == HeldCall(At(w, t))
    requires SameQueued(w, w2) && w2.finishes == w.finishes && w2.journal == w.journal
    requires OnlyRecord(w, w2, c) && (w2.records == w.records || HeldCall(pc) == Some(c))
    ensures CallsPlaced(w2, calls)
  {
    hide At, Moves, HeldCall, Distinct, InHands;
    HandsKeep(w, w2, calls, t, pc);
    if HeldCall(pc) == Some(c) { Held(w, calls, t, c); }
  }

  lemma CallBorn(w: World, w2: World, calls: map<nat, CallPlace>, t: nat, pc: Pc, c: nat, r: Cdr)
    requires CallsPlaced(w, calls) && Moves(w, w2, t, pc) && HeldCall(At(w, t)) == None && HeldCall(pc) == Some(c)
    requires SameQueued(w, w2) && w2.finishes == w.finishes && w2.journal == w.journal
    requires c !in w.records && w2.records == w.records[c := r]
    ensures CallsPlaced(w2, calls[c := With(t)])
  {
    hide At, Moves, HeldCall, InHands, InQueue, WithOperators, InJournal;
    Others(w, w2, t, pc);
    HandsTake(w, w2, calls, t, pc, c);
    QueueUnmoved(w, w2, calls, c, With(t));
    ServiceUnmoved(w, w2, calls, c, With(t));
    JournalUnmoved(w, w2, calls, c, With(t));
  }

  lemma CallQueued(w: World, w2: World, calls: map<nat, CallPlace>, t: nat, pc: Pc, c: nat)
    requires CallsPlaced(w, calls) && Moves(w, w2, t, pc) && HeldCall(At(w, t)) == Some(c) && HeldCall(pc) == None
    requires Record(w, c).id == c
    requires forall d :: d in w2.q.receipt <==> d in w.q.receipt || d == CallOf(Record(w, c))
    requires w2.finishes == w.finishes && w2.journal == w.journal && w2.records == w.records
    ensures CallsPlaced(w2, calls[c := Queued])
  {
    hide At, Moves, HeldCall, InHands, InQueue, WithOperators, InJournal, Record;
    Others(w, w2, t, pc);
    assert c in calls && calls[c] == With(t) by { Held(w, calls, t, c); }
    HandsLetGo(w, w2, calls, t, pc, c, Queued);
    QueueJoined(w, w2, calls, c);
    ServiceUnmoved(w, w2, calls, c, Queued);
    JournalUnmoved(w, w2, calls, c, Queued);
  }

  lemma CallDequeued(w: World, w2: World, calls: map<nat, CallPlace>, t: nat, pc: Pc, x: Call)
    requires CallsPlaced(w, calls) && Moves(w, w2, t, pc) && HeldCall(At(w, t)) == None && HeldCall(pc) == Some(x.id)
    requires x in w.q.receipt && forall d :: d in w2.q.receipt <==> d in w.q.receipt && d != x
    requires w2.finishes == w.finishes && w2.journal == w.journal && w2.records == w.records
    ensures CallsPlaced(w2, calls[x.id := With(t)])
  {
    hide At, Moves, HeldCall, InHands, InQueue, WithOperators, InJournal, Record;
    Others(w, w2, t, pc);
    Waiting(w, calls, x);
    HandsTake(w, w2, calls, t, pc, x.id);
    QueueLeft(w, w2, calls, x, With(t));
    ServiceUnmoved(w, w2, calls, x.id, With(t));
    JournalUnmoved(w, w2, calls, x.id, With(t));
  }

  lemma CallPosted(w: World, w2: World, calls: map<nat, CallPlace>, t: nat, pc: Pc, f: Finish)
    requires CallsPlaced(w, calls) && Moves(w, w2, t, pc) && HeldCall(At(w, t)) == Some(f.c) && HeldCall(pc) == None
    requires SameQueued(w, w2) && w2.finishes == w.finishes + {f} && w2.journal == w.journal && w2.records == w.records
    ensures CallsPlaced(w2, calls[f.c := InService(f)])
  {
    hide At, Moves, HeldCall, InHands, InQueue, WithOperators, InJournal, Record;
    Others(w, w2, t, pc);
    Held(w, calls, t, f.c);
    HandsLetGo(w, w2, calls, t, pc, f.c, InService(f));
    SameRecords(w, w2);
    QueueUnmoved(w, w2, calls, f.c, InService(f));
    ServiceJoined(w, w2, calls, f);
    JournalUnmoved(w, w2, calls, f.c, InService(f));
  }

  lemma CallFired(w: World, w2: World, calls: map<nat, CallPlace>, t: nat, pc: Pc, f: Finish)
    requires CallsPlaced(w, calls) && Moves(w, w2, t, pc) && HeldCall(At(w, t)) == None && HeldCall(pc) == Some(f.c)
    requires f in w.finishes
    requires SameQueued(w, w2) && w2.finishes == w.finishes - {f} && w2.journal == w.journal && w2.records == w.records
    ensures CallsPlaced(w2, calls[f.c := With(t)])
  {
    hide At, Moves, HeldCall, InHands, InQueue, WithOperators, InJournal, Record;
    Others(w, w2, t, pc);
    Posted(w, calls, f);
    HandsTake(w, w2, calls, t, pc, f.c);
    SameRecords(w, w2);
    QueueUnmoved(w, w2, calls, f.c, With(t));
    ServiceLeft(w, w2, calls, f, With(t));
    JournalUnmoved(w, w2, calls, f.c, With(t));
  }

  lemma CallLogged(w: World, w2: World, calls: map<nat, CallPlace>, t: nat, pc: Pc, c: nat)
    requires CallsPlaced(w, calls) && Moves(w, w2, t, pc) && HeldCall(At(w, t)) == Some(c) && HeldCall(pc) == None
    requires SameQueued(w, w2) && w2.finishes == w.finishes && w2.journal == w.journal + [c] && w2.records == w.records
    ensures CallsPlaced(w2, calls[c := Done])
  {
    hide At, Moves, HeldCall, InHands, InQueue, WithOperators, InJournal, Record;
    Others(w, w2, t, pc);
    Held(w, calls, t, c);
    HandsLetGo(w, w2, calls, t, pc, c, Done);
    SameRecords(w, w2);
    QueueUnmoved(w, w2, calls, c, Done);
    ServiceUnmoved(w, w2, calls, c, Done);
    JournalGrows(w, w2, calls, c);
  }

  // ---------------------------------------------------------------------------------------------
  // What a step does to everything that depends on the places
  // ---------------------------------------------------------------------------------------------

  /** Call `d` is where it was, in the same stage and with the same record. */
  ghost predicate Untouched(w: World, w2: World, calls: map<nat, CallPlace>, calls2: map<nat, CallPlace>, d: nat) {
    && (d in calls <==> d in calls2)
    && (d in w.records <==> d in w2.records)
    && (d in w.records ==> w2.records[d] == w.records[d])
    && (d in calls ==> calls2[d] == calls[d] && (calls[d].With? ==> At(w2, calls[d].t) == At(w, calls[d].t)))
  }

  /** A step of thread `t` touches no call but the one in its hands before or after. */
  ghost predicate Touches(w: World, w2: World, calls: map<nat, CallPlace>, calls2: map<nat, CallPlace>, c: nat) {
    w2.wait == w.wait && forall d :: d != c ==> Untouched(w, w2, calls, calls2, d)
  }

  lemma StepTouches(w: World, w2: World, calls: map<nat, CallPlace>, calls2: map<nat, CallPlace>, t: nat, pc: Pc,
                    c: nat)
    requires CallsPlaced(w, calls) && Moves(w, w2, t, pc)
    requires HeldCall(At(w, t)) == None || HeldCall(At(w, t)) == Some(c)
    requires calls2 == calls || (c in calls2 && calls2 == calls[c := calls2[c]])
    requires w2.records == w.records || (c in w2.records && w2.records == w.records[c := w2.records[c]])
    ensures Touches(w, w2, calls, calls2, c)
  {
    hide HeldCall, InQueue, WithOperators, InJournal;
    Others(w, w2, t, pc);
  }

  function One(b: bool): int { if b then 1 else 0 }

  lemma RecordsStep(w: World, w2: World, calls: map<nat, CallPlace>, calls2: map<nat, CallPlace>, c: nat)
    requires RecordsFit(w, calls) && Touches(w, w2, calls, calls2, c)
    requires c in calls2 && c in w2.records ==> RecordAt(w2, calls2, c)
    ensures RecordsFit(w2, calls2)
  {
    forall d | d in calls2 && d in w2.records ensures RecordAt(w2, calls2, d) {
      if d != c { assert Untouched(w, w2, calls, calls2, d) && RecordAt(w, calls, d); }
    }
  }

  lemma CountersStep(w: World, w2: World, calls: map<nat, CallPlace>, calls2: map<nat, CallPlace>, c: nat)
    requires CountersFit(w, calls) && Touches(w, w2, calls, calls2, c)
    requires Follows(w.counters, w2.counters, TallyOf(w, calls, c), TallyOf(w2, calls2, c))
    ensures CountersFit(w2, calls2)
  {
    hide Touches, TallyOf, One;
    forall d | d != c ensures TallyOf(w2, calls2, d) == TallyOf(w, calls, d) { TallyStays(w, w2, calls, calls2, c, d); }
    TallyKeys(w, calls, c);
    TallyKeys(w2, calls2, c);
    forall d | d != c ensures d in calls <==> d in calls2 { KeyStays(w, w2, calls, calls2, c, d); }
    OneMoves(ArrivedCalls(w, calls), ArrivedCalls(w2, calls2), c);
    OneMoves(WaitingCalls(w, calls), WaitingCalls(w2, calls2), c);
    OneMoves(PresentCalls(w, calls), PresentCalls(w2, calls2), c);
    OneMoves(DroppedCalls(w, calls), DroppedCalls(w2, calls2), c);
  }

  lemma TallyStays(w: World, w2: World, calls: map<nat, CallPlace>, calls2: map<nat, CallPlace>, c: nat, d: nat)
    requires Touches(w, w2, calls, calls2, c) && d != c
    ensures TallyOf(w2, calls2, d) == TallyOf(w, calls, d)
  {
    hide At, TallyAt;
    assert Untouched(w, w2, calls, calls2, d);
  }

  lemma KeyStays(w: World, w2: World, calls: map<nat, CallPlace>, calls2: map<nat, CallPlace>, c: nat, d: nat)
    requires Touches(w, w2, calls, calls2, c) && d != c
    ensures d in calls <==> d in calls2
  {
    assert Untouched(w, w2, calls, calls2, d);
  }

  lemma TallyKeys(w: World, calls: map<nat, CallPlace>, c: nat)
    ensures c !in calls ==> TallyOf(w, calls, c) == Tally(false, false, false, false)
  {
  }

  lemma OneMoves(s: set<nat>, s2: set<nat>, c: nat)
    requires forall d :: d != c ==> (d in s2 <==> d in s)
    ensures |s2| == |s| + One(c in s2) - One(c in s)
  {
    assert s2 - {c} == s - {c};
    assert |s2| == |s2 - {c}| + One(c in s2);
    assert |s| == |s - {c}| + One(c in s);
  }

  /** A number entered stays owned as long as its call stays in service; a new number is owned by `c`. */
  lemma NumbersStep(w: World, w2: World, calls: map<nat, CallPlace>, calls2: map<nat, CallPlace>, c: nat)
    requires NumbersOwned(w, calls) && Touches(w, w2, calls, calls2, c)
    requires forall p :: p in w2.q.processing ==>
      w2.q.processing[p].id == c || (p in w.q.processing && w2.q.processing[p] == w.q.processing[p])
    requires forall p :: p in w2.q.processing && w2.q.processing[p].id == c ==> Owned(w2, calls2, p, c)
    ensures NumbersOwned(w2, calls2)
  {
    forall p | p in w2.q.processing ensures Owned(w2, calls2, p, w2.q.processing[p].id) {
      var d := w2.q.processing[p].id;
      if d != c { assert Owned(w, calls, p, d) && Untouched(w, w2, calls, calls2, d); }
    }
  }

  lemma NotifiedKeep(w: World, w2: World, c: nat)
    requires NotifiedOnce(w) && w2.notified == w.notified
    requires forall d :: d != c ==>
      (d in w2.records <==> d in w.records) && (d in w.records ==> w2.records[d] == w.records[d])
    requires (c in w.records && w.records[c].WasFinished()) == (c in w2.records && w2.records[c].WasFinished())
    ensures NotifiedOnce(w2)
  {
  }

  lemma NotifiedNext(w: World, w2: World, c: nat)
    requires NotifiedOnce(w) && w2.notified == w.notified + [c]
    requires c in w.records && !w.records[c].WasFinished() && c in w2.records && w2.records[c].WasFinished()
    requires OnlyRecord(w, w2, c)
    ensures NotifiedOnce(w2)
  {
  }

  lemma WorkersStep(w: World, w2: World, t: nat, pc: Pc)
    requires Moves(w, w2, t, pc)
    ensures |Workers(w2)| == |Workers(w)| + One(Working(pc)) - One(Working(At(w, t)))
  {
    Others(w, w2, t, pc);
    OneMoves(Workers(w), Workers(w2), t);
  }

  lemma GuardsStep(w: World, w2: World, t: nat, pc: Pc, x: int)
    requires Moves(w, w2, t, pc)
    ensures |Guarding(w2, x)| == |Guarding(w, x)| + One(Guards(pc, x)) - One(Guards(At(w, t), x))
  {
    Others(w, w2, t, pc);
    OneMoves(Guarding(w, x), Guarding(w2, x), t);
  }

  /** For the calls that expire by `x` the step gives no guard away, unless there are none. */
  ghost predicate KeepsGuard(w: World, w2: World, before: Pc, pc: Pc, x: int) {
    Expiring(w.q.receipt, x) == 0
    || Within(w2.tasks, x) + One(Guards(pc, x)) >= Within(w.tasks, x) + One(Guards(before, x))
  }

  /** A step that leaves the queue alone. */
  lemma QueueLooked(w: World, w2: World, t: nat, pc: Pc)
    requires NoneStranded(w) && Moves(w, w2, t, pc) && w2.q.receipt == w.q.receipt
    requires w.q.receipt == [] || |w2.tasks| + One(Working(pc)) >= |w.tasks| + One(Working(At(w, t)))
    requires forall x: int :: KeepsGuard(w, w2, At(w, t), pc, x)
    ensures NoneStranded(w2)
  {
    hide Working, Guards, At, Moves, Workers, Guarding, Expiring, Within;
    WorkersStep(w, w2, t, pc);
    forall x: int ensures CoveredBy(w2, x) {
      GuardsStep(w, w2, t, pc, x);
      assert CoveredBy(w, x) && KeepsGuard(w, w2, At(w, t), pc, x);
    }
  }

  /** A call enters the queue and its thread turns into an iteration. */
  lemma QueueGrown(w: World, w2: World, t: nat, pc: Pc)
    requires NoneStranded(w) && Moves(w, w2, t, pc) && |w2.q.receipt| == |w.q.receipt| + 1
    requires forall x: int :: Expiring(w2.q.receipt, x) <= Expiring(w.q.receipt, x) + 1
    requires w2.tasks == w.tasks && Working(pc) && !pc.PostNext? && !Working(At(w, t))
    ensures NoneStranded(w2)
  {
    hide At, Moves, Workers, Guarding, Expiring, Within;
    WorkersStep(w, w2, t, pc);
    forall x: int ensures CoveredBy(w2, x) {
      GuardsStep(w, w2, t, pc, x);
      assert CoveredBy(w, x);
    }
  }

  /** A call leaves the queue; the iteration that took it stays at work, or took the one that expires first. */
  lemma QueueShrunk(w: World, w2: World, t: nat, pc: Pc, x: Call)
    requires NoneStranded(w) && Moves(w, w2, t, pc) && TakenOut(w.q, w2.q, x) && w2.tasks == w.tasks
    requires !At(w, t).PostNext? && !pc.PostNext?
    requires Working(pc) || forall d :: d in w.q.receipt ==> x.Timeout() <= d.Timeout()
    ensures NoneStranded(w2)
  {
    hide Working, At, Moves, Workers, Guarding, Expiring, Within, Agrees;
    WorkersStep(w, w2, t, pc);
    forall y: int ensures CoveredBy(w2, y) {
      GuardsStep(w, w2, t, pc, y);
      assert CoveredBy(w, y);
      assert ExpiresApart(w.q, w2.q, x, y);
      if !Working(pc) && y < x.Timeout() { NoneExpiring(w.q.receipt, y); }
    }
  }

  // ---------------------------------------------------------------------------------------------
  // The queue under one longest wait
  // ---------------------------------------------------------------------------------------------

  /** `x` is taken out of the queue `q`, and `q2` is what is left. */
  ghost predicate TakenOut(q: Queue, q2: Queue, x: Call) {
    && Agrees(q2) && x in q.receipt
    && (forall d :: d in q2.receipt <==> d in q.receipt && d != x)
    && |q2.receipt| == |q.receipt| - 1 && q2.processing == q.processing
    && (forall y: int :: ExpiresApart(q, q2, x, y))
  }

  ghost predicate ExpiresApart(q: Queue, q2: Queue, x: Call, y: int) {
    Expiring(q2.receipt, y) + (if x.Timeout() <= y then 1 else 0) == Expiring(q.receipt, y)
  }

  lemma RemovedOnce(q: Queue, q2: Queue, i: nat)
    requires UniqueByArrival(q.receipt) && Agrees(q2) && i < |q.receipt|
    requires q2.receipt == RemoveAt(q.receipt, i) && q2.processing == q.processing
    ensures TakenOut(q, q2, q.receipt[i])
  {
    hide Agrees;
    var s := q.receipt;
    var r := RemoveAt(s, i);
    MembersOfRemoveAt(s, i);
    forall y: int ensures ExpiresApart(q, q2, s[i], y) { ExpiringRemove(s, i, y); }
    assert s[i] in s;
    forall j | 0 <= j < |r| ensures r[j] != s[i] {
      var k := if j < i then j else j + 1;
      assert r[j] == s[k] && k != i;
      assert !Matches(ReceiptOrder, s[if k < i then k else i], s[if k < i then i else k]);
    }
  }

  lemma PopTakesOut(q: Queue)
    requires Agrees(q)
    ensures q.Pop().0.Some? <==> q.receipt != []
    ensures q.Pop().0.Some? ==> TakenOut(q, q.Pop().1, q.Pop().0.value)
  {
    hide TakenOut, Matches;
    if q.receipt != [] {
      var k := PopAgrees(q);
      assert RemoveAt(q.receipt, 0) == q.receipt[1..];
      RemovedOnce(q, q.Pop().1, 0);
    }
  }

  lemma EraseTakesOut(q: Queue, now: int)
    requires Agrees(q)
    ensures q.EraseTimeout(now).0.Some? ==> TakenOut(q, q.EraseTimeout(now).1, q.EraseTimeout(now).0.value)
    ensures q.EraseTimeout(now).0.None? ==> q.EraseTimeout(now).1 == q
  {
    hide TakenOut, Matches;
    var i := EraseTimeoutAgrees(q, now);
    if q.EraseTimeout(now).0.Some? { RemovedOnce(q, q.EraseTimeout(now).1, i); }
  }

  lemma EmplaceExpiring(s: seq<Call>, c: Call, x: int)
    ensures Expiring(Emplace(ReceiptOrder, s, c), x) <= Expiring(s, x) + 1
  {
    ExpiringInsert(s, UpperBound(ReceiptOrder, s, c.arrival), c, x);
  }

  lemma PushPutsIn(q: Queue, c: Call, capacity: nat)
    requires Agrees(q) && forall d :: d in q.receipt ==> d.maxWait == c.maxWait
    ensures Agrees(q.Push(c, capacity).1) && q.Push(c, capacity).1.processing == q.processing
    ensures q.Push(c, capacity).0 == Accepted ==>
      && |q.Push(c, capacity).1.receipt| == |q.receipt| + 1
      && (forall d :: d in q.Push(c, capacity).1.receipt <==> d in q.receipt || d == c)
      && (forall x: int :: Expiring(q.Push(c, capacity).1.receipt, x) <= Expiring(q.receipt, x) + 1)
    ensures q.Push(c, capacity).0 != Accepted ==> q.Push(c, capacity).1.receipt == q.receipt
  {
    hide Agrees, Emplace;
    var (result, r) := q.Push(c, capacity);
    if result == Accepted {
      OneWaitIsSafe(q, c);
      PushAgreesIff(q, c, capacity);
      EmplaceElements(ReceiptOrder, q.receipt, c);
      forall x: int ensures Expiring(r.receipt, x) <= Expiring(q.receipt, x) + 1 { EmplaceExpiring(q.receipt, c, x); }
      forall d ensures d in r.receipt <==> d in q.receipt || d == c {
        assert d in r.receipt <==> d in multiset(r.receipt);
        assert d in q.receipt <==> d in multiset(q.receipt);
      }
    } else {
      SameIndicesAgree(q, r);
    }
  }
}
