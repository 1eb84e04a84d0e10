/**
 Whether an operator can stand idle while a call waits, in every interleaving. A thread that took an operator and gives
 it back without a look at the queue can leave both behind; nothing else can, but a pool that grows.
 */
module Idling {
  import opened Options
  import opened CallDetailedRecords
  import opened CallQueues
  import opened Interleavings
  import opened Ownership
  import opened InterleavingSafety

  /** The thread has yet to look for an operator, or for a reason to. */
  predicate Looks(pc: Pc) {
    match pc
    case CheckQueue => true
    case EraseExpired => true
    case TakeForQueue => true
    case Refuse(_, _, looping) => looping
    case CountRefusal(_, looping) => looping
    case CountDropout(_, looping) => looping
    case LogRefusal(_, looping) => looping
    case LogServed(_) => true
    case LookAgain => true
    case _ => false
  }

  function Lookers(w: World): set<nat> { set t | t in w.threads && Looks(w.threads[t]) }

  /** The threads that have an operator for the head of the queue. */
  function Poppers(w: World): set<nat> { set t | t in w.threads && w.threads[t].PopHead? }

  /** The free operators, or the queued calls nobody has an operator for, are no more than the threads that look. */
  ghost predicate Attended(w: World) {
    |w.free| <= |Lookers(w)| || |w.q.receipt| <= |Lookers(w)| + |Poppers(w)|
  }

  // ---------------------------------------------------------------------------------------------
  // One step
  // ---------------------------------------------------------------------------------------------

  /** What a step changes of the numbers that count. */
  ghost predicate Shifts(w: World, w2: World, pc: Pc, pc2: Pc) {
    var looks, pops := One(Looks(pc2)) - One(Looks(pc)), One(pc2.PopHead?) - One(pc.PopHead?);
    var free, calls := |w2.free| - |w.free|, |w2.q.receipt| - |w.q.receipt|;
    (free <= looks && calls <= looks + pops) || w2.q.receipt == [] || w2.free == {}
  }

  lemma LookersMove(w: World, w2: World, t: nat, pc2: Pc)
    requires Moves(w, w2, t, pc2)
    ensures |Lookers(w2)| == |Lookers(w)| + One(Looks(pc2)) - One(Looks(At(w, t)))
    ensures |Poppers(w2)| == |Poppers(w)| + One(pc2.PopHead?) - One(At(w, t).PopHead?)
  {
    hide Looks, Moves, At;
    Others(w, w2, t, pc2);
    SeatsMove(w, w2, t);
    OneMoves(Lookers(w), Lookers(w2), t);
    OneMoves(Poppers(w), Poppers(w2), t);
  }

  lemma SeatsMove(w: World, w2: World, t: nat)
    requires forall u :: u != t ==> At(w2, u) == At(w, u)
    ensures forall u :: u != t ==> (u in Lookers(w2) <==> u in Lookers(w)) && (u in Poppers(w2) <==> u in Poppers(w))
    ensures forall v: World :: (t in Lookers(v) <==> Looks(At(v, t))) && (t in Poppers(v) <==> At(v, t).PopHead?)
  {
    forall v: World, u: nat
      ensures (u in Lookers(v) <==> Looks(At(v, u))) && (u in Poppers(v) <==> At(v, u).PopHead?)
    {
    }
  }

  /** A step of the thread that shifts the numbers so. */
  ghost predicate Steps(w: World, w2: World, t: nat) { Moves(w, w2, t, At(w2, t)) && Shifts(w, w2, At(w, t), At(w2,
                        t)) }

  lemma StaysAttended(w: World, w2: World, t: nat)
    requires Attended(w) && Steps(w, w2, t)
    ensures Attended(w2)
  {
    hide Looks, Moves, At, Lookers, Poppers;
    LookersMove(w, w2, t, At(w2, t));
  }

  lemma AskSteps(w: World, t: nat, ch: Choice)
    requires t in w.threads && w.threads[t].PushToQueue?
    ensures Steps(w, PushSteps(w, t, ch), t)
  {
    hide Emplace;
    var c := CallOf(Record(w, w.threads[t].c));
    EmplaceElements(ReceiptOrder, w.q.receipt, c);
  }

  lemma BypassSteps(w: World, t: nat, ch: Choice)
    requires t in w.threads
    requires var pc := w.threads[t];
      pc.SetArrival? || pc.CountArrival? || pc.TryBypass? || pc.TakeForBypass? || pc.EnterBypassing?
    ensures Steps(w, PushSteps(w, t, ch), t)
  {
    hide CallOf, Queue.Contains;
  }

  lemma RefusalSteps(w: World, t: nat)
    requires t in w.threads
    requires var pc := w.threads[t]; pc.Refuse? || pc.CountRefusal? || pc.CountDropout? || pc.LogRefusal?
    ensures Steps(w, RejectSteps(w, t), t)
  {
  }

  lemma ServiceSteps(w: World, t: nat, ch: Choice)
    requires t in w.threads
    requires var pc := w.threads[t]; pc.Answer? || pc.CountStart? || pc.TurnBusy? || pc.PostFinish?
    ensures Steps(w, StartSteps(w, t, ch), t)
  {
  }

  lemma LookSteps(w: World, t: nat, ch: Choice)
    requires t in w.threads && (w.free == {} || ch.pick in w.free)
    requires var pc := w.threads[t]; pc.CheckQueue? || pc.TakeForQueue? || pc.FindNext? || pc.PostNext?
    ensures Steps(w, IterationSteps(w, t, ch), t)
  {
    hide Queue.MinTimeout;
  }

  lemma TakeOutSteps(w: World, l: Ledger, t: nat, ch: Choice)
    requires Tied(w, l) && t in w.threads
    requires var pc := w.threads[t]; pc.EraseExpired? || pc.PopHead? || pc.EnterQueued?
    ensures Steps(w, IterationSteps(w, t, ch), t)
  {
    hide OperatorsTied, CallsTied, NoneStranded, Agrees, TakenOut, Queue.Pop, Queue.EraseTimeout, Queue.Contains;
    hide CallOf;
    PopTakesOut(w.q);
    EraseTakesOut(w.q, w.now);
    var x := if w.threads[t].EraseExpired? then w.q.EraseTimeout(w.now) else w.q.Pop();
    if x.0.Some? && !w.threads[t].EnterQueued? { OneFewer(w.q, x.1, x.0.value); }
    if w.threads[t].PopHead? && w.q.receipt == [] { PopsNone(w.q); }
  }

  lemma OneFewer(q: Queue, q2: Queue, x: Call)
    requires TakenOut(q, q2, x)
    ensures |q2.receipt| == |q.receipt| - 1
  {
  }

  lemma PopsNone(q: Queue)
    requires q.receipt == []
    ensures q.Pop() == (None, q)
  {
  }

  lemma CompletionSteps(w: World, t: nat)
    requires t in w.threads
    requires var pc := w.threads[t];
      pc.TurnFree? || pc.CompleteCall? || pc.CountComplete? || pc.LeaveProcessing? || pc.LogServed? || pc.LookAgain?
    ensures Steps(w, FinishSteps(w, t), t)
  {
    hide CallOf, Cdr.Complete;
  }

  /** The thread that brings an operator back from a service has yet to look at the queue. */
  lemma ReturnSteps(w: World, t: nat)
    requires t in w.threads && w.threads[t].ReturnServed?
    ensures Steps(w, FinishSteps(w, t), t)
  {
    hide Queue.EraseFromProcessing, CallOf, Cdr.Complete;
    var op := w.threads[t].op;
    assert |w.free + {op}| <= |w.free| + 1;
  }

  /** A thread gives an operator back without a look at the queue behind it. */
  predicate GivesUp(pc: Pc) { pc.ReturnUnused? || pc.ReturnBypass? }

  lemma RunAttended(w: World, l: Ledger, t: nat, ch: Choice)
    requires Tied(w, l) && Attended(w) && t in w.threads && (w.free == {} || ch.pick in w.free)
      && !GivesUp(w.threads[t])
    ensures Attended(Run(w, t, ch))
  {
    hide Tied, Attended, Steps, PushSteps, RejectSteps, StartSteps, IterationSteps, FinishSteps;
    match w.threads[t] {
      case PushToQueue(_) => AskSteps(w, t, ch);
      case SetArrival(_) | CountArrival(_) | TryBypass(_) | TakeForBypass(_) => BypassSteps(w, t, ch);
      case EnterBypassing(_, _) => BypassSteps(w, t, ch);
      case Refuse(_, _, _) | CountRefusal(_, _) | CountDropout(_, _) | LogRefusal(_, _) => RefusalSteps(w, t);
      case Answer(_, _) | CountStart(_, _) | TurnBusy(_, _) | PostFinish(_, _) => ServiceSteps(w, t, ch);
      case CheckQueue | TakeForQueue | FindNext | PostNext(_) => LookSteps(w, t, ch);
      case EraseExpired | PopHead(_) | EnterQueued(_, _) => TakeOutSteps(w, l, t, ch);
      case TurnFree(_, _) | CompleteCall(_, _) | CountComplete(_, _) | LeaveProcessing(_, _) => CompletionSteps(w, t);
      case LogServed(_) | LookAgain => CompletionSteps(w, t);
      case ReturnServed(_, _) => ReturnSteps(w, t);
      case Ended => return;
    }
    StaysAttended(w, Run(w, t, ch), t);
  }

  // ---------------------------------------------------------------------------------------------
  // When a call and an operator are left behind
  // ---------------------------------------------------------------------------------------------

  /** The free operators once one was given up or the pool was resized. */
  function FreeAfter(w: World, h: Happening): set<nat> {
    match h
    case Resized(added, removed) => w.free + added - removed
    case Stepped(t, _) => if GivesUp(At(w, t)) && At(w, t).op in w.operators then w.free + {At(w, t).op} else w.free
    case _ => w.free
  }

  /** An operator is given up, or the pool resized, with calls waiting and too few threads that will look. */
  ghost predicate Leaves(w: World, h: Happening) {
    && (h.Resized? || (h.Stepped? && GivesUp(At(w, h.t))))
    && |FreeAfter(w, h)| > |Lookers(w)| && |w.q.receipt| > |Lookers(w)| + |Poppers(w)|
  }

  lemma GivenUp(w: World, h: Happening)
    requires Enabled(w, h) && h.Stepped? && GivesUp(At(w, h.t))
    ensures Attended(Happen(w, h)) <==> !Leaves(w, h)
  {
    hide CallOf, Looks, Lookers, Poppers, Happen, Moves, Enabled;
    var w2 := Happen(w, h);
    GivenUpLooks(w, h);
    LookersMove(w, w2, h.t, At(w2, h.t));
  }

  lemma GivenUpLooks(w: World, h: Happening)
    requires Enabled(w, h) && h.Stepped? && GivesUp(At(w, h.t))
    ensures !Looks(At(w, h.t)) && !Looks(At(Happen(w, h), h.t)) && !At(Happen(w, h), h.t).PopHead?
    ensures Moves(w, Happen(w, h), h.t, At(Happen(w, h), h.t))
    ensures Happen(w, h).free == FreeAfter(w, h) && Happen(w, h).q == w.q
  {
    hide CallOf, Queue.Push, Queue.InsertToProcessing, RejectSteps, StartSteps, FinishSteps;
  }

  lemma SameThreads(w: World, w2: World)
    requires w2.threads == w.threads
    ensures Lookers(w2) == Lookers(w) && Poppers(w2) == Poppers(w)
  {
  }

  lemma IterationsLook()
    ensures !Looks(Ended) && Looks(CheckQueue)
  {
  }

  /** From a state that is attended the next one is not exactly if an operator and a call are left behind. */
  lemma AttendedIff(w: World, l: Ledger, h: Happening)
    requires Tied(w, l) && Enabled(w, h) && Attended(w)
    ensures Attended(Happen(w, h)) <==> !Leaves(w, h)
  {
    hide Tied, Run, Lookers, Poppers, Looks;
    IterationsLook();
    match h
    case Stepped(t, ch) => if GivesUp(At(w, t)) { GivenUp(w, h); } else { RunAttended(w, l, t, ch); }
    case Resized(_, _) => SameThreads(w, Happen(w, h));
    case Ticked(_) => SameThreads(w, Happen(w, h));
    case Pushed(t, c, _) => LookersMove(w, Happen(w, h), t, SetArrival(c));
    case IterationDue(t, _) => LookersMove(w, Happen(w, h), t, CheckQueue);
    case FinishDue(t, f) => LookersMove(w, Happen(w, h), t, TurnFree(f.c, f.op));
  }

  /** In every history all states are attended if and only if no happening leaves an operator and a call behind. */
  lemma AttendedAlwaysIff(now: int, wait: nat, capacity: nat, operators: set<nat>, hs: seq<Happening>)
    requires Possible(Initial(now, wait, capacity, operators), hs)
    ensures
      var w0 := Initial(now, wait, capacity, operators);
      (forall k :: 0 <= k <= |hs| ==> Attended(Before(w0, hs, k)))
      <==> (forall k :: 0 <= k < |hs| ==> !Leaves(Before(w0, hs, k), hs[k]))
  {
    hide Tied, Attended, Leaves, Enabled, Happen, Initial;
    var w0 := Initial(now, wait, capacity, operators);
    forall k | 0 <= k < |hs| && Attended(Before(w0, hs, k))
      ensures Attended(Before(w0, hs, k + 1)) <==> !Leaves(Before(w0, hs, k), hs[k])
    {
      AttendedNext(now, wait, capacity, operators, hs, k);
    }
    if forall k :: 0 <= k < |hs| ==> !Leaves(Before(w0, hs, k), hs[k]) {
      AttendedFirst(now, wait, capacity, operators);
      var k := 0;
      while k < |hs|
        invariant 0 <= k <= |hs| && forall i :: 0 <= i <= k ==> Attended(Before(w0, hs, i))
      {
        assert !Leaves(Before(w0, hs, k), hs[k]);
        k := k + 1;
      }
    }
    forall k | 0 <= k < |hs| && (forall i :: 0 <= i <= |hs| ==> Attended(Before(w0, hs, i)))
      ensures !Leaves(Before(w0, hs, k), hs[k])
    {
      assert Attended(Before(w0, hs, k)) && Attended(Before(w0, hs, k + 1));
    }
  }

  lemma AttendedFirst(now: int, wait: nat, capacity: nat, operators: set<nat>)
    ensures Attended(Initial(now, wait, capacity, operators))
  {
  }

  lemma AttendedNext(now: int, wait: nat, capacity: nat, operators: set<nat>, hs: seq<Happening>, k: nat)
    requires Possible(Initial(now, wait, capacity, operators), hs) && k < |hs|
    requires Attended(Before(Initial(now, wait, capacity, operators), hs, k))
    ensures var w0 := Initial(now, wait, capacity, operators);
            Attended(Before(w0, hs, k + 1)) <==> !Leaves(Before(w0, hs, k), hs[k])
  {
    hide Tied, Attended, Leaves, Enabled, Happen, Initial;
    var w0 := Initial(now, wait, capacity, operators);
    PossibleBefore(w0, hs, k + 1);
    assert hs[..k + 1][..k] == hs[..k];
    var l := HistoryTied(now, wait, capacity, operators, hs[..k]);
    AttendedIff(Before(w0, hs, k), l, hs[k]);
  }

  lemma {:induction false} PossibleBefore(w0: World, hs: seq<Happening>, k: nat)
    requires Possible(w0, hs) && k <= |hs|
    ensures Possible(w0, hs[..k])
  {
    hide Enabled, History;
    if k < |hs| {
      PossibleBefore(w0, hs[..|hs| - 1], k);
      assert hs[..|hs| - 1][..k] == hs[..k];
    } else {
      assert hs[..k] == hs;
    }
  }

  /** While no thread is at work, an operator is free and a call waits exactly if the state is not attended. */
  lemma IdleIff(w: World)
    requires forall t :: At(w, t) == Ended
    ensures w.free != {} && w.q.receipt != [] <==> !Attended(w)
  {
    assert forall t :: t in w.threads ==> At(w, t) == w.threads[t];
    assert Lookers(w) == {} && Poppers(w) == {};
  }

  /** So no operator is left free with a call waiting, unless one was given up or the pool resized that left them so. */
  lemma NobodyIdle(now: int, wait: nat, capacity: nat, operators: set<nat>, hs: seq<Happening>)
    requires Possible(Initial(now, wait, capacity, operators), hs)
    requires var w0 := Initial(now, wait, capacity, operators);
             forall k :: 0 <= k < |hs| ==> !Leaves(Before(w0, hs, k), hs[k])
    requires forall t :: At(History(Initial(now, wait, capacity, operators), hs), t) == Ended
    ensures var w := History(Initial(now, wait, capacity, operators), hs); w.free == {} || w.q.receipt == []
  {
    hide Possible, History, Attended, Leaves;
    AttendedAlwaysIff(now, wait, capacity, operators, hs);
    assert hs[..|hs|] == hs;
    IdleIff(Before(Initial(now, wait, capacity, operators), hs, |hs|));
  }

  // ---------------------------------------------------------------------------------------------
  // A history in which an operator is idle while a call waits until it is refused
  // ---------------------------------------------------------------------------------------------

  const Pair := Initial(0, 1, 10, {0, 1})

  /** One more happening of the history. */
  lemma Next(w: World, hs: seq<Happening>, h: Happening) returns (w2: World, hs2: seq<Happening>)
    requires Leads(Pair, hs, w) && NeverResized(hs) && Enabled(w, h) && !h.Resized?
    ensures Leads(Pair, hs2, w2) && NeverResized(hs2) && w2 == Happen(w, h) && hs2 == hs + [h]
  {
    hide Happen, Enabled, Leads, NeverResized;
    hs2, w2 := hs + [h], Happen(w, h);
    LeadsOn(Pair, hs, w, h);
  }

  /** Nothing with a number from `t` on has appeared yet. */
  ghost predicate Unused(w: World, t: nat) { forall u :: u >= t ==> u !in w.threads && u !in w.records }

  ghost predicate Stands(w: World, free: set<nat>, waiting: seq<Call>, entered: map<string, Call>, tasks: seq<int>) {
    && w.now == 0 && w.wait == 1 && w.operators == {0, 1} && w.free == free && w.tasks == tasks
    && w.q.receipt == waiting && w.q.timeouts == waiting && w.q.processing == entered
  }

  /** Other threads stand where they stood, and other records are what they were. */
  ghost predicate Elsewhere(w: World, w2: World, t: nat) {
    forall u :: u != t ==> At(w2, u) == At(w, u) && Record(w2, u) == Record(w, u)
  }

  function Pick(w: World): nat { if 0 in w.free then 0 else 1 }

  function ArrivedRecord(t: nat, phone: string): Cdr { NewRecord(t, phone, 1).Arrive(0) }

  lemma Arrives(w: World, hs: seq<Happening>, t: nat, phone: string, free: set<nat>, entered: map<string, Call>)
    returns (w2: World, hs2: seq<Happening>)
    requires Leads(Pair, hs, w) && NeverResized(hs) && Unused(w, t) && Stands(w, free, [], entered, [])
      && free <= {0, 1}
    ensures Leads(Pair, hs2, w2) && NeverResized(hs2) && Unused(w2, t + 1) && Stands(w2, free, [], entered, [])
    ensures At(w2, t) == CountArrival(t) && Record(w2, t) == ArrivedRecord(t, phone) && Elsewhere(w, w2, t)
  {
    hide Leads, NeverResized, RejectSteps, StartSteps, IterationSteps, FinishSteps, Queue.Push;
    hide Queue.InsertToProcessing;
    w2, hs2 := Next(w, hs, Pushed(t, t, phone));
    w2, hs2 := Next(w2, hs2, Stepped(t, Choice(Pick(w2), 0, 0)));
  }

  /** It finds nobody waiting. */
  lemma Tries(w: World, hs: seq<Happening>, t: nat, free: set<nat>, entered: map<string, Call>)
    returns (w2: World, hs2: seq<Happening>)
    requires Leads(Pair, hs, w) && NeverResized(hs) && Unused(w, t + 1) && Stands(w, free, [], entered, [])
    requires At(w, t) == CountArrival(t) && free <= {0, 1}
    ensures Leads(Pair, hs2, w2) && NeverResized(hs2) && Unused(w2, t + 1) && Stands(w2, free, [], entered, [])
    ensures At(w2, t) == TakeForBypass(t) && Record(w2, t) == Record(w, t) && Elsewhere(w, w2, t)
  {
    hide Leads, NeverResized, RejectSteps, StartSteps, IterationSteps, FinishSteps, Queue.Push;
    hide Queue.InsertToProcessing;
    w2, hs2 := Next(w, hs, Stepped(t, Choice(Pick(w), 0, 0)));
    w2, hs2 := Next(w2, hs2, Stepped(t, Choice(Pick(w2), 0, 0)));
  }

  /** It takes operator `op` if one is free. */
  lemma Takes(w: World, hs: seq<Happening>, t: nat, op: nat, free: set<nat>, entered: map<string, Call>)
    returns (w2: World, hs2: seq<Happening>)
    requires Leads(Pair, hs, w) && NeverResized(hs) && Unused(w, t + 1) && Stands(w, free, [], entered, [])
    requires At(w, t) == TakeForBypass(t) && (free == {} || op in free)
    ensures Leads(Pair, hs2, w2) && NeverResized(hs2) && Unused(w2, t + 1) && Stands(w2, free - {op}, [], entered, [])
    ensures At(w2, t) == if op in free then EnterBypassing(t, op) else PushToQueue(t)
    ensures Record(w2, t) == Record(w, t) && Elsewhere(w, w2, t)
  {
    hide Leads, NeverResized, RejectSteps, StartSteps, IterationSteps, FinishSteps, Queue.Push;
    hide Queue.InsertToProcessing;
    w2, hs2 := Next(w, hs, Stepped(t, Choice(op, 0, 0)));
  }

  const Entered := map["1" := Call(0, "1", 0, 1)]

  /** The first call is answered by operator 0. */
  lemma FirstAnswered() returns (w: World, hs: seq<Happening>)
    ensures Leads(Pair, hs, w) && NeverResized(hs) && Unused(w, 1) && Stands(w, {1}, [], Entered, [])
    ensures At(w, 0) == Answer(0, 0)
  {
    hide Leads, NeverResized, RejectSteps, StartSteps, IterationSteps, FinishSteps, Queue.Push, Run, Happen, History;
    w, hs := NothingYet();
    w, hs := Arrives(w, hs, 0, "1", {0, 1}, map[]);
    w, hs := Tries(w, hs, 0, {0, 1}, map[]);
    w, hs := Takes(w, hs, 0, 0, {0, 1}, map[]);
    w, hs := Enters(w, hs);
  }

  lemma NothingYet() returns (w: World, hs: seq<Happening>)
    ensures Leads(Pair, hs, w) && NeverResized(hs) && Unused(w, 0) && Stands(w, {0, 1}, [], map[], [])
  {
    w, hs := Pair, [];
  }

  lemma Enters(w: World, hs: seq<Happening>) returns (w2: World, hs2: seq<Happening>)
    requires Leads(Pair, hs, w) && NeverResized(hs) && Unused(w, 1) && Stands(w, {1}, [], map[], [])
    requires At(w, 0) == EnterBypassing(0, 0) && Record(w, 0) == ArrivedRecord(0, "1")
    ensures Leads(Pair, hs2, w2) && NeverResized(hs2) && Unused(w2, 1) && Stands(w2, {1}, [], Entered, [])
    ensures At(w2, 0) == Answer(0, 0)
  {
    hide Leads, NeverResized, RejectSteps, StartSteps, IterationSteps, FinishSteps, Queue.Push;
    w2, hs2 := Next(w, hs, Stepped(0, Choice(1, 0, 0)));
  }

  /** Its service begins, and will last longer than anyone waits. */
  lemma FirstServed(w: World, hs: seq<Happening>) returns (w2: World, hs2: seq<Happening>)
    requires Leads(Pair, hs, w) && NeverResized(hs) && Unused(w, 1) && Stands(w, {1}, [], Entered, [])
    requires At(w, 0) == Answer(0, 0)
    ensures Leads(Pair, hs2, w2) && NeverResized(hs2) && Unused(w2, 1) && Stands(w2, {1}, [], Entered, [])
    ensures At(w2, 0) == Ended
  {
    hide Leads, NeverResized, Run, Happen, At, Stands, Unused;
    w2, hs2 := ServiceStep(w, hs);
    w2, hs2 := ServiceStep(w2, hs2);
    w2, hs2 := ServiceStep(w2, hs2);
    w2, hs2 := ServiceStep(w2, hs2);
  }

  lemma ServiceStep(w: World, hs: seq<Happening>) returns (w2: World, hs2: seq<Happening>)
    requires Leads(Pair, hs, w) && NeverResized(hs) && Unused(w, 1) && Stands(w, {1}, [], Entered, [])
    requires var pc := At(w, 0);
      pc == Answer(0, 0) || pc == CountStart(0, 0) || pc == TurnBusy(0, 0) || pc == PostFinish(0, 0)
    ensures Leads(Pair, hs2, w2) && NeverResized(hs2) && Unused(w2, 1) && Stands(w2, {1}, [], Entered, [])
    ensures At(w, 0) == Answer(0, 0) ==> At(w2, 0) == CountStart(0, 0)
    ensures At(w, 0) == CountStart(0, 0) ==> At(w2, 0) == TurnBusy(0, 0)
    ensures At(w, 0) == TurnBusy(0, 0) ==> At(w2, 0) == PostFinish(0, 0)
    ensures At(w, 0) == PostFinish(0, 0) ==> At(w2, 0) == Ended
  {
    hide Leads, NeverResized, RejectSteps, PushSteps, IterationSteps, FinishSteps;
    w2, hs2 := Next(w, hs, Stepped(0, Choice(1, 10, 0)));
  }

  /** A call with its number takes operator 1 and finds the number entered. */
  lemma SecondHolds(w: World, hs: seq<Happening>) returns (w2: World, hs2: seq<Happening>)
    requires Leads(Pair, hs, w) && NeverResized(hs) && Unused(w, 1) && Stands(w, {1}, [], Entered, [])
    requires At(w, 0) == Ended
    ensures Leads(Pair, hs2, w2) && NeverResized(hs2) && Unused(w2, 2) && Stands(w2, {}, [], Entered, [])
    ensures At(w2, 0) == Ended && At(w2, 1) == ReturnBypass(1, 1) && Record(w2, 1) == ArrivedRecord(1, "1")
  {
    hide Leads, NeverResized, Run, Happen, At, Record, ArrivedRecord;
    w2, hs2 := Arrives(w, hs, 1, "1", {1}, Entered);
    w2, hs2 := Tries(w2, hs2, 1, {1}, Entered);
    w2, hs2 := Takes(w2, hs2, 1, 1, {1}, Entered);
    assert {1} - {1} == {};
    w2, hs2 := FindsEntered(w2, hs2);
  }

  lemma FindsEntered(w: World, hs: seq<Happening>) returns (w2: World, hs2: seq<Happening>)
    requires Leads(Pair, hs, w) && NeverResized(hs) && Unused(w, 2) && Stands(w, {}, [], Entered, [])
    requires At(w, 0) == Ended && At(w, 1) == EnterBypassing(1, 1) && Record(w, 1) == ArrivedRecord(1, "1")
    ensures Leads(Pair, hs2, w2) && NeverResized(hs2) && Unused(w2, 2) && Stands(w2, {}, [], Entered, [])
    ensures At(w2, 0) == Ended && At(w2, 1) == ReturnBypass(1, 1) && Record(w2, 1) == ArrivedRecord(1, "1")
  {
    hide Leads, NeverResized, RejectSteps, StartSteps, IterationSteps, FinishSteps, Queue.Push;
    w2, hs2 := Next(w, hs, Stepped(1, Choice(0, 0, 0)));
  }

  const Waiter := Call(2, "2", 0, 1)

  /** A third call finds nobody waiting and no operator free, and stands before the queue. */
  lemma ThirdAsks(w: World, hs: seq<Happening>) returns (w2: World, hs2: seq<Happening>)
    requires Leads(Pair, hs, w) && NeverResized(hs) && Unused(w, 2) && Stands(w, {}, [], Entered, [])
    requires At(w, 0) == Ended && At(w, 1) == ReturnBypass(1, 1) && Record(w, 1) == ArrivedRecord(1, "1")
    ensures Leads(Pair, hs2, w2) && NeverResized(hs2) && Unused(w2, 3) && Stands(w2, {}, [], Entered, [])
    ensures At(w2, 0) == Ended && At(w2, 1) == ReturnBypass(1, 1) && Record(w2, 1) == ArrivedRecord(1, "1")
    ensures At(w2, 2) == PushToQueue(2) && Record(w2, 2) == ArrivedRecord(2, "2")
  {
    hide Leads, NeverResized, Run, Happen, At, Record, ArrivedRecord;
    w2, hs2 := Arrives(w, hs, 2, "2", {}, Entered);
    w2, hs2 := Tries(w2, hs2, 2, {}, Entered);
    w2, hs2 := Takes(w2, hs2, 2, 1, {}, Entered);
    assert {} - {1} == {};
  }

  /** It is let in, and its thread turns into an iteration. */
  lemma ThirdWaits(w: World, hs: seq<Happening>) returns (w2: World, hs2: seq<Happening>)
    requires Leads(Pair, hs, w) && NeverResized(hs) && Unused(w, 3) && Stands(w, {}, [], Entered, [])
    requires At(w, 2) == PushToQueue(2) && Record(w, 2) == ArrivedRecord(2, "2")
    ensures Leads(Pair, hs2, w2) && NeverResized(hs2) && Unused(w2, 3) && Stands(w2, {}, [Waiter], Entered, [])
    ensures At(w2, 2) == CheckQueue && Record(w2, 2) == ArrivedRecord(2, "2") && Elsewhere(w, w2, 2)
  {
    hide Leads, NeverResized, RejectSteps, StartSteps, IterationSteps, FinishSteps, Queue.Push;
    PushedAlone(w.q);
    w2, hs2 := Next(w, hs, Stepped(2, Choice(0, 0, 10)));
  }

  lemma PushedAlone(q: Queue)
    requires q.receipt == [] && q.timeouts == [] && q.processing == Entered
    ensures q.Push(Waiter, 10) == (Accepted, Queue([Waiter], [Waiter], Entered, 10))
  {
    assert "2"[0] != "1"[0] && !q.Contains(Waiter);
    assert Emplace(ReceiptOrder, [], Waiter) == [Waiter] && Emplace(TimeoutPointOrder, [], Waiter) == [Waiter];
  }

  /** It finds no call expired and no operator free. */
  lemma ThirdLooks(w: World, hs: seq<Happening>) returns (w2: World, hs2: seq<Happening>)
    requires Leads(Pair, hs, w) && NeverResized(hs) && Unused(w, 3) && Stands(w, {}, [Waiter], Entered, [])
    requires At(w, 2) == CheckQueue && Record(w, 2) == ArrivedRecord(2, "2")
    ensures Leads(Pair, hs2, w2) && NeverResized(hs2) && Unused(w2, 3) && Stands(w2, {}, [Waiter], Entered, [])
    ensures At(w2, 2) == EraseExpired && Record(w2, 2) == ArrivedRecord(2, "2") && Elsewhere(w, w2, 2)
  {
    hide Leads, NeverResized, RejectSteps, StartSteps, PushSteps, FinishSteps, Queue.Pop, Queue.InsertToProcessing;
    w2, hs2 := Next(w, hs, Stepped(2, Choice(0, 0, 0)));
  }

  lemma ThirdErases(w: World, hs: seq<Happening>) returns (w2: World, hs2: seq<Happening>)
    requires Leads(Pair, hs, w) && NeverResized(hs) && Unused(w, 3) && Stands(w, {}, [Waiter], Entered, [])
    requires At(w, 2) == EraseExpired && Record(w, 2) == ArrivedRecord(2, "2")
    ensures Leads(Pair, hs2, w2) && NeverResized(hs2) && Unused(w2, 3) && Stands(w2, {}, [Waiter], Entered, [])
    ensures At(w2, 2) == TakeForQueue && Record(w2, 2) == ArrivedRecord(2, "2") && Elsewhere(w, w2, 2)
  {
    hide Leads, NeverResized, RejectSteps, StartSteps, PushSteps, FinishSteps, Queue.Pop, Queue.InsertToProcessing;
    hide Queue.Erase;
    w2, hs2 := Next(w, hs, Stepped(2, Choice(0, 0, 0)));
  }

  lemma ThirdFinds(w: World, hs: seq<Happening>) returns (w2: World, hs2: seq<Happening>)
    requires Leads(Pair, hs, w) && NeverResized(hs) && Unused(w, 3) && Stands(w, {}, [Waiter], Entered, [])
    requires At(w, 2) == TakeForQueue && Record(w, 2) == ArrivedRecord(2, "2")
    ensures Leads(Pair, hs2, w2) && NeverResized(hs2) && Unused(w2, 3) && Stands(w2, {}, [Waiter], Entered, [])
    ensures At(w2, 2) == FindNext && Record(w2, 2) == ArrivedRecord(2, "2") && Elsewhere(w, w2, 2)
  {
    hide Leads, NeverResized, RejectSteps, StartSteps, PushSteps, FinishSteps, Queue.Pop, Queue.InsertToProcessing;
    w2, hs2 := Next(w, hs, Stepped(2, Choice(0, 0, 0)));
  }

  lemma ThirdPlans(w: World, hs: seq<Happening>) returns (w2: World, hs2: seq<Happening>)
    requires Leads(Pair, hs, w) && NeverResized(hs) && Unused(w, 3) && Stands(w, {}, [Waiter], Entered, [])
    requires At(w, 2) == FindNext && Record(w, 2) == ArrivedRecord(2, "2")
    ensures Leads(Pair, hs2, w2) && NeverResized(hs2) && Unused(w2, 3) && Stands(w2, {}, [Waiter], Entered, [])
    ensures At(w2, 2) == PostNext(1000) && Record(w2, 2) == ArrivedRecord(2, "2") && Elsewhere(w, w2, 2)
  {
    hide Leads, NeverResized, RejectSteps, StartSteps, PushSteps, FinishSteps, Queue.Pop, Queue.InsertToProcessing;
    w2, hs2 := Next(w, hs, Stepped(2, Choice(0, 0, 0)));
  }

  /** It posts the next iteration for the timeout point. */
  lemma ThirdPosts(w: World, hs: seq<Happening>) returns (w2: World, hs2: seq<Happening>)
    requires Leads(Pair, hs, w) && NeverResized(hs) && Unused(w, 3) && Stands(w, {}, [Waiter], Entered, [])
    requires At(w, 2) == PostNext(1000) && Record(w, 2) == ArrivedRecord(2, "2")
    ensures Leads(Pair, hs2, w2) && NeverResized(hs2) && Unused(w2, 3) && Stands(w2, {}, [Waiter], Entered, [1000])
    ensures At(w2, 2) == Ended && Record(w2, 2) == ArrivedRecord(2, "2") && Elsewhere(w, w2, 2)
  {
    hide Leads, NeverResized, RejectSteps, StartSteps, PushSteps, FinishSteps, Queue.Pop, Queue.InsertToProcessing;
    w2, hs2 := Next(w, hs, Stepped(2, Choice(0, 0, 0)));
  }

  /** The second call gives operator 1 up without a look at the queue. */
  lemma SecondGivesUp(w: World, hs: seq<Happening>) returns (w2: World, hs2: seq<Happening>)
    requires Leads(Pair, hs, w) && NeverResized(hs) && Unused(w, 3) && Stands(w, {}, [Waiter], Entered, [1000])
    requires At(w, 1) == ReturnBypass(1, 1) && Record(w, 1) == ArrivedRecord(1, "1")
    ensures Leads(Pair, hs2, w2) && NeverResized(hs2) && Unused(w2, 3) && Stands(w2, {1}, [Waiter], Entered, [1000])
    ensures At(w2, 1) == PushToQueue(1) && Record(w2, 1) == ArrivedRecord(1, "1") && Elsewhere(w, w2, 1)
  {
    hide Leads, NeverResized, RejectSteps, StartSteps, IterationSteps, FinishSteps, Queue.Push;
    hide Queue.InsertToProcessing;
    w2, hs2 := Next(w, hs, Stepped(1, Choice(0, 0, 0)));
    assert {} + {1} == {1};
    assert w2.free == {1} && w2.tasks == [1000] && w2.q == w.q;
  }

  lemma SecondRefused(w: World, hs: seq<Happening>) returns (w2: World, hs2: seq<Happening>)
    requires Leads(Pair, hs, w) && NeverResized(hs) && Unused(w, 3) && Stands(w, {1}, [Waiter], Entered, [1000])
    requires At(w, 1) == PushToQueue(1) && Record(w, 1) == ArrivedRecord(1, "1")
    ensures Leads(Pair, hs2, w2) && NeverResized(hs2) && Unused(w2, 3) && Stands(w2, {1}, [Waiter], Entered, [1000])
    ensures At(w2, 1) == Refuse(1, AlreadyInQueue, false) && 1 in w2.records && Elsewhere(w, w2, 1)
  {
    hide Leads, NeverResized, RejectSteps, StartSteps, IterationSteps, FinishSteps, Queue.Insert;
    w2, hs2 := Next(w, hs, Stepped(1, Choice(1, 0, 10)));
  }

  lemma RefusalStep(w: World, hs: seq<Happening>) returns (w2: World, hs2: seq<Happening>)
    requires Leads(Pair, hs, w) && NeverResized(hs) && Unused(w, 3) && Stands(w, {1}, [Waiter], Entered, [1000])
    requires 1 in w.records && (At(w, 1).Refuse? || At(w, 1).CountRefusal? || At(w, 1).CountDropout? || At(w,
      1).LogRefusal?)
    requires HeldCall(At(w, 1)) == Some(1) && !At(w, 1).looping
    ensures Leads(Pair, hs2, w2) && NeverResized(hs2) && Unused(w2, 3) && Stands(w2, {1}, [Waiter], Entered, [1000])
    ensures 1 in w2.records && Elsewhere(w, w2, 1)
    ensures At(w, 1).Refuse? ==> At(w2, 1) == CountRefusal(1, false)
    ensures At(w, 1).CountRefusal? ==> At(w2, 1) == CountDropout(1, false)
    ensures At(w, 1).CountDropout? ==> At(w2, 1) == LogRefusal(1, false)
    ensures At(w, 1).LogRefusal? ==> At(w2, 1) == Ended
  {
    hide Leads, NeverResized, PushSteps, StartSteps, IterationSteps, FinishSteps;
    w2, hs2 := Next(w, hs, Stepped(1, Choice(1, 0, 10)));
  }

  lemma SecondEnds(w: World, hs: seq<Happening>) returns (w2: World, hs2: seq<Happening>)
    requires Leads(Pair, hs, w) && NeverResized(hs) && Unused(w, 3) && Stands(w, {}, [Waiter], Entered, [1000])
    requires At(w, 1) == ReturnBypass(1, 1) && Record(w, 1) == ArrivedRecord(1, "1")
    ensures Leads(Pair, hs2, w2) && NeverResized(hs2) && Unused(w2, 3) && Stands(w2, {1}, [Waiter], Entered, [1000])
    ensures At(w2, 1) == Ended && Elsewhere(w, w2, 1)
  {
    hide Leads, NeverResized, Run, Happen, At, Stands, Unused, Record;
    w2, hs2 := SecondGivesUp(w, hs);
    w2, hs2 := SecondRefused(w2, hs2);
    w2, hs2 := RefusalStep(w2, hs2);
    w2, hs2 := RefusalStep(w2, hs2);
    w2, hs2 := RefusalStep(w2, hs2);
    w2, hs2 := RefusalStep(w2, hs2);
  }

  /** No thread is at work, operator 1 is free and the third call waits. */
  lemma IdleBesideWaiter() returns (w: World, hs: seq<Happening>)
    ensures Leads(Pair, hs, w) && NeverResized(hs) && Unused(w, 3) && Stands(w, {1}, [Waiter], Entered, [1000])
    ensures At(w, 0) == At(w, 1) == At(w, 2) == Ended && Record(w, 2) == ArrivedRecord(2, "2")
  {
    hide Leads, NeverResized, Run, Happen, At, Stands, Unused, Record, ArrivedRecord;
    w, hs := FirstAnswered();
    w, hs := FirstServed(w, hs);
    w, hs := SecondHolds(w, hs);
    w, hs := ThirdAsks(w, hs);
    w, hs := ThirdWaits(w, hs);
    w, hs := ThirdLooks(w, hs);
    w, hs := ThirdErases(w, hs);
    w, hs := ThirdFinds(w, hs);
    w, hs := ThirdPlans(w, hs);
    w, hs := ThirdPosts(w, hs);
    w, hs := SecondEnds(w, hs);
  }

  /** The third call waits out its time beside the free operator. */
  ghost predicate TimeIsUp(w: World) {
    && w.now == 1000 && w.free == {1} && w.q.receipt == [Waiter] && w.q.timeouts == [Waiter]
    && Record(w, 2) == ArrivedRecord(2, "2")
  }

  lemma IterationComes(w: World, hs: seq<Happening>) returns (w2: World, hs2: seq<Happening>)
    requires Leads(Pair, hs, w) && NeverResized(hs) && Unused(w, 3) && Stands(w, {1}, [Waiter], Entered, [1000])
    requires Record(w, 2) == ArrivedRecord(2, "2")
    ensures Leads(Pair, hs2, w2) && NeverResized(hs2) && At(w2, 3) == CheckQueue && TimeIsUp(w2)
    ensures hs2 == hs + [Ticked(1000), IterationDue(3, 0)]
  {
    hide Leads, NeverResized, Run;
    w2, hs2 := Next(w, hs, Ticked(1000));
    w2, hs2 := Next(w2, hs2, IterationDue(3, 0));
  }

  lemma IterationErases(w: World, hs: seq<Happening>) returns (w2: World, hs2: seq<Happening>)
    requires Leads(Pair, hs, w) && NeverResized(hs) && At(w, 3) == CheckQueue && TimeIsUp(w)
    ensures Leads(Pair, hs2, w2) && NeverResized(hs2) && At(w2, 3) == Refuse(2, Timeout, true) && w2.free == {1}
    ensures Record(w2, 2) == ArrivedRecord(2, "2")
    ensures hs2 == hs + [Stepped(3, Choice(1, 0, 0)), Stepped(3, Choice(1, 0, 0))]
  {
    hide Leads, NeverResized, RejectSteps, StartSteps, PushSteps, FinishSteps, Queue.Pop, Queue.InsertToProcessing;
    hide Queue.Erase;
    w2, hs2 := Next(w, hs, Stepped(3, Choice(1, 0, 0)));
    w2, hs2 := Next(w2, hs2, Stepped(3, Choice(1, 0, 0)));
  }

  lemma IterationRefuses(w: World, hs: seq<Happening>) returns (w2: World, hs2: seq<Happening>)
    requires Leads(Pair, hs, w) && NeverResized(hs) && At(w, 3) == Refuse(2, Timeout, true) && w.free == {1}
    requires Record(w, 2) == ArrivedRecord(2, "2")
    ensures Leads(Pair, hs2, w2) && NeverResized(hs2) && w2.free == {1}
    ensures 2 in w2.records && w2.records[2].status == Some(Timeout)
    ensures hs2 == hs + [Stepped(3, Choice(1, 0, 0))]
  {
    hide Leads, NeverResized, PushSteps, StartSteps, IterationSteps, FinishSteps;
    w2, hs2 := Next(w, hs, Stepped(3, Choice(1, 0, 0)));
  }

  /**
   Without any resizing: a thread gives an operator up, and then no thread is at work, the operator is free, a call
   waits and nothing is to happen to either before the call is refused for having waited too long.
   */
  lemma OperatorIdles() returns (before: seq<Happening>, after: seq<Happening>)
    ensures Possible(Pair, before + after) && NeverResized(before + after) && |after| == 5
    ensures
      var w := History(Pair, before);
      && (forall t :: At(w, t) == Ended) && 1 in w.free && (exists d :: d in w.q.receipt && d.id == 2)
      && (forall due :: due in w.tasks ==> due == 1000)
    ensures after[0] == Ticked(1000)
    ensures
      var w := History(Pair, before + after);
      1 in w.free && 2 in w.records && w.records[2].status == Some(Timeout)
  {
    hide Run, Happen, NeverResized, Possible, History, ArrivedRecord;
    var w, hs := IdleBesideWaiter();
    before := hs;
    assert forall t :: At(w, t) == Ended by { AllEnded(w); }
    assert Waiter in w.q.receipt;
    after := [Ticked(1000), IterationDue(3, 0), Stepped(3, Choice(1, 0, 0)), Stepped(3, Choice(1, 0, 0)),
              Stepped(3, Choice(1, 0, 0))];
    w, hs := IterationComes(w, hs);
    w, hs := IterationErases(w, hs);
    w, hs := IterationRefuses(w, hs);
    assert hs == before + after;
  }

  lemma AllEnded(w: World)
    requires Unused(w, 3) && At(w, 0) == At(w, 1) == At(w, 2) == Ended
    ensures forall t :: At(w, t) == Ended
  {
    forall t: nat ensures At(w, t) == Ended { if t >= 3 { assert t !in w.threads; } }
  }
}
