/** Why a call has the status it has, in every interleaving: the step that decided on it is found in the history. */
module Verdicts {
  import opened Options
  import opened CallDetailedRecords
  import opened CallQueues
  import opened Interleavings
  import opened Ownership
  import opened InterleavingSafety

  // ---------------------------------------------------------------------------------------------
  // The steps that decide on a call
  // ---------------------------------------------------------------------------------------------

  /** The thread that pushes the call asks the queue. */
  predicate Asks(w: World, h: Happening, c: nat) { h.Stepped? && At(w, h.t) == PushToQueue(c) }

  /** The number of the call is entered, or a call with it waits from the same millisecond. */
  ghost predicate Known(w: World, c: nat) {
    var r := Record(w, c);
    r.phone in w.q.processing || exists d :: d in w.q.receipt && d.phone == r.phone && r.arrival == Some(d.arrival)
  }

  ghost predicate FoundKnown(w: World, h: Happening, c: nat) { Asks(w, h, c) && Known(w, c) }

  /** As many calls wait as the capacity just read. */
  ghost predicate FoundFull(w: World, h: Happening, c: nat) {
    Asks(w, h, c) && !Known(w, c) && |w.q.receipt| >= h.ch.capacity
  }

  /** The call has reached its timeout point and an iteration takes it out of the queue for that. */
  ghost predicate FoundExpired(w: World, h: Happening, c: nat) {
    && h.Stepped? && At(w, h.t) == EraseExpired
    && exists d :: d in w.q.receipt && d.id == c && d.Timeout() <= w.now && d !in Happen(w, h).q.receipt
  }

  predicate IsAnswered(w: World, h: Happening, c: nat) {
    h.Stepped? && At(w, h.t).Answer? && At(w, h.t).c == c
  }

  /** What a happening decides on a call. */
  ghost function Decision(w: World, h: Happening, c: nat): seq<CallStatus> {
    if FoundKnown(w, h, c) then [AlreadyInQueue]
    else if FoundFull(w, h, c) then [Overload]
    else if FoundExpired(w, h, c) then [Timeout]
    else if IsAnswered(w, h, c) then [Ok]
    else []
  }

  ghost function Decisions(w0: World, hs: seq<Happening>, c: nat): seq<CallStatus> {
    if hs == [] then []
    else
      var m := |hs| - 1;
      Decisions(w0, hs[..m], c) + Decision(History(w0, hs[..m]), hs[m], c)
  }

  // ---------------------------------------------------------------------------------------------
  // Where a decision shows
  // ---------------------------------------------------------------------------------------------

  /** What a record shows of the decision on its call. */
  function Written(r: Cdr): seq<CallStatus> {
    if r.WasFinished() then [r.status.value] else if r.start.Some? then [Ok] else []
  }

  predicate Refusing(pc: Pc, c: nat) { pc.Refuse? && pc.c == c }

  /** A decision shows in the thread that is about to write it, or in the record. */
  ghost predicate Shows(w: World, c: nat, vs: seq<CallStatus>) {
    && (forall t :: Refusing(At(w, t), c) ==> vs == [At(w, t).reason])
    && ((forall t :: !Refusing(At(w, t), c)) ==> vs == Written(Record(w, c)))
  }

  lemma Stays(w: World, w2: World, t: nat, pc: Pc, c: nat, vs: seq<CallStatus>)
    requires Shows(w, c, vs) && Moves(w, w2, t, pc) && !Refusing(At(w, t), c) && !Refusing(pc, c)
    requires Written(Record(w2, c)) == Written(Record(w, c))
    ensures Shows(w2, c, vs)
  {
    hide At, Moves, Written, Record;
    Others(w, w2, t, pc);
    forall u | Refusing(At(w2, u), c) ensures vs == [At(w2, u).reason] { assert At(w2, u) == At(w, u); }
    if forall u :: !Refusing(At(w2, u), c) {
      forall u ensures !Refusing(At(w, u), c) { assert u != t ==> At(w2, u) == At(w, u); }
    }
  }

  /** The thread is about to refuse a call on which nothing had been decided. */
  lemma Turns(w: World, w2: World, t: nat, pc: Pc, c: nat, vs: seq<CallStatus>)
    requires Shows(w, c, vs) && Moves(w, w2, t, pc) && Refusing(pc, c)
    requires (forall u :: !Refusing(At(w, u), c)) && Written(Record(w, c)) == []
    ensures Shows(w2, c, vs + [pc.reason])
  {
    hide At, Moves, Written, Record;
    Others(w, w2, t, pc);
    assert Refusing(At(w2, t), c);
    forall u | Refusing(At(w2, u), c) ensures u == t { assert u != t ==> At(w2, u) == At(w, u); }
  }

  /** The thread writes what was decided. */
  lemma Writes(w: World, w2: World, t: nat, pc: Pc, c: nat, vs: seq<CallStatus>)
    requires Shows(w, c, vs) && Moves(w, w2, t, pc) && Refusing(At(w, t), c) && !Refusing(pc, c)
    requires (forall u :: u != t ==> !Refusing(At(w, u), c)) && Written(Record(w2, c)) == [At(w, t).reason]
    ensures Shows(w2, c, vs)
  {
    hide At, Moves, Written, Record;
    Others(w, w2, t, pc);
    forall u ensures !Refusing(At(w2, u), c) { assert u != t ==> At(w2, u) == At(w, u); }
  }

  lemma Starts(w: World, w2: World, t: nat, pc: Pc, c: nat, vs: seq<CallStatus>)
    requires Shows(w, c, vs) && Moves(w, w2, t, pc) && !Refusing(pc, c)
    requires (forall u :: !Refusing(At(w, u), c)) && Written(Record(w, c)) == [] && Written(Record(w2, c)) == [Ok]
    ensures Shows(w2, c, vs + [Ok])
  {
    hide At, Moves, Written, Record;
    Others(w, w2, t, pc);
    forall u ensures !Refusing(At(w2, u), c) { assert u != t ==> At(w2, u) == At(w, u); }
  }

  lemma AloneWith(w: World, calls: map<nat, CallPlace>, t: nat, c: nat)
    requires InHands(w, calls) && HeldCall(At(w, t)) == Some(c)
    ensures forall u :: u != t ==> !Refusing(At(w, u), c)
  {
    hide At;
    forall u | u != t ensures !Refusing(At(w, u), c) {
      assert Refusing(At(w, u), c) ==> HeldCall(At(w, u)) == Some(c);
    }
  }

  lemma QueuedUndecided(w: World, l: Ledger, d: Call)
    requires Tied(w, l) && d in w.q.receipt
    ensures (forall u :: !Refusing(At(w, u), d.id)) && Written(Record(w, d.id)) == []
  {
    hide At, OperatorsTied, CountersFit, NumbersOwned, NotifiedOnce, NoneStranded, Agrees;
    QueuedHolds(w, l.calls, d);
    forall u ensures !Refusing(At(w, u), d.id) {
      assert Refusing(At(w, u), d.id) ==> HeldCall(At(w, u)) == Some(d.id);
    }
  }

  /** What the steps below need of the invariant about the call in hand. */
  lemma InHandAlone(w: World, l: Ledger, t: nat, c: nat)
    requires Tied(w, l) && HeldCall(At(w, t)) == Some(c)
    ensures (forall u :: u != t ==> !Refusing(At(w, u), c)) && c in w.records
    ensures ShowsStage(StageOf(At(w, t)), w.records[c]) && w.records[c].id == c && w.records[c].Valid()
  {
    hide OperatorsTied, CountersFit, NumbersOwned, NotifiedOnce, NoneStranded, Agrees, HeldCall, At, StageOf;
    hide ShowsStage;
    hide Cdr.Valid;
    HandHolds(w, l.calls, t, c);
    AloneWith(w, l.calls, t, c);
  }

  // ---------------------------------------------------------------------------------------------
  // The steps one by one
  // ---------------------------------------------------------------------------------------------

  lemma PushShows(w: World, t: nat, ch: Choice, c: nat, vs: seq<CallStatus>)
    requires Shows(w, c, vs) && t in w.threads && !w.threads[t].PushToQueue?
    requires var pc := w.threads[t];
      pc.SetArrival? || pc.CountArrival? || pc.TryBypass? || pc.TakeForBypass? || pc.EnterBypassing? || pc.ReturnBypass?
    ensures Shows(PushSteps(w, t, ch), c, vs)
  {
    hide Shows, Queue.InsertToProcessing, Queue.Push;
    var w2 := PushSteps(w, t, ch);
    assert Written(Record(w2, c)) == Written(Record(w, c));
    Stays(w, w2, t, At(w2, t), c, vs);
  }

  /** What the queue answers is what its calls and the numbers entered call for. */
  lemma AskShows(w: World, l: Ledger, t: nat, ch: Choice, c: nat, vs: seq<CallStatus>)
    requires Tied(w, l) && Shows(w, c, vs) && t in w.threads && w.threads[t].PushToQueue?
    ensures Shows(PushSteps(w, t, ch), c, vs + Decision(w, Stepped(t, ch), c))
  {
    hide Tied, Shows, Queue.Push, Cdr.Valid;
    var w2, d := PushSteps(w, t, ch), w.threads[t].c;
    InHandAlone(w, l, t, d);
    PushAdmitsIff(w.q, CallOf(Record(w, d)), ch.capacity);
    if d != c || w.q.Push(CallOf(Record(w, d)), ch.capacity).0 == Accepted {
      Stays(w, w2, t, At(w2, t), c, vs);
      assert Decision(w, Stepped(t, ch), c) == [] && vs + [] == vs;
    } else {
      Turns(w, w2, t, At(w2, t), c, vs);
    }
  }

  lemma RejectShows(w: World, l: Ledger, t: nat, c: nat, vs: seq<CallStatus>)
    requires Tied(w, l) && Shows(w, c, vs) && t in w.threads
    requires var pc := w.threads[t]; pc.Refuse? || pc.CountRefusal? || pc.CountDropout? || pc.LogRefusal?
    ensures Shows(RejectSteps(w, t), c, vs)
  {
    hide Tied, Shows, Cdr.Valid;
    var w2 := RejectSteps(w, t);
    if Refusing(w.threads[t], c) {
      InHandAlone(w, l, t, c);
      Writes(w, w2, t, At(w2, t), c, vs);
    } else {
      Stays(w, w2, t, At(w2, t), c, vs);
    }
  }

  lemma StartShows(w: World, l: Ledger, t: nat, ch: Choice, c: nat, vs: seq<CallStatus>)
    requires Tied(w, l) && Shows(w, c, vs) && t in w.threads
    requires var pc := w.threads[t]; pc.Answer? || pc.CountStart? || pc.TurnBusy? || pc.PostFinish?
    ensures Shows(StartSteps(w, t, ch), c, vs + Decision(w, Stepped(t, ch), c))
  {
    hide Tied, Shows, Cdr.Valid;
    var w2 := StartSteps(w, t, ch);
    if w.threads[t].Answer? && w.threads[t].c == c {
      InHandAlone(w, l, t, c);
      Starts(w, w2, t, At(w2, t), c, vs);
    } else {
      Stays(w, w2, t, At(w2, t), c, vs);
      assert vs + [] == vs;
    }
  }

  lemma EraseShows(w: World, l: Ledger, t: nat, ch: Choice, c: nat, vs: seq<CallStatus>)
    requires Tied(w, l) && Shows(w, c, vs) && t in w.threads && w.threads[t] == EraseExpired
    ensures Shows(IterationSteps(w, t, ch), c, vs + Decision(w, Stepped(t, ch), c))
  {
    hide Tied, Shows, Queue.EraseTimeout, Agrees;
    var w2 := IterationSteps(w, t, ch);
    TiedAgrees(w, l);
    EraseTakesOut(w.q, w.now);
    var x := w.q.EraseTimeout(w.now).0;
    if x.Some? { EraseTimeoutMembers(w.q, w.now); }
    if x.Some? && x.value.id == c {
      QueuedUndecided(w, l, x.value);
      Turns(w, w2, t, At(w2, t), c, vs);
      assert FoundExpired(w, Stepped(t, ch), c);
    } else {
      Stays(w, w2, t, At(w2, t), c, vs);
      assert !FoundExpired(w, Stepped(t, ch), c);
      assert vs + [] == vs;
    }
  }

  lemma TiedAgrees(w: World, l: Ledger)
    requires Tied(w, l)
    ensures Agrees(w.q)
  {
    hide Agrees;
  }

  lemma IterationShows(w: World, t: nat, ch: Choice, c: nat, vs: seq<CallStatus>)
    requires Shows(w, c, vs) && t in w.threads
    requires var pc := w.threads[t];
      pc.CheckQueue? || pc.TakeForQueue? || pc.PopHead? || pc.EnterQueued? || pc.ReturnUnused? || pc.FindNext?
      || pc.PostNext?
    ensures Shows(IterationSteps(w, t, ch), c, vs)
  {
    hide Shows, Queue.Pop, Queue.EraseTimeout, Queue.InsertToProcessing, Queue.MinTimeout;
    var w2 := IterationSteps(w, t, ch);
    Stays(w, w2, t, At(w2, t), c, vs);
  }

  lemma FinishShows(w: World, l: Ledger, t: nat, c: nat, vs: seq<CallStatus>)
    requires Tied(w, l) && Shows(w, c, vs) && t in w.threads
    requires var pc := w.threads[t];
      pc.TurnFree? || pc.CompleteCall? || pc.CountComplete? || pc.LeaveProcessing? || pc.ReturnServed? || pc.LogServed?
      || pc.LookAgain?
    ensures Shows(FinishSteps(w, t), c, vs)
  {
    hide Tied, Shows, Cdr.Valid;
    var w2 := FinishSteps(w, t);
    if w.threads[t].CompleteCall? { InHandAlone(w, l, t, w.threads[t].c); }
    Stays(w, w2, t, At(w2, t), c, vs);
  }

  lemma RunShows(w: World, l: Ledger, t: nat, ch: Choice, c: nat, vs: seq<CallStatus>)
    requires Tied(w, l) && Shows(w, c, vs) && t in w.threads
    ensures Shows(Run(w, t, ch), c, vs + Decision(w, Stepped(t, ch), c))
  {
    hide Tied, Shows, PushSteps, RejectSteps, StartSteps, IterationSteps, FinishSteps;
    assert vs + [] == vs;
    match w.threads[t]
    case PushToQueue(_) => AskShows(w, l, t, ch, c, vs);
    case SetArrival(_) | CountArrival(_) | TryBypass(_) | TakeForBypass(_) => PushShows(w, t, ch, c, vs);
    case EnterBypassing(_, _) | ReturnBypass(_, _) => PushShows(w, t, ch, c, vs);
    case Refuse(_, _, _) | CountRefusal(_, _) | CountDropout(_, _) | LogRefusal(_, _) => RejectShows(w, l, t, c, vs);
    case Answer(_, _) | CountStart(_, _) | TurnBusy(_, _) | PostFinish(_, _) => StartShows(w, l, t, ch, c, vs);
    case EraseExpired => EraseShows(w, l, t, ch, c, vs);
    case CheckQueue | TakeForQueue | PopHead(_) | EnterQueued(_, _) => IterationShows(w, t, ch, c, vs);
    case ReturnUnused(_) | FindNext | PostNext(_) => IterationShows(w, t, ch, c, vs);
    case TurnFree(_, _) | CompleteCall(_, _) | CountComplete(_, _) | LeaveProcessing(_, _) =>
      FinishShows(w, l, t, c, vs);
    case ReturnServed(_, _) | LogServed(_) | LookAgain => FinishShows(w, l, t, c, vs);
    case Ended =>
  }

  lemma HappenShows(w: World, l: Ledger, h: Happening, c: nat, vs: seq<CallStatus>)
    requires Tied(w, l) && Enabled(w, h) && Shows(w, c, vs)
    ensures Shows(Happen(w, h), c, vs + Decision(w, h, c))
  {
    hide Tied, Run, Shows, Written;
    assert vs + [] == vs;
    match h
    case Stepped(t, ch) => RunShows(w, l, t, ch, c, vs);
    case Pushed(t, d, phone) => PushedShows(w, t, d, phone, c, vs);
    case IterationDue(t, i) => Stays(w, Happen(w, h), t, CheckQueue, c, vs);
    case FinishDue(t, f) => Stays(w, Happen(w, h), t, TurnFree(f.c, f.op), c, vs);
    case Resized(_, _) => SameShows(w, Happen(w, h), c, vs);
    case Ticked(_) => SameShows(w, Happen(w, h), c, vs);
  }

  lemma PushedShows(w: World, t: nat, d: nat, phone: string, c: nat, vs: seq<CallStatus>)
    requires Shows(w, c, vs) && t !in w.threads && d !in w.records
    ensures Shows(Happen(w, Pushed(t, d, phone)), c, vs)
  {
    hide Shows;
    Stays(w, Happen(w, Pushed(t, d, phone)), t, SetArrival(d), c, vs);
  }

  lemma SameShows(w: World, w2: World, c: nat, vs: seq<CallStatus>)
    requires Shows(w, c, vs) && w2.threads == w.threads && w2.records == w.records && w2.wait == w.wait
    ensures Shows(w2, c, vs)
  {
    hide Written;
    assert forall t :: At(w2, t) == At(w, t);
  }

  lemma {:induction false} HistoryShows(now: int, wait: nat, capacity: nat, operators: set<nat>, hs: seq<Happening>,
                                        c: nat)
    requires Possible(Initial(now, wait, capacity, operators), hs)
    ensures var w0 := Initial(now, wait, capacity, operators); Shows(History(w0, hs), c, Decisions(w0, hs, c))
  {
    hide Tied, Happen, Enabled, Shows, Decision;
    var w0 := Initial(now, wait, capacity, operators);
    if hs == [] {
      NothingShows(now, wait, capacity, operators, c);
    } else {
      var m := |hs| - 1;
      var l := HistoryTied(now, wait, capacity, operators, hs[..m]);
      HistoryShows(now, wait, capacity, operators, hs[..m], c);
      HappenShows(History(w0, hs[..m]), l, hs[m], c, Decisions(w0, hs[..m], c));
    }
  }

  lemma NothingShows(now: int, wait: nat, capacity: nat, operators: set<nat>, c: nat)
    ensures Shows(Initial(now, wait, capacity, operators), c, [])
  {
  }

  // ---------------------------------------------------------------------------------------------
  // The theorem
  // ---------------------------------------------------------------------------------------------

  lemma {:induction false} DecisionFound(w0: World, hs: seq<Happening>, c: nat, s: CallStatus)
    ensures s in Decisions(w0, hs, c) <==> exists k :: 0 <= k < |hs| && s in Decision(Before(w0, hs, k), hs[k], c)
  {
    hide Decision, History;
    if hs != [] {
      var m := |hs| - 1;
      DecisionFound(w0, hs[..m], c, s);
      forall k | 0 <= k < m ensures Before(w0, hs[..m], k) == Before(w0, hs, k) { assert hs[..m][..k] == hs[..k]; }
      if s in Decisions(w0, hs[..m], c) {
        var k :| 0 <= k < m && s in Decision(Before(w0, hs[..m], k), hs[..m][k], c);
        assert s in Decision(Before(w0, hs, k), hs[k], c);
      }
      if k :| 0 <= k < m && s in Decision(Before(w0, hs, k), hs[k], c) {
        assert s in Decision(Before(w0, hs[..m], k), hs[..m][k], c);
      }
    }
  }

  /**
   The status of every finished call, in every interleaving. It was refused as a duplicate if and only if its thread
   pushed it once while its number was entered or waited from the same millisecond; for overload if and only if its
   thread pushed it when that was not so and as many calls waited as the capacity then read; for waiting if and only if
   an iteration took it out of the queue with its timeout point reached; and it was served if and only if it was
   answered.
   */
  lemma StatusSaysWhy(now: int, wait: nat, capacity: nat, operators: set<nat>, hs: seq<Happening>, c: nat)
    requires Possible(Initial(now, wait, capacity, operators), hs)
    requires var w := History(Initial(now, wait, capacity, operators), hs); c in w.records && w.records[c].WasFinished()
    ensures
      var w0 := Initial(now, wait, capacity, operators);
      var status := History(w0, hs).records[c].status.value;
      && (status == AlreadyInQueue <==> exists k :: 0 <= k < |hs| && FoundKnown(Before(w0, hs, k), hs[k], c))
      && (status == Overload <==> exists k :: 0 <= k < |hs| && FoundFull(Before(w0, hs, k), hs[k], c))
      && (status == Timeout <==> exists k :: 0 <= k < |hs| && FoundExpired(Before(w0, hs, k), hs[k], c))
      && (status == Ok <==> exists k :: 0 <= k < |hs| && IsAnswered(Before(w0, hs, k), hs[k], c))
  {
    hide Possible, History, FoundKnown, FoundFull, FoundExpired, IsAnswered;
    var w0 := Initial(now, wait, capacity, operators);
    FinishedDecided(now, wait, capacity, operators, hs, c);
    DecisionFound(w0, hs, c, AlreadyInQueue);
    DecisionFound(w0, hs, c, Overload);
    DecisionFound(w0, hs, c, Timeout);
    DecisionFound(w0, hs, c, Ok);
    forall k | 0 <= k < |hs| { OneDecision(Before(w0, hs, k), hs[k], c); }
  }

  /** At most one kind of decision is taken at once. */
  lemma OneDecision(w: World, h: Happening, c: nat)
    ensures AlreadyInQueue in Decision(w, h, c) <==> FoundKnown(w, h, c)
    ensures Overload in Decision(w, h, c) <==> FoundFull(w, h, c)
    ensures Timeout in Decision(w, h, c) <==> FoundExpired(w, h, c)
    ensures Ok in Decision(w, h, c) <==> IsAnswered(w, h, c)
  {
  }

  /** No more than one decision is ever taken on a call. */
  lemma DecidedOnce(now: int, wait: nat, capacity: nat, operators: set<nat>, hs: seq<Happening>, c: nat)
    requires Possible(Initial(now, wait, capacity, operators), hs)
    ensures |Decisions(Initial(now, wait, capacity, operators), hs, c)| <= 1
  {
    hide Possible, History, Decisions, Initial;
    HistoryShows(now, wait, capacity, operators, hs, c);
    var w := History(Initial(now, wait, capacity, operators), hs);
    assert forall t :: Refusing(At(w, t), c) ==> |[At(w, t).reason]| == 1;
  }

  /** Just one was taken on a finished call. */
  lemma FinishedDecided(now: int, wait: nat, capacity: nat, operators: set<nat>, hs: seq<Happening>, c: nat)
    requires Possible(Initial(now, wait, capacity, operators), hs)
    requires var w := History(Initial(now, wait, capacity, operators), hs); c in w.records && w.records[c].WasFinished()
    ensures
      var w0 := Initial(now, wait, capacity, operators);
      Decisions(w0, hs, c) == [History(w0, hs).records[c].status.value]
  {
    hide Possible, History, Decisions, Tied, Initial, Cdr.Valid;
    var w := History(Initial(now, wait, capacity, operators), hs);
    var l := HistoryTied(now, wait, capacity, operators, hs);
    HistoryShows(now, wait, capacity, operators, hs, c);
    forall t ensures !Refusing(At(w, t), c) {
      if Refusing(At(w, t), c) { InHandAlone(w, l, t, c); }
    }
  }
}
