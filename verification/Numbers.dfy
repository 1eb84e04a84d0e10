/** Which numbers are entered as in service, in every interleaving: those that entered and were not erased since. */
module Numbers {
  import opened CallDetailedRecords
  import opened CallQueues
  import opened Interleavings
  import opened Ownership
  import opened InterleavingSafety
  import V = Verdicts

  /** A thread with a call of this number, which is neither entered nor waits from the same millisecond, enters it. */
  ghost predicate Enters(w: World, h: Happening, p: string) {
    && h.Stepped? && (At(w, h.t).EnterBypassing? || At(w, h.t).EnterQueued?)
    && Record(w, At(w, h.t).c).phone == p && !V.Known(w, At(w, h.t).c)
  }

  /** A thread whose call of this number has been served erases it. */
  ghost predicate Erases(w: World, h: Happening, p: string) {
    h.Stepped? && At(w, h.t).LeaveProcessing? && Record(w, At(w, h.t).c).phone == p
  }

  ghost predicate EnteredLast(w0: World, hs: seq<Happening>, p: string) {
    hs != [] &&
      var m := |hs| - 1;
      || Enters(History(w0, hs[..m]), hs[m], p)
      || (!Erases(History(w0, hs[..m]), hs[m], p) && EnteredLast(w0, hs[..m], p))
  }

  /** What a step does to the numbers. */
  ghost predicate Enrols(w: World, w2: World, h: Happening, p: string) {
    p in w2.q.processing <==> Enters(w, h, p) || (p in w.q.processing && !Erases(w, h, p))
  }

  lemma EnterEnrols(w: World, l: Ledger, t: nat, ch: Choice, p: string)
    requires Tied(w, l) && t in w.threads && (w.threads[t].EnterBypassing? || w.threads[t].EnterQueued?)
    ensures Enrols(w, Run(w, t, ch), Stepped(t, ch), p)
  {
    hide Tied, Cdr.Valid, V.Known, Queue.Contains;
    var c := w.threads[t].c;
    V.InHandAlone(w, l, t, c);
    Unknown(w, c);
  }

  lemma Unknown(w: World, c: nat)
    requires Record(w, c).WasArrived()
    ensures w.q.Contains(CallOf(Record(w, c))) <==> V.Known(w, c)
    ensures Record(w, c).phone in w.q.processing ==> V.Known(w, c)
  {
    PushAdmitsIff(w.q, CallOf(Record(w, c)), |w.q.receipt| + 1);
  }

  lemma PushEnrols(w: World, t: nat, ch: Choice)
    requires t in w.threads && !w.threads[t].EnterBypassing?
    ensures PushSteps(w, t, ch).q.processing == w.q.processing
  {
    hide Queue.Contains, CallOf;
  }

  lemma IterationEnrols(w: World, t: nat, ch: Choice)
    requires t in w.threads && !w.threads[t].EnterQueued?
    ensures IterationSteps(w, t, ch).q.processing == w.q.processing
  {
    hide CallOf, Queue.InsertToProcessing;
  }

  lemma FinishEnrols(w: World, t: nat, ch: Choice, p: string)
    requires t in w.threads
    requires var pc := w.threads[t];
      pc.TurnFree? || pc.CompleteCall? || pc.CountComplete? || pc.LeaveProcessing? || pc.ReturnServed? || pc.LogServed?
      || pc.LookAgain?
    ensures Enrols(w, FinishSteps(w, t), Stepped(t, ch), p)
  {
    hide V.Known, Cdr.Complete;
  }

  lemma RestEnrols(w: World, t: nat, ch: Choice)
    requires t in w.threads
    ensures RejectSteps(w, t).q == w.q && StartSteps(w, t, ch).q == w.q
  {
  }

  lemma RunEnrols(w: World, l: Ledger, t: nat, ch: Choice, p: string)
    requires Tied(w, l) && t in w.threads
    ensures Enrols(w, Run(w, t, ch), Stepped(t, ch), p)
  {
    hide Tied, PushSteps, RejectSteps, StartSteps, IterationSteps, FinishSteps, V.Known;
    match w.threads[t]
    case EnterBypassing(_, _) | EnterQueued(_, _) => EnterEnrols(w, l, t, ch, p);
    case SetArrival(_) | CountArrival(_) | TryBypass(_) | TakeForBypass(_) => PushEnrols(w, t, ch);
    case ReturnBypass(_, _) | PushToQueue(_) => PushEnrols(w, t, ch);
    case CheckQueue | EraseExpired | TakeForQueue | PopHead(_) => IterationEnrols(w, t, ch);
    case ReturnUnused(_) | FindNext | PostNext(_) => IterationEnrols(w, t, ch);
    case TurnFree(_, _) | CompleteCall(_, _) | CountComplete(_, _) => FinishEnrols(w, t, ch, p);
    case LeaveProcessing(_, _) => FinishEnrols(w, t, ch, p);
    case ReturnServed(_, _) | LogServed(_) | LookAgain => FinishEnrols(w, t, ch, p);
    case _ => RestEnrols(w, t, ch);
  }

  /**
   In every interleaving a number is entered if and only if it was entered by a thread with a call of it, which found it
   unknown, and no thread whose call of it was served has erased it since.
   */
  lemma {:induction false} NumberEnteredIff(now: int, wait: nat, capacity: nat, operators: set<nat>,
                                            hs: seq<Happening>, p: string)
    requires Possible(Initial(now, wait, capacity, operators), hs)
    ensures var w0 := Initial(now, wait, capacity, operators);
            p in History(w0, hs).q.processing <==> EnteredLast(w0, hs, p)
  {
    hide Tied, Run, Enters, Erases;
    var w0 := Initial(now, wait, capacity, operators);
    if hs != [] {
      var m := |hs| - 1;
      NumberEnteredIff(now, wait, capacity, operators, hs[..m], p);
      var l := HistoryTied(now, wait, capacity, operators, hs[..m]);
      HappenEnrols(History(w0, hs[..m]), l, hs[m], p);
    }
  }

  lemma HappenEnrols(w: World, l: Ledger, h: Happening, p: string)
    requires Tied(w, l) && Enabled(w, h)
    ensures Enrols(w, Happen(w, h), h, p)
  {
    hide Tied, Run, V.Known;
    if h.Stepped? { RunEnrols(w, l, h.t, h.ch, p); }
  }
}
