/**
 What a thread has seen, in every interleaving, before it answers a call, asks the queue or posts an iteration. What it
 saw need no longer be so; that it was so when the thread looked is all an interleaving promises.
 */
module Sights {
  import opened Options
  import opened CallDetailedRecords
  import opened CallQueues
  import opened Interleavings
  import opened Ownership
  import opened InterleavingSafety
  import V = Verdicts

  datatype Sight =
    // of the thread that pushes call `c`
    | NobodyWaits(c: nat)
    | SomebodyWaits(c: nat)
    | FreeToBypass(c: nat, op: nat)
    | NoneToBypass(c: nat)
    | NumberUnknown(c: nat, op: nat)
    | NumberKnown(c: nat, op: nat)
    // of a thread in an iteration
    | CallsWait
    | NoneExpired
    | FreeForQueue(op: nat)
    | NoneForQueue
    | Head(c: nat, op: nat)
    | Least(at: int)

  /** The step of the thread shows it. */
  ghost predicate Sees(w: World, h: Happening, s: Sight)
    requires h.Stepped?
  {
    var pc := At(w, h.t);
    match s
    case NobodyWaits(c) => pc == TryBypass(c) && w.q.receipt == []
    case SomebodyWaits(c) => pc == TryBypass(c) && w.q.receipt != []
    case FreeToBypass(c, op) => pc == TakeForBypass(c) && op in w.free
    case NoneToBypass(c) => pc == TakeForBypass(c) && w.free == {}
    case NumberUnknown(c, op) => pc == EnterBypassing(c, op) && !V.Known(w, c)
    case NumberKnown(c, op) => pc == EnterBypassing(c, op) && V.Known(w, c)
    case CallsWait => pc == CheckQueue && w.q.receipt != []
    case NoneExpired => pc == EraseExpired && forall d :: d in w.q.receipt ==> w.now < d.Timeout()
    case FreeForQueue(op) => pc == TakeForQueue && op in w.free
    case NoneForQueue => pc == TakeForQueue && w.free == {}
    case Head(c, op) =>
      pc == PopHead(op)
      && exists d :: d in w.q.receipt && d.id == c && forall e :: e in w.q.receipt ==> d.arrival <= e.arrival
    case Least(at) =>
      pc == FindNext
      && exists d :: d in w.q.receipt && d.Timeout() == at && forall e :: e in w.q.receipt ==> at <= e.Timeout()
  }

  /** What the thread must have seen before. */
  function Earlier(s: Sight): Option<Sight> {
    match s
    case FreeToBypass(c, _) => Some(NobodyWaits(c))
    case NoneToBypass(c) => Some(NobodyWaits(c))
    case NumberUnknown(c, op) => Some(FreeToBypass(c, op))
    case NumberKnown(c, op) => Some(FreeToBypass(c, op))
    case NoneExpired => Some(CallsWait)
    case FreeForQueue(_) => Some(NoneExpired)
    case NoneForQueue => Some(NoneExpired)
    case Head(_, op) => Some(FreeForQueue(op))
    case Least(_) => Some(NoneForQueue)
    case _ => None
  }

  /** In some step the thread saw it, and before that what it must have seen before. */
  ghost predicate Seen(w0: World, hs: seq<Happening>, t: nat, s: Sight)
    decreases |hs|
  {
    exists i ::
      && 0 <= i < |hs| && hs[i].Stepped? && hs[i].t == t && Sees(Before(w0, hs, i), hs[i], s)
      && (Earlier(s).Some? ==> Seen(w0, hs[..i], t, Earlier(s).value))
  }

  /** What a thread must have seen to stand where it stands. */
  ghost predicate SeenFor(w0: World, hs: seq<Happening>, t: nat, pc: Pc) {
    match pc
    case TakeForBypass(c) => Seen(w0, hs, t, NobodyWaits(c))
    case EnterBypassing(c, op) => Seen(w0, hs, t, FreeToBypass(c, op))
    case ReturnBypass(c, op) => Seen(w0, hs, t, NumberKnown(c, op))
    case PushToQueue(c) =>
      || Seen(w0, hs, t, SomebodyWaits(c)) || Seen(w0, hs, t, NoneToBypass(c))
      || exists op :: Seen(w0, hs, t, NumberKnown(c, op))
    case Refuse(_, _, looping) => looping ==> Seen(w0, hs, t, CallsWait)
    case CountRefusal(_, looping) => looping ==> Seen(w0, hs, t, CallsWait)
    case CountDropout(_, looping) => looping ==> Seen(w0, hs, t, CallsWait)
    case LogRefusal(_, looping) => looping ==> Seen(w0, hs, t, CallsWait)
    case Answer(c, op) => Seen(w0, hs, t, NumberUnknown(c, op)) || Seen(w0, hs, t, Head(c, op))
    case EraseExpired => Seen(w0, hs, t, CallsWait)
    case TakeForQueue => Seen(w0, hs, t, NoneExpired)
    case PopHead(op) => Seen(w0, hs, t, FreeForQueue(op))
    case EnterQueued(c, op) => Seen(w0, hs, t, Head(c, op))
    case FindNext => Seen(w0, hs, t, NoneForQueue)
    case PostNext(at) => Seen(w0, hs, t, Least(at))
    case _ => true
  }

  lemma SeenStays(w0: World, hs: seq<Happening>, h: Happening, t: nat, s: Sight)
    requires Seen(w0, hs, t, s)
    ensures Seen(w0, hs + [h], t, s)
  {
    hide History, Sees;
    var i :| 0 <= i < |hs| && hs[i].Stepped? && hs[i].t == t && Sees(Before(w0, hs, i), hs[i], s)
      && (Earlier(s).Some? ==> Seen(w0, hs[..i], t, Earlier(s).value));
    assert (hs + [h])[..i] == hs[..i] && (hs + [h])[i] == hs[i];
  }

  lemma SeenNow(w0: World, hs: seq<Happening>, h: Happening, w: World, t: nat, s: Sight)
    requires w == History(w0, hs) && h.Stepped? && h.t == t && Sees(w, h, s)
    requires Earlier(s).Some? ==> Seen(w0, hs, t, Earlier(s).value)
    ensures Seen(w0, hs + [h], t, s)
  {
    hide History, Sees;
    var i := |hs|;
    assert (hs + [h])[..i] == hs && (hs + [h])[i] == h;
    assert Sees(Before(w0, hs + [h], i), (hs + [h])[i], s);
  }

  lemma SeenForStays(w0: World, hs: seq<Happening>, h: Happening, t: nat, pc: Pc)
    requires SeenFor(w0, hs, t, pc)
    ensures SeenFor(w0, hs + [h], t, pc)
  {
    hide Seen;
    forall s | Seen(w0, hs, t, s) ensures Seen(w0, hs + [h], t, s) { SeenStays(w0, hs, h, t, s); }
  }

  /** The queue lets a number in exactly if it is not known. */
  lemma EntersUnknown(w: World, l: Ledger, t: nat, c: nat)
    requires Tied(w, l) && At(w, t).EnterBypassing? && At(w, t).c == c
    ensures w.q.InsertToProcessing(CallOf(Record(w, c))).0 <==> !V.Known(w, c)
  {
    hide OperatorsTied, CountersFit, NumbersOwned, NotifiedOnce, NoneStranded, Agrees, Cdr.Valid;
    HandHolds(w, l.calls, t, c);
    PushAdmitsIff(w.q, CallOf(Record(w, c)), |w.q.receipt| + 1);
  }

  lemma PushSeen(w0: World, hs: seq<Happening>, h: Happening, w: World, l: Ledger, t: nat)
    requires Tied(w, l) && w == History(w0, hs) && Enabled(w, h) && h.Stepped? && h.t == t && t in w.threads
    requires SeenFor(w0, hs, t, w.threads[t])
    requires var pc := w.threads[t]; pc.TryBypass? || pc.TakeForBypass? || pc.EnterBypassing? || pc.ReturnBypass?
    ensures SeenFor(w0, hs + [h], t, At(PushSteps(w, t, h.ch), t))
  {
    hide Tied, History, Seen, V.Known, Queue.InsertToProcessing, CallOf;
    match w.threads[t]
    case TryBypass(c) =>
      SeenNow(w0, hs, h, w, t, if w.q.receipt == [] then NobodyWaits(c) else SomebodyWaits(c));
    case TakeForBypass(c) =>
      SeenNow(w0, hs, h, w, t, if h.ch.pick in w.free then FreeToBypass(c, h.ch.pick) else NoneToBypass(c));
    case EnterBypassing(c, op) =>
      EntersUnknown(w, l, t, c);
      SeenNow(w0, hs, h, w, t, if V.Known(w, c) then NumberKnown(c, op) else NumberUnknown(c, op));
    case ReturnBypass(c, op) => SeenStays(w0, hs, h, t, NumberKnown(c, op));
  }

  lemma LookSeen(w0: World, hs: seq<Happening>, h: Happening, w: World, t: nat)
    requires w == History(w0, hs) && Enabled(w, h) && h.Stepped? && h.t == t && t in w.threads
    requires SeenFor(w0, hs, t, w.threads[t]) && (w.threads[t].CheckQueue? || w.threads[t].TakeForQueue?)
    ensures SeenFor(w0, hs + [h], t, At(IterationSteps(w, t, h.ch), t))
  {
    hide History, Seen;
    match w.threads[t]
    case CheckQueue => if w.q.receipt != [] { SeenNow(w0, hs, h, w, t, CallsWait); }
    case TakeForQueue =>
      SeenNow(w0, hs, h, w, t, if h.ch.pick in w.free then FreeForQueue(h.ch.pick) else NoneForQueue);
  }

  lemma EraseSeen(w0: World, hs: seq<Happening>, h: Happening, w: World, l: Ledger, t: nat)
    requires Tied(w, l) && w == History(w0, hs) && h.Stepped? && h.t == t && t in w.threads
    requires SeenFor(w0, hs, t, w.threads[t]) && w.threads[t].EraseExpired?
    ensures SeenFor(w0, hs + [h], t, At(IterationSteps(w, t, h.ch), t))
  {
    hide Tied, History, Seen, Queue.EraseTimeout, Agrees;
    V.TiedAgrees(w, l);
    EraseSees(w.q, w.now);
    if w.q.EraseTimeout(w.now).0.Some? {
      SeenStays(w0, hs, h, t, CallsWait);
    } else {
      SeenNow(w0, hs, h, w, t, NoneExpired);
    }
  }

  lemma EraseSees(q: Queue, now: int)
    requires Agrees(q)
    ensures q.EraseTimeout(now).0.None? ==> forall d :: d in q.receipt ==> now < d.Timeout()
  {
    hide Agrees;
    var i := EraseTimeoutAgrees(q, now);
  }

  lemma ServeSeen(w0: World, hs: seq<Happening>, h: Happening, w: World, l: Ledger, t: nat)
    requires Tied(w, l) && w == History(w0, hs) && h.Stepped? && h.t == t && t in w.threads
    requires SeenFor(w0, hs, t, w.threads[t]) && (w.threads[t].PopHead? || w.threads[t].EnterQueued?)
    ensures SeenFor(w0, hs + [h], t, At(IterationSteps(w, t, h.ch), t))
  {
    hide Tied, History, Seen, Queue.Pop, Agrees, Queue.InsertToProcessing, CallOf;
    match w.threads[t]
    case PopHead(op) =>
      V.TiedAgrees(w, l);
      PopSees(w.q);
      if w.q.Pop().0.Some? { SeenNow(w0, hs, h, w, t, Head(w.q.Pop().0.value.id, op)); }
    case EnterQueued(c, op) => SeenStays(w0, hs, h, t, Head(c, op));
  }

  lemma FindSeen(w0: World, hs: seq<Happening>, h: Happening, w: World, l: Ledger, t: nat)
    requires Tied(w, l) && w == History(w0, hs) && h.Stepped? && h.t == t && t in w.threads
    requires SeenFor(w0, hs, t, w.threads[t]) && w.threads[t].FindNext?
    ensures SeenFor(w0, hs + [h], t, At(IterationSteps(w, t, h.ch), t))
  {
    hide Tied, History, Seen, Queue.MinTimeout, Agrees;
    V.TiedAgrees(w, l);
    MinSees(w.q);
    if w.q.MinTimeout().Some? { SeenNow(w0, hs, h, w, t, Least(w.q.MinTimeout().value.Timeout())); }
  }

  lemma PopSees(q: Queue)
    requires Agrees(q)
    ensures q.Pop().0.Some? ==>
      q.Pop().0.value in q.receipt && forall e :: e in q.receipt ==> q.Pop().0.value.arrival <= e.arrival
  {
    hide Agrees;
    if q.receipt != [] { var k := PopAgrees(q); }
  }

  lemma MinSees(q: Queue)
    requires Agrees(q)
    ensures q.MinTimeout().Some? ==>
      q.MinTimeout().value in q.receipt
      && forall e :: e in q.receipt ==> q.MinTimeout().value.Timeout() <= e.Timeout()
  {
    hide Agrees;
    if q.receipt != [] { MinTimeoutIsLeast(q); }
  }

  /** To stand there a thread needs to have seen nothing. */
  predicate SeenNothing(pc: Pc) {
    match pc
    case TakeForBypass(_) => false
    case EnterBypassing(_, _) => false
    case ReturnBypass(_, _) => false
    case PushToQueue(_) => false
    case Refuse(_, _, looping) => !looping
    case CountRefusal(_, looping) => !looping
    case CountDropout(_, looping) => !looping
    case LogRefusal(_, looping) => !looping
    case Answer(_, _) => false
    case EraseExpired => false
    case TakeForQueue => false
    case PopHead(_) => false
    case EnterQueued(_, _) => false
    case FindNext => false
    case PostNext(_) => false
    case _ => true
  }

  lemma NothingSeen(w0: World, hs: seq<Happening>, t: nat, pc: Pc)
    requires SeenNothing(pc)
    ensures SeenFor(w0, hs, t, pc)
  {
    hide Seen;
  }

  lemma PlainPush(w: World, t: nat, ch: Choice)
    requires t in w.threads
    requires var pc := w.threads[t]; pc.SetArrival? || pc.CountArrival? || pc.PushToQueue?
    ensures SeenNothing(At(PushSteps(w, t, ch), t))
  {
    hide Queue.Push, CallOf, Cdr.Arrive;
  }

  lemma PlainStart(w: World, t: nat, ch: Choice)
    requires t in w.threads
    requires var pc := w.threads[t]; pc.Answer? || pc.CountStart? || pc.TurnBusy? || pc.PostFinish?
    ensures SeenNothing(At(StartSteps(w, t, ch), t))
  {
  }

  lemma PlainFinish(w: World, t: nat)
    requires t in w.threads
    requires var pc := w.threads[t];
      pc.TurnFree? || pc.CompleteCall? || pc.CountComplete? || pc.LeaveProcessing? || pc.ReturnServed? || pc.LogServed?
      || pc.LookAgain?
    ensures SeenNothing(At(FinishSteps(w, t), t))
  {
    hide CallOf, Queue.EraseFromProcessing, Cdr.Complete;
  }

  lemma PlainIteration(w: World, t: nat, ch: Choice)
    requires t in w.threads && (w.threads[t].PostNext? || w.threads[t].ReturnUnused?)
    ensures SeenNothing(At(IterationSteps(w, t, ch), t))
  {
  }

  lemma RejectSeen(w0: World, hs: seq<Happening>, h: Happening, w: World, t: nat)
    requires t in w.threads && SeenFor(w0, hs, t, w.threads[t])
    requires var pc := w.threads[t]; pc.Refuse? || pc.CountRefusal? || pc.CountDropout? || pc.LogRefusal?
    ensures SeenFor(w0, hs + [h], t, At(RejectSteps(w, t), t))
  {
    hide Seen, Cdr.Complete;
    SeenForStays(w0, hs, h, t, w.threads[t]);
  }

  /** The other operations. */
  predicate Plain(pc: Pc) {
    || pc.SetArrival? || pc.CountArrival? || pc.PushToQueue? || pc.Answer? || pc.CountStart? || pc.TurnBusy?
    || pc.PostFinish? || pc.TurnFree? || pc.CompleteCall? || pc.CountComplete? || pc.LeaveProcessing?
    || pc.ReturnServed? || pc.LogServed? || pc.LookAgain? || pc.PostNext? || pc.ReturnUnused?
  }

  /** They lead to where nothing need be seen. */
  lemma PlainSeen(w0: World, hs: seq<Happening>, h: Happening, w: World, t: nat)
    requires h.Stepped? && h.t == t && t in w.threads && Plain(w.threads[t])
    ensures SeenFor(w0, hs + [h], t, At(Run(w, t, h.ch), t))
  {
    PlainRun(w, t, h.ch);
    NothingSeen(w0, hs + [h], t, At(Run(w, t, h.ch), t));
  }

  lemma PlainRun(w: World, t: nat, ch: Choice)
    requires t in w.threads && Plain(w.threads[t])
    ensures SeenNothing(At(Run(w, t, ch), t))
  {
    hide SeenNothing, At, PushSteps, StartSteps, FinishSteps, IterationSteps;
    match w.threads[t]
    case SetArrival(_) | CountArrival(_) | PushToQueue(_) => PlainPush(w, t, ch);
    case Answer(_, _) | CountStart(_, _) | TurnBusy(_, _) | PostFinish(_, _) => PlainStart(w, t, ch);
    case PostNext(_) | ReturnUnused(_) => PlainIteration(w, t, ch);
    case TurnFree(_, _) | CompleteCall(_, _) | CountComplete(_, _) | LeaveProcessing(_, _) => PlainFinish(w, t);
    case ReturnServed(_, _) | LogServed(_) | LookAgain => PlainFinish(w, t);
  }

  lemma RunSeen(w0: World, hs: seq<Happening>, h: Happening, w: World, l: Ledger, t: nat)
    requires Tied(w, l) && w == History(w0, hs) && Enabled(w, h) && h.Stepped? && h.t == t && t in w.threads
    requires SeenFor(w0, hs, t, w.threads[t])
    ensures SeenFor(w0, hs + [h], t, At(Run(w, t, h.ch), t))
  {
    hide Tied, History, Seen, PushSteps, RejectSteps, StartSteps, IterationSteps, FinishSteps, Enabled;
    match w.threads[t]
    case TryBypass(_) | TakeForBypass(_) | EnterBypassing(_, _) | ReturnBypass(_, _) => PushSeen(w0, hs, h, w, l, t);
    case CheckQueue | TakeForQueue => LookSeen(w0, hs, h, w, t);
    case EraseExpired => EraseSeen(w0, hs, h, w, l, t);
    case PopHead(_) | EnterQueued(_, _) => ServeSeen(w0, hs, h, w, l, t);
    case FindNext => FindSeen(w0, hs, h, w, l, t);
    case Refuse(_, _, _) | CountRefusal(_, _) | CountDropout(_, _) | LogRefusal(_, _) => RejectSeen(w0, hs, h, w, t);
    case Ended => NothingSeen(w0, hs + [h], t, Ended);
    case _ => PlainSeen(w0, hs, h, w, t);
  }

  lemma PushAlone(w: World, t: nat, ch: Choice, u: nat)
    requires t in w.threads && u != t
    ensures At(PushSteps(w, t, ch), u) == At(w, u)
  {
    hide Queue.InsertToProcessing, Queue.Push, CallOf;
  }

  lemma IterationAlone(w: World, t: nat, ch: Choice, u: nat)
    requires t in w.threads && u != t
    ensures At(IterationSteps(w, t, ch), u) == At(w, u)
  {
    hide Queue.InsertToProcessing, Queue.Pop, Queue.EraseTimeout, Queue.MinTimeout, CallOf;
  }

  lemma RestAlone(w: World, t: nat, ch: Choice, u: nat)
    requires t in w.threads && u != t
    ensures At(RejectSteps(w, t), u) == At(w, u) && At(StartSteps(w, t, ch), u) == At(w, u)
    ensures At(FinishSteps(w, t), u) == At(w, u)
  {
    hide CallOf, Queue.EraseFromProcessing;
  }

  lemma RunAlone(w: World, t: nat, ch: Choice, u: nat)
    requires t in w.threads && u != t
    ensures At(Run(w, t, ch), u) == At(w, u)
  {
    hide At, PushSteps, RejectSteps, StartSteps, IterationSteps, FinishSteps;
    PushAlone(w, t, ch, u);
    IterationAlone(w, t, ch, u);
    RestAlone(w, t, ch, u);
  }

  /** No happening moves a thread but the one that steps or begins, and no thread begins where it must have seen. */
  lemma OthersStay(w: World, h: Happening, u: nat)
    requires Enabled(w, h) && !(h.Stepped? && h.t == u)
    ensures At(Happen(w, h), u) == At(w, u) || SeenNothing(At(Happen(w, h), u))
  {
    hide Run;
    if h.Stepped? { RunAlone(w, h.t, h.ch, u); }
  }

  lemma {:induction false} HistorySeen(now: int, wait: nat, capacity: nat, operators: set<nat>, hs: seq<Happening>,
                                       t: nat)
    requires Possible(Initial(now, wait, capacity, operators), hs)
    ensures var w0 := Initial(now, wait, capacity, operators); SeenFor(w0, hs, t, At(History(w0, hs), t))
  {
    hide Tied, Happen, Enabled, SeenFor;
    var w0 := Initial(now, wait, capacity, operators);
    if hs == [] {
      NothingSeen(w0, hs, t, Ended);
    } else {
      var m := |hs| - 1;
      assert hs[..m] + [hs[m]] == hs;
      var l := HistoryTied(now, wait, capacity, operators, hs[..m]);
      HistorySeen(now, wait, capacity, operators, hs[..m], t);
      HappenSeen(w0, hs[..m], hs[m], History(w0, hs[..m]), l, t);
    }
  }

  lemma HappenSeen(w0: World, hs: seq<Happening>, h: Happening, w: World, l: Ledger, t: nat)
    requires Tied(w, l) && w == History(w0, hs) && Enabled(w, h) && SeenFor(w0, hs, t, At(w, t))
    ensures SeenFor(w0, hs + [h], t, At(Happen(w, h), t))
  {
    hide Tied, History, SeenFor, SeenNothing, Run;
    if h.Stepped? && h.t == t {
      RunSeen(w0, hs, h, w, l, t);
    } else {
      OthersStay(w, h, t);
      if SeenNothing(At(Happen(w, h), t)) {
        NothingSeen(w0, hs + [h], t, At(Happen(w, h), t));
      } else {
        SeenForStays(w0, hs, h, t, At(w, t));
      }
    }
  }

  // ---------------------------------------------------------------------------------------------
  // The theorems
  // ---------------------------------------------------------------------------------------------

  /**
   A call is answered only if its thread found nobody waiting, then an operator free and then its number unknown; or if
   its thread found calls waiting, then none of them expired, then an operator free, and then no call that arrived
   earlier.
   */
  lemma AnswersRightly(now: int, wait: nat, capacity: nat, operators: set<nat>, hs: seq<Happening>, t: nat, c: nat,
                       op: nat)
    requires Possible(Initial(now, wait, capacity, operators), hs)
    requires At(History(Initial(now, wait, capacity, operators), hs), t) == Answer(c, op)
    ensures var w0 := Initial(now, wait, capacity, operators);
            Seen(w0, hs, t, NumberUnknown(c, op)) || Seen(w0, hs, t, Head(c, op))
  {
    hide Possible, History, Initial, Seen;
    HistorySeen(now, wait, capacity, operators, hs, t);
  }

  /** The queue is asked only if calls waited, no operator was free or the number was known. */
  lemma AsksRightly(now: int, wait: nat, capacity: nat, operators: set<nat>, hs: seq<Happening>, t: nat, c: nat)
    requires Possible(Initial(now, wait, capacity, operators), hs)
    requires At(History(Initial(now, wait, capacity, operators), hs), t) == PushToQueue(c)
    ensures
      var w0 := Initial(now, wait, capacity, operators);
      || Seen(w0, hs, t, SomebodyWaits(c)) || Seen(w0, hs, t, NoneToBypass(c))
      || exists op :: Seen(w0, hs, t, NumberKnown(c, op))
  {
    hide Possible, History, Initial, Seen;
    HistorySeen(now, wait, capacity, operators, hs, t);
  }

  /** An iteration is posted only for the least timeout point found, and only if before that no operator was free. */
  lemma PostsRightly(now: int, wait: nat, capacity: nat, operators: set<nat>, hs: seq<Happening>, t: nat, at: int)
    requires Possible(Initial(now, wait, capacity, operators), hs)
    requires At(History(Initial(now, wait, capacity, operators), hs), t) == PostNext(at)
    ensures Seen(Initial(now, wait, capacity, operators), hs, t, Least(at))
  {
    hide Possible, History, Initial, Seen;
    HistorySeen(now, wait, capacity, operators, hs, t);
  }
}
