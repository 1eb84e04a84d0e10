/**
 The life of a call in every interleaving: the time points of its record are the clock at the steps that wrote them, in
 their order, and the operator it names is the one that was taken for it and is handed on until its service ends.
 */
module Timelines {
  import opened Options
  import opened CallDetailedRecords
  import opened CallQueues
  import opened Interleavings
  import opened Ownership
  import opened InterleavingSafety

  /** A thread does the operation it stands at. */
  predicate Does(w: World, h: Happening, pc: Pc) { h.Stepped? && At(w, h.t) == pc }

  // What the history tells of a call, and of what came before it.

  ghost predicate PushedIn(hs: seq<Happening>, c: nat, phone: string) {
    exists k :: 0 <= k < |hs| && hs[k].Pushed? && hs[k].c == c && hs[k].phone == phone
  }

  ghost predicate ArrivedIn(w0: World, hs: seq<Happening>, c: nat, arrival: Option<int>) {
    exists k :: 0 <= k < |hs| && Does(Before(w0, hs, k), hs[k], SetArrival(c)) && arrival == Some(Before(w0, hs, k).now)
  }

  ghost predicate RefusedIn(w0: World, hs: seq<Happening>, c: nat, reason: CallStatus, arrival: Option<int>,
                            complete: Option<int>) {
    exists k ::
      && 0 <= k < |hs| && hs[k].Stepped? && Refuses(At(Before(w0, hs, k), hs[k].t), c, reason)
      && complete == Some(Before(w0, hs, k).now) && ArrivedIn(w0, hs[..k], c, arrival)
  }

  predicate Refuses(pc: Pc, c: nat, reason: CallStatus) { pc.Refuse? && pc.c == c && pc.reason == reason }

  ghost predicate AnsweredIn(w0: World, hs: seq<Happening>, c: nat, op: nat, arrival: Option<int>,
                             start: Option<int>) {
    exists k ::
      && 0 <= k < |hs| && Does(Before(w0, hs, k), hs[k], Answer(c, op))
      && start == Some(Before(w0, hs, k).now) && ArrivedIn(w0, hs[..k], c, arrival)
  }

  ghost predicate PostedIn(w0: World, hs: seq<Happening>, c: nat, op: nat, arrival: Option<int>, start: Option<int>,
                           due: int) {
    exists k ::
      && 0 <= k < |hs| && Does(Before(w0, hs, k), hs[k], PostFinish(c, op))
      && due == Before(w0, hs, k).now + 1000 * hs[k].ch.delay && AnsweredIn(w0, hs[..k], c, op, arrival, start)
  }

  ghost predicate CompletedIn(w0: World, hs: seq<Happening>, c: nat, op: nat, arrival: Option<int>,
                              start: Option<int>, complete: Option<int>) {
    exists k ::
      && 0 <= k < |hs| && Does(Before(w0, hs, k), hs[k], CompleteCall(c, op))
      && complete == Some(Before(w0, hs, k).now)
      && PostedBy(w0, hs[..k], c, op, arrival, start, Before(w0, hs, k).now)
  }

  /** The finish event of the call was posted and was due by `x`. */
  ghost predicate PostedBy(w0: World, hs: seq<Happening>, c: nat, op: nat, arrival: Option<int>, start: Option<int>,
                           x: int) {
    exists due: int :: due <= x && PostedIn(w0, hs, c, op, arrival, start, due)
  }

  lemma SamePast(w0: World, hs: seq<Happening>, h: Happening)
    ensures forall k :: 0 <= k <= |hs| ==> (hs + [h])[..k] == hs[..k] && Before(w0, hs + [h], k) == Before(w0, hs, k)
    ensures forall k :: 0 <= k < |hs| ==> (hs + [h])[k] == hs[k]
    ensures (hs + [h])[..|hs|] == hs && (hs + [h])[|hs|] == h && hs[..|hs|] == hs
  {
    hide History;
    forall k | 0 <= k <= |hs| ensures (hs + [h])[..k] == hs[..k] {}
  }

  // ---------------------------------------------------------------------------------------------
  // What the record, the thread and the finish event of a call tell
  // ---------------------------------------------------------------------------------------------

  ghost predicate RecordTold(w0: World, hs: seq<Happening>, c: nat, r: Cdr) {
    && r.id == c && r.maxWait == w0.wait && PushedIn(hs, c, r.phone)
    && (r.arrival.Some? ==> ArrivedIn(w0, hs, c, r.arrival))
    && (if r.start.Some? then r.operatorId.Some? && AnsweredIn(w0, hs, c, r.operatorId.value, r.arrival, r.start)
        else r.operatorId.None?)
    && (r.status == Some(Ok) ==>
          r.operatorId.Some? && CompletedIn(w0, hs, c, r.operatorId.value, r.arrival, r.start, r.complete))
    && (r.status.Some? && r.status.value != Ok ==> RefusedIn(w0, hs, c, r.status.value, r.arrival, r.complete))
  }

  /** The record names the operator. */
  predicate Names(w: World, c: nat, op: nat) { Record(w, c).start.Some? && Record(w, c).operatorId == Some(op) }

  ghost predicate Posted(w0: World, hs: seq<Happening>, w: World, c: nat, op: nat) {
    Names(w, c, op) && PostedBy(w0, hs, c, op, Record(w, c).arrival, Record(w, c).start, w.now)
  }

  ghost predicate ThreadTold(w0: World, hs: seq<Happening>, w: World, pc: Pc) {
    match pc
    case CountStart(c, op) => Names(w, c, op)
    case TurnBusy(c, op) => Names(w, c, op)
    case PostFinish(c, op) => Names(w, c, op)
    case TurnFree(c, op) => Posted(w0, hs, w, c, op)
    case CompleteCall(c, op) => Posted(w0, hs, w, c, op)
    case CountComplete(c, op) => Names(w, c, op)
    case LeaveProcessing(c, op) => Names(w, c, op)
    case ReturnServed(c, op) => Names(w, c, op)
    case _ => true
  }

  ghost predicate FinishTold(w0: World, hs: seq<Happening>, w: World, f: Finish) {
    Names(w, f.c, f.op) && PostedIn(w0, hs, f.c, f.op, Record(w, f.c).arrival, Record(w, f.c).start, f.due)
  }

  ghost predicate Told(w0: World, hs: seq<Happening>, w: World) {
    && (forall c :: c in w.records ==> RecordTold(w0, hs, c, w.records[c]))
    && (forall t :: t in w.threads ==> ThreadTold(w0, hs, w, w.threads[t]))
    && (forall f :: f in w.finishes ==> FinishTold(w0, hs, w, f))
  }

  // What was told once stays told.

  lemma ArrivedStays(w0: World, hs: seq<Happening>, h: Happening, c: nat, arrival: Option<int>)
    requires ArrivedIn(w0, hs, c, arrival)
    ensures ArrivedIn(w0, hs + [h], c, arrival)
  {
    hide Before, Does;
    SamePast(w0, hs, h);
    var k :| 0 <= k < |hs| && Does(Before(w0, hs, k), hs[k], SetArrival(c)) && arrival == Some(Before(w0, hs, k).now);
    assert Does(Before(w0, hs + [h], k), (hs + [h])[k], SetArrival(c));
  }

  lemma AnsweredStays(w0: World, hs: seq<Happening>, h: Happening, c: nat, op: nat, arrival: Option<int>,
                      start: Option<int>)
    requires AnsweredIn(w0, hs, c, op, arrival, start)
    ensures AnsweredIn(w0, hs + [h], c, op, arrival, start)
  {
    hide Before, Does, ArrivedIn;
    SamePast(w0, hs, h);
    var k :| 0 <= k < |hs| && Does(Before(w0, hs, k), hs[k], Answer(c, op))
      && start == Some(Before(w0, hs, k).now) && ArrivedIn(w0, hs[..k], c, arrival);
    assert Does(Before(w0, hs + [h], k), (hs + [h])[k], Answer(c, op));
  }

  lemma PostedStays(w0: World, hs: seq<Happening>, h: Happening, c: nat, op: nat, arrival: Option<int>,
                    start: Option<int>, due: int)
    requires PostedIn(w0, hs, c, op, arrival, start, due)
    ensures PostedIn(w0, hs + [h], c, op, arrival, start, due)
  {
    hide Before, AnsweredIn;
    SamePast(w0, hs, h);
    var k :| 0 <= k < |hs| && Does(Before(w0, hs, k), hs[k], PostFinish(c, op))
      && due == Before(w0, hs, k).now + 1000 * hs[k].ch.delay && AnsweredIn(w0, hs[..k], c, op, arrival, start);
    assert Does(Before(w0, hs + [h], k), (hs + [h])[k], PostFinish(c, op));
  }

  lemma PostedByStays(w0: World, hs: seq<Happening>, h: Happening, c: nat, op: nat, arrival: Option<int>,
                      start: Option<int>, x: int, y: int)
    requires PostedBy(w0, hs, c, op, arrival, start, x) && x <= y
    ensures PostedBy(w0, hs + [h], c, op, arrival, start, y)
  {
    hide PostedIn;
    var due: int :| due <= x && PostedIn(w0, hs, c, op, arrival, start, due);
    PostedStays(w0, hs, h, c, op, arrival, start, due);
  }

  lemma CompletedStays(w0: World, hs: seq<Happening>, h: Happening, c: nat, op: nat, arrival: Option<int>,
                       start: Option<int>, complete: Option<int>)
    requires CompletedIn(w0, hs, c, op, arrival, start, complete)
    ensures CompletedIn(w0, hs + [h], c, op, arrival, start, complete)
  {
    hide Before, Does, PostedBy;
    SamePast(w0, hs, h);
    var k :| 0 <= k < |hs| && Does(Before(w0, hs, k), hs[k], CompleteCall(c, op))
      && complete == Some(Before(w0, hs, k).now)
      && PostedBy(w0, hs[..k], c, op, arrival, start, Before(w0, hs, k).now);
    assert Does(Before(w0, hs + [h], k), (hs + [h])[k], CompleteCall(c, op));
  }

  lemma RefusedStays(w0: World, hs: seq<Happening>, h: Happening, c: nat, reason: CallStatus, arrival: Option<int>,
                     complete: Option<int>)
    requires RefusedIn(w0, hs, c, reason, arrival, complete)
    ensures RefusedIn(w0, hs + [h], c, reason, arrival, complete)
  {
    hide Before, Refuses, ArrivedIn;
    SamePast(w0, hs, h);
    var k :| 0 <= k < |hs| && hs[k].Stepped? && Refuses(At(Before(w0, hs, k), hs[k].t), c, reason)
      && complete == Some(Before(w0, hs, k).now) && ArrivedIn(w0, hs[..k], c, arrival);
    assert Refuses(At(Before(w0, hs + [h], k), (hs + [h])[k].t), c, reason);
  }

  lemma PushedStays(hs: seq<Happening>, h: Happening, c: nat, phone: string)
    requires PushedIn(hs, c, phone)
    ensures PushedIn(hs + [h], c, phone)
  {
    var k :| 0 <= k < |hs| && hs[k].Pushed? && hs[k].c == c && hs[k].phone == phone;
    assert (hs + [h])[k] == hs[k];
  }

  lemma RecordStays(w0: World, hs: seq<Happening>, h: Happening, c: nat, r: Cdr)
    requires RecordTold(w0, hs, c, r)
    ensures RecordTold(w0, hs + [h], c, r)
  {
    hide PushedIn, ArrivedIn, AnsweredIn, CompletedIn, RefusedIn;
    PushedStays(hs, h, c, r.phone);
    if r.arrival.Some? { ArrivedStays(w0, hs, h, c, r.arrival); }
    if r.start.Some? { AnsweredStays(w0, hs, h, c, r.operatorId.value, r.arrival, r.start); }
    if r.status == Some(Ok) { CompletedStays(w0, hs, h, c, r.operatorId.value, r.arrival, r.start, r.complete); }
    if r.status.Some? && r.status.value != Ok {
      RefusedStays(w0, hs, h, c, r.status.value, r.arrival, r.complete);
    }
  }

  /** The thread stands where it stood and its call has the record it had. */
  lemma ThreadStays(w0: World, hs: seq<Happening>, h: Happening, w: World, w2: World, pc: Pc)
    requires ThreadTold(w0, hs, w, pc) && w.now <= w2.now
    requires HeldCall(pc).Some? ==> Record(w2, HeldCall(pc).value) == Record(w, HeldCall(pc).value)
    ensures ThreadTold(w0, hs + [h], w2, pc)
  {
    hide PostedBy;
    if pc.TurnFree? || pc.CompleteCall? {
      var r := Record(w, pc.c);
      PostedByStays(w0, hs, h, pc.c, pc.op, r.arrival, r.start, w.now, w2.now);
    }
  }

  lemma FinishStays(w0: World, hs: seq<Happening>, h: Happening, w: World, w2: World, f: Finish)
    requires FinishTold(w0, hs, w, f) && Record(w2, f.c) == Record(w, f.c)
    ensures FinishTold(w0, hs + [h], w2, f)
  {
    hide PostedIn;
    PostedStays(w0, hs, h, f.c, f.op, Record(w, f.c).arrival, Record(w, f.c).start, f.due);
  }

  // ---------------------------------------------------------------------------------------------
  // What a happening tells
  // ---------------------------------------------------------------------------------------------

  /** Thread `t` goes on to `pc`, and nothing is written. */
  lemma NothingWritten(w0: World, hs: seq<Happening>, h: Happening, w: World, w2: World, t: nat, pc: Pc)
    requires Told(w0, hs, w) && w2.records == w.records && w2.wait == w.wait && w.now <= w2.now
    requires w2.threads == w.threads[t := pc] && ThreadTold(w0, hs + [h], w2, pc)
    requires forall f :: f in w2.finishes ==> f in w.finishes || FinishTold(w0, hs + [h], w2, f)
    ensures Told(w0, hs + [h], w2)
  {
    hide RecordTold, ThreadTold, FinishTold;
    forall c | c in w2.records ensures RecordTold(w0, hs + [h], c, w2.records[c]) {
      RecordStays(w0, hs, h, c, w.records[c]);
    }
    forall u | u in w.threads ensures ThreadTold(w0, hs + [h], w2, w.threads[u]) {
      ThreadStays(w0, hs, h, w, w2, w.threads[u]);
    }
    forall f | f in w.finishes ensures FinishTold(w0, hs + [h], w2, f) { FinishStays(w0, hs, h, w, w2, f); }
  }

  /** Thread `t` goes on to `pc` and writes the record of `c`, which no other thread and no finish event has. */
  lemma OneWritten(w0: World, hs: seq<Happening>, h: Happening, w: World, w2: World, t: nat, pc: Pc, c: nat)
    requires Told(w0, hs, w) && w2.wait == w.wait && w.now <= w2.now
    requires c in w2.records && w2.records == w.records[c := w2.records[c]]
    requires RecordTold(w0, hs + [h], c, w2.records[c])
    requires w2.threads == w.threads[t := pc] && ThreadTold(w0, hs + [h], w2, pc)
    requires forall u :: u in w.threads && u != t ==> HeldCall(w.threads[u]) != Some(c)
    requires w2.finishes == w.finishes && forall f :: f in w.finishes ==> f.c != c
    ensures Told(w0, hs + [h], w2)
  {
    hide RecordTold, ThreadTold, FinishTold, HeldCall;
    forall d | d in w2.records ensures RecordTold(w0, hs + [h], d, w2.records[d]) {
      if d != c { RecordStays(w0, hs, h, d, w.records[d]); }
    }
    forall u | u in w.threads && u != t ensures ThreadTold(w0, hs + [h], w2, w.threads[u]) {
      ThreadStays(w0, hs, h, w, w2, w.threads[u]);
    }
    forall f | f in w.finishes ensures FinishTold(w0, hs + [h], w2, f) { FinishStays(w0, hs, h, w, w2, f); }
  }

  /** The call in the hands of a thread is in no other hands and not in service, and its record shows how far it is. */
  lemma AloneInHand(w: World, l: Ledger, t: nat, c: nat)
    requires Tied(w, l) && HeldCall(At(w, t)) == Some(c)
    ensures forall u :: u in w.threads && u != t ==> HeldCall(w.threads[u]) != Some(c)
    ensures forall f :: f in w.finishes ==> f.c != c
    ensures c in w.records && w.records[c].id == c && ShowsStage(StageOf(At(w, t)), w.records[c])
      && w.records[c].Valid()
  {
    hide OperatorsTied, CountersFit, NumbersOwned, NotifiedOnce, NoneStranded, Agrees, HeldCall, StageOf, ShowsStage;
    hide Cdr.Valid, InQueue, InJournal;
    assert InHand(w, l.calls, t, c) by { HandHolds(w, l.calls, t, c); }
    forall u | u in w.threads && u != t ensures HeldCall(w.threads[u]) != Some(c) { assert At(w, u) == w.threads[u]; }
  }

  lemma ArrivedNow(w0: World, hs: seq<Happening>, h: Happening, w: World, c: nat)
    requires w == History(w0, hs) && Does(w, h, SetArrival(c))
    ensures ArrivedIn(w0, hs + [h], c, Some(w.now))
  {
    hide History;
    SamePast(w0, hs, h);
    assert Does(Before(w0, hs + [h], |hs|), (hs + [h])[|hs|], SetArrival(c));
  }

  lemma RefusedNow(w0: World, hs: seq<Happening>, h: Happening, w: World, c: nat, reason: CallStatus,
                   arrival: Option<int>)
    requires w == History(w0, hs) && h.Stepped? && Refuses(At(w, h.t), c, reason) && ArrivedIn(w0, hs, c, arrival)
    ensures RefusedIn(w0, hs + [h], c, reason, arrival, Some(w.now))
  {
    hide History, ArrivedIn;
    SamePast(w0, hs, h);
    assert Refuses(At(Before(w0, hs + [h], |hs|), (hs + [h])[|hs|].t), c, reason);
  }

  lemma AnsweredNow(w0: World, hs: seq<Happening>, h: Happening, w: World, c: nat, op: nat, arrival: Option<int>)
    requires w == History(w0, hs) && Does(w, h, Answer(c, op)) && ArrivedIn(w0, hs, c, arrival)
    ensures AnsweredIn(w0, hs + [h], c, op, arrival, Some(w.now))
  {
    hide History, ArrivedIn;
    SamePast(w0, hs, h);
    assert Does(Before(w0, hs + [h], |hs|), (hs + [h])[|hs|], Answer(c, op));
  }

  lemma PostedNow(w0: World, hs: seq<Happening>, h: Happening, w: World, c: nat, op: nat, arrival: Option<int>,
                  start: Option<int>)
    requires w == History(w0, hs) && Does(w, h, PostFinish(c, op)) && AnsweredIn(w0, hs, c, op, arrival, start)
    ensures PostedIn(w0, hs + [h], c, op, arrival, start, w.now + 1000 * h.ch.delay)
  {
    hide History, AnsweredIn;
    SamePast(w0, hs, h);
    assert Does(Before(w0, hs + [h], |hs|), (hs + [h])[|hs|], PostFinish(c, op));
  }

  lemma CompletedNow(w0: World, hs: seq<Happening>, h: Happening, w: World, c: nat, op: nat, arrival: Option<int>,
                     start: Option<int>)
    requires w == History(w0, hs) && Does(w, h, CompleteCall(c, op))
    requires PostedBy(w0, hs, c, op, arrival, start, w.now)
    ensures CompletedIn(w0, hs + [h], c, op, arrival, start, Some(w.now))
  {
    hide History, PostedBy;
    SamePast(w0, hs, h);
    assert Does(Before(w0, hs + [h], |hs|), (hs + [h])[|hs|], CompleteCall(c, op));
  }

  lemma WriteArrival(w0: World, hs: seq<Happening>, h: Happening, w: World, l: Ledger, t: nat, c: nat)
    requires Tied(w, l) && Told(w0, hs, w) && w == History(w0, hs) && Does(w, h, SetArrival(c)) && h.t == t
    requires t in w.threads
    ensures Told(w0, hs + [h], PushSteps(w, t, h.ch))
  {
    hide Tied, Told, Cdr.Valid, AnsweredIn, PushedIn, RefusedIn, CompletedIn, History, ArrivedIn, PostedIn, PostedBy;
    AloneInHand(w, l, t, c);
    RecordOfTold(w0, hs, w, c);
    RecordStays(w0, hs, h, c, w.records[c]);
    ArrivedNow(w0, hs, h, w, c);
    OneWritten(w0, hs, h, w, PushSteps(w, t, h.ch), t, CountArrival(c), c);
  }

  lemma RecordOfTold(w0: World, hs: seq<Happening>, w: World, c: nat)
    requires Told(w0, hs, w) && c in w.records
    ensures RecordTold(w0, hs, c, w.records[c])
  {
  }

  lemma ThreadOfTold(w0: World, hs: seq<Happening>, w: World, t: nat)
    requires Told(w0, hs, w) && t in w.threads
    ensures ThreadTold(w0, hs, w, w.threads[t])
  {
  }

  lemma WriteRefusal(w0: World, hs: seq<Happening>, h: Happening, w: World, l: Ledger, t: nat)
    requires Tied(w, l) && Told(w0, hs, w) && w == History(w0, hs) && h.Stepped? && h.t == t
    requires t in w.threads && w.threads[t].Refuse?
    ensures Told(w0, hs + [h], RejectSteps(w, t))
  {
    hide Tied, Told, Cdr.Valid, ArrivedIn, AnsweredIn, PushedIn, CompletedIn, History, PostedIn, PostedBy, RefusedIn;
    var pc := w.threads[t];
    AloneInHand(w, l, t, pc.c);
    RecordOfTold(w0, hs, w, pc.c);
    RecordStays(w0, hs, h, pc.c, w.records[pc.c]);
    RefusedNow(w0, hs, h, w, pc.c, pc.reason, w.records[pc.c].arrival);
    OneWritten(w0, hs, h, w, RejectSteps(w, t), t, CountRefusal(pc.c, pc.looping), pc.c);
  }

  lemma WriteStart(w0: World, hs: seq<Happening>, h: Happening, w: World, l: Ledger, t: nat, c: nat, op: nat)
    requires Tied(w, l) && Told(w0, hs, w) && w == History(w0, hs) && Does(w, h, Answer(c, op)) && h.t == t
    requires t in w.threads
    ensures Told(w0, hs + [h], StartSteps(w, t, h.ch))
  {
    hide Tied, Told, Cdr.Valid, ArrivedIn, PushedIn, CompletedIn, RefusedIn, History, AnsweredIn, PostedIn, PostedBy;
    AloneInHand(w, l, t, c);
    RecordOfTold(w0, hs, w, c);
    RecordStays(w0, hs, h, c, w.records[c]);
    AnsweredNow(w0, hs, h, w, c, op, w.records[c].arrival);
    OneWritten(w0, hs, h, w, StartSteps(w, t, h.ch), t, CountStart(c, op), c);
  }

  lemma WriteCompletion(w0: World, hs: seq<Happening>, h: Happening, w: World, l: Ledger, t: nat, c: nat, op: nat)
    requires Tied(w, l) && Told(w0, hs, w) && w == History(w0, hs) && Does(w, h, CompleteCall(c, op)) && h.t == t
    requires t in w.threads
    ensures Told(w0, hs + [h], FinishSteps(w, t))
  {
    hide Tied, Told, Cdr.Valid, ArrivedIn, AnsweredIn, PushedIn, RefusedIn, PostedBy, History, PostedIn, CompletedIn;
    AloneInHand(w, l, t, c);
    RecordOfTold(w0, hs, w, c);
    ThreadOfTold(w0, hs, w, t);
    RecordStays(w0, hs, h, c, w.records[c]);
    CompletedNow(w0, hs, h, w, c, op, w.records[c].arrival, w.records[c].start);
    OneWritten(w0, hs, h, w, FinishSteps(w, t), t, CountComplete(c, op), c);
  }

  lemma PostTold(w0: World, hs: seq<Happening>, h: Happening, w: World, l: Ledger, t: nat, c: nat, op: nat)
    requires Tied(w, l) && Told(w0, hs, w) && w == History(w0, hs) && Does(w, h, PostFinish(c, op)) && h.t == t
    requires t in w.threads
    ensures Told(w0, hs + [h], StartSteps(w, t, h.ch))
  {
    hide Tied, Told, Cdr.Valid, ArrivedIn, AnsweredIn, PushedIn, RefusedIn, CompletedIn, History, PostedIn, PostedBy;
    AloneInHand(w, l, t, c);
    RecordOfTold(w0, hs, w, c);
    ThreadOfTold(w0, hs, w, t);
    PostedNow(w0, hs, h, w, c, op, w.records[c].arrival, w.records[c].start);
    var w2 := StartSteps(w, t, h.ch);
    NothingWritten(w0, hs, h, w, w2, t, Ended);
  }

  /** All other steps write nothing, and a thread that has a service in its hands goes on with it. */
  lemma StepTold(w0: World, hs: seq<Happening>, h: Happening, w: World, t: nat)
    requires Told(w0, hs, w) && h.Stepped? && h.t == t && t in w.threads && w.threads[t] != Ended
    requires var pc := w.threads[t];
      !pc.SetArrival? && !pc.Refuse? && !pc.Answer? && !pc.CompleteCall? && !pc.PostFinish?
    ensures Told(w0, hs + [h], Run(w, t, h.ch))
  {
    hide Told, Run, ThreadTold, GoesOn;
    var w2 := Run(w, t, h.ch);
    RunQuiet(w, t, h.ch);
    ThreadOfTold(w0, hs, w, t);
    ThreadStays(w0, hs, h, w, w2, w.threads[t]);
    GoesOnTold(w0, hs + [h], w2, w.threads[t], At(w2, t));
    NothingWritten(w0, hs, h, w, w2, t, At(w2, t));
  }

  lemma GoesOnTold(w0: World, hs: seq<Happening>, w: World, pc: Pc, pc2: Pc)
    requires ThreadTold(w0, hs, w, pc) && GoesOn(pc, pc2)
    ensures ThreadTold(w0, hs, w, pc2)
  {
    hide Names, PostedBy;
  }

  /** Where a thread that has a service in its hands goes on. */
  predicate GoesOn(pc: Pc, pc2: Pc) {
    match pc2
    case CountStart(_, _) => false
    case TurnBusy(c, op) => pc == CountStart(c, op)
    case PostFinish(c, op) => pc == TurnBusy(c, op)
    case TurnFree(_, _) => false
    case CompleteCall(c, op) => pc == TurnFree(c, op)
    case CountComplete(_, _) => false
    case LeaveProcessing(c, op) => pc == CountComplete(c, op)
    case ReturnServed(c, op) => pc == LeaveProcessing(c, op)
    case _ => true
  }

  /** The step writes no record and posts no finish event, and the thread goes on as it should. */
  ghost predicate Quiet(w: World, w2: World, t: nat)
    requires t in w.threads
  {
    && w2.records == w.records && w2.wait == w.wait && w2.now == w.now && w2.finishes == w.finishes
    && w2.threads == w.threads[t := At(w2, t)] && GoesOn(w.threads[t], At(w2, t))
  }

  lemma PushQuiet(w: World, t: nat, ch: Choice)
    requires t in w.threads
    requires var pc := w.threads[t];
      pc.CountArrival? || pc.TryBypass? || pc.TakeForBypass? || pc.EnterBypassing? || pc.ReturnBypass?
      || pc.PushToQueue?
    ensures Quiet(w, PushSteps(w, t, ch), t)
  {
    hide Queue.InsertToProcessing, Queue.Push, CallOf;
  }

  lemma RejectQuiet(w: World, t: nat)
    requires t in w.threads
    requires var pc := w.threads[t]; pc.CountRefusal? || pc.CountDropout? || pc.LogRefusal?
    ensures Quiet(w, RejectSteps(w, t), t)
  {
  }

  lemma StartQuiet(w: World, t: nat, ch: Choice)
    requires t in w.threads && (w.threads[t].CountStart? || w.threads[t].TurnBusy?)
    ensures Quiet(w, StartSteps(w, t, ch), t)
  {
  }

  lemma IterationQuiet(w: World, t: nat, ch: Choice)
    requires t in w.threads
    requires var pc := w.threads[t];
      pc.CheckQueue? || pc.EraseExpired? || pc.TakeForQueue? || pc.PopHead? || pc.EnterQueued? || pc.ReturnUnused?
      || pc.FindNext? || pc.PostNext?
    ensures Quiet(w, IterationSteps(w, t, ch), t)
  {
    hide Queue.InsertToProcessing, Queue.Pop, Queue.EraseTimeout, Queue.MinTimeout, CallOf;
  }

  lemma FinishQuiet(w: World, t: nat)
    requires t in w.threads
    requires var pc := w.threads[t];
      pc.TurnFree? || pc.CountComplete? || pc.LeaveProcessing? || pc.ReturnServed? || pc.LogServed? || pc.LookAgain?
    ensures Quiet(w, FinishSteps(w, t), t)
  {
    hide CallOf, Queue.EraseFromProcessing;
  }

  lemma RunQuiet(w: World, t: nat, ch: Choice)
    requires t in w.threads && w.threads[t] != Ended
    requires var pc := w.threads[t];
      !pc.SetArrival? && !pc.Refuse? && !pc.Answer? && !pc.CompleteCall? && !pc.PostFinish?
    ensures Quiet(w, Run(w, t, ch), t)
  {
    hide Quiet, PushSteps, RejectSteps, StartSteps, IterationSteps, FinishSteps;
    match w.threads[t]
    case CountArrival(_) | TryBypass(_) | TakeForBypass(_) | EnterBypassing(_, _) => PushQuiet(w, t, ch);
    case ReturnBypass(_, _) | PushToQueue(_) => PushQuiet(w, t, ch);
    case CountRefusal(_, _) | CountDropout(_, _) | LogRefusal(_, _) => RejectQuiet(w, t);
    case CountStart(_, _) | TurnBusy(_, _) => StartQuiet(w, t, ch);
    case CheckQueue | EraseExpired | TakeForQueue | PopHead(_) => IterationQuiet(w, t, ch);
    case EnterQueued(_, _) | ReturnUnused(_) | FindNext | PostNext(_) => IterationQuiet(w, t, ch);
    case _ => FinishQuiet(w, t);
  }

  lemma RunTold(w0: World, hs: seq<Happening>, h: Happening, w: World, l: Ledger, t: nat)
    requires Tied(w, l) && Told(w0, hs, w) && w == History(w0, hs) && h.Stepped? && h.t == t && t in w.threads
    ensures Told(w0, hs + [h], Run(w, t, h.ch))
  {
    hide Tied, Told, History, PushSteps, RejectSteps, StartSteps, IterationSteps, FinishSteps;
    match w.threads[t]
    case SetArrival(c) => WriteArrival(w0, hs, h, w, l, t, c);
    case Refuse(_, _, _) => WriteRefusal(w0, hs, h, w, l, t);
    case Answer(c, op) => WriteStart(w0, hs, h, w, l, t, c, op);
    case CompleteCall(c, op) => WriteCompletion(w0, hs, h, w, l, t, c, op);
    case PostFinish(c, op) => PostTold(w0, hs, h, w, l, t, c, op);
    case Ended => AllStays(w0, hs, h, w, w);
    case _ => StepTold(w0, hs, h, w, t);
  }

  /** Nothing is written, posted or done. */
  lemma AllStays(w0: World, hs: seq<Happening>, h: Happening, w: World, w2: World)
    requires Told(w0, hs, w) && w2.records == w.records && w2.wait == w.wait && w.now <= w2.now
    requires w2.threads == w.threads && w2.finishes == w.finishes
    ensures Told(w0, hs + [h], w2)
  {
    hide RecordTold, ThreadTold, FinishTold;
    forall c | c in w2.records ensures RecordTold(w0, hs + [h], c, w2.records[c]) {
      RecordStays(w0, hs, h, c, w.records[c]);
    }
    forall u | u in w.threads ensures ThreadTold(w0, hs + [h], w2, w.threads[u]) {
      ThreadStays(w0, hs, h, w, w2, w.threads[u]);
    }
    forall f | f in w.finishes ensures FinishTold(w0, hs + [h], w2, f) { FinishStays(w0, hs, h, w, w2, f); }
  }

  /** A call object that is pushed is new: no thread and no finish event has it. */
  lemma NewCallAlone(w: World, l: Ledger, c: nat)
    requires Tied(w, l) && c !in w.records
    ensures forall u :: u in w.threads ==> HeldCall(w.threads[u]) != Some(c)
    ensures forall f :: f in w.finishes ==> f.c != c
  {
    hide OperatorsTied, RecordsFit, CountersFit, NumbersOwned, NotifiedOnce, NoneStranded, Agrees, HeldCall, InQueue;
    hide InJournal;
    forall u | u in w.threads ensures HeldCall(w.threads[u]) != Some(c) { assert At(w, u) == w.threads[u]; }
  }

  lemma PushTold(w0: World, hs: seq<Happening>, h: Happening, w: World, l: Ledger)
    requires Tied(w, l) && Told(w0, hs, w) && w.wait == w0.wait && h.Pushed? && h.t !in w.threads && h.c !in w.records
    ensures Told(w0, hs + [h], Happen(w, h))
  {
    hide Tied, Told, ArrivedIn, AnsweredIn, PostedIn, PostedBy, CompletedIn, RefusedIn;
    NewCallAlone(w, l, h.c);
    assert (hs + [h])[|hs|] == h;
    assert PushedIn(hs + [h], h.c, h.phone);
    OneWritten(w0, hs, h, w, Happen(w, h), h.t, SetArrival(h.c), h.c);
  }

  lemma FireTold(w0: World, hs: seq<Happening>, h: Happening, w: World)
    requires Told(w0, hs, w) && h.FinishDue? && h.t !in w.threads && h.f in w.finishes && h.f.due <= w.now
    ensures Told(w0, hs + [h], Happen(w, h))
  {
    hide PostedIn, RecordTold;
    var f := h.f;
    assert FinishTold(w0, hs, w, f);
    PostedStays(w0, hs, h, f.c, f.op, Record(w, f.c).arrival, Record(w, f.c).start, f.due);
    NothingWritten(w0, hs, h, w, Happen(w, h), h.t, TurnFree(f.c, f.op));
  }

  lemma HappenTold(w0: World, hs: seq<Happening>, h: Happening, w: World, l: Ledger)
    requires Tied(w, l) && Told(w0, hs, w) && w == History(w0, hs) && w.wait == w0.wait && Enabled(w, h)
    ensures Told(w0, hs + [h], Happen(w, h))
  {
    hide Tied, Told, History, Run;
    match h
    case Pushed(_, _, _) => PushTold(w0, hs, h, w, l);
    case Stepped(t, ch) => RunTold(w0, hs, h, w, l, t);
    case IterationDue(t, i) => NothingWritten(w0, hs, h, w, Happen(w, h), t, CheckQueue);
    case FinishDue(_, _) => FireTold(w0, hs, h, w);
    case Resized(_, _) => AllStays(w0, hs, h, w, Happen(w, h));
    case Ticked(_) => AllStays(w0, hs, h, w, Happen(w, h));
  }

  lemma HappenKeepsWait(w: World, h: Happening)
    ensures Happen(w, h).wait == w.wait
  {
    hide Queue.InsertToProcessing, Queue.Push, Queue.Pop, Queue.EraseTimeout, Queue.MinTimeout, CallOf;
    hide Queue.EraseFromProcessing;
  }

  lemma {:induction false} HistoryTold(now: int, wait: nat, capacity: nat, operators: set<nat>, hs: seq<Happening>)
    requires Possible(Initial(now, wait, capacity, operators), hs)
    ensures var w0 := Initial(now, wait, capacity, operators);
            Told(w0, hs, History(w0, hs)) && History(w0, hs).wait == wait
  {
    hide Tied, Happen, Enabled, RecordTold, ThreadTold, FinishTold;
    var w0 := Initial(now, wait, capacity, operators);
    if hs != [] {
      var m := |hs| - 1;
      hide Told;
      var l := HistoryTied(now, wait, capacity, operators, hs[..m]);
      HistoryTold(now, wait, capacity, operators, hs[..m]);
      HappenTold(w0, hs[..m], hs[m], History(w0, hs[..m]), l);
      HappenKeepsWait(History(w0, hs[..m]), hs[m]);
      assert hs[..m] + [hs[m]] == hs;
    }
  }

  // ---------------------------------------------------------------------------------------------
  // The theorems
  // ---------------------------------------------------------------------------------------------

  /**
   A served call in every interleaving: its thread set its arrival, a thread that had taken an operator answered it and
   posted the end of the service, and the thread of that end completed it, in this order. Arrival, start and completion
   are the clock at the three steps, the operator named is the one in hand from the answer to the end, and the service
   took at least as long as it was to take.
   */
  lemma ServedTimeline(now: int, wait: nat, capacity: nat, operators: set<nat>, hs: seq<Happening>, c: nat)
    returns (a: nat, s: nat, p: nat, e: nat)
    requires Possible(Initial(now, wait, capacity, operators), hs)
    requires
      var w := History(Initial(now, wait, capacity, operators), hs);
      c in w.records && w.records[c].status == Some(Ok)
    ensures a < s < p < e < |hs|
    ensures
      var w0 := Initial(now, wait, capacity, operators);
      var r := History(w0, hs).records[c];
      && r.operatorId.Some?
      && Does(Before(w0, hs, a), hs[a], SetArrival(c)) && r.arrival == Some(Before(w0, hs, a).now)
      && Does(Before(w0, hs, s), hs[s], Answer(c, r.operatorId.value)) && r.start == Some(Before(w0, hs, s).now)
      && Does(Before(w0, hs, p), hs[p], PostFinish(c, r.operatorId.value))
      && Does(Before(w0, hs, e), hs[e], CompleteCall(c, r.operatorId.value))
      && r.complete == Some(Before(w0, hs, e).now)
      && Before(w0, hs, p).now + 1000 * hs[p].ch.delay <= Before(w0, hs, e).now
  {
    hide Possible, History, Initial, PushedIn, ArrivedIn, AnsweredIn, CompletedIn, RefusedIn;
    var w0 := Initial(now, wait, capacity, operators);
    var r := History(w0, hs).records[c];
    HistoryTold(now, wait, capacity, operators, hs);
    RecordOfTold(w0, hs, History(w0, hs), c);
    a, s, p, e := CompletedWhen(w0, hs, c, r.operatorId.value, r.arrival, r.start, r.complete);
  }

  lemma CompletedWhen(w0: World, hs: seq<Happening>, c: nat, op: nat, arrival: Option<int>, start: Option<int>,
                      complete: Option<int>)
    returns (a: nat, s: nat, p: nat, e: nat)
    requires CompletedIn(w0, hs, c, op, arrival, start, complete)
    ensures a < s < p < e < |hs|
    ensures Does(Before(w0, hs, a), hs[a], SetArrival(c)) && arrival == Some(Before(w0, hs, a).now)
    ensures Does(Before(w0, hs, s), hs[s], Answer(c, op)) && start == Some(Before(w0, hs, s).now)
    ensures Does(Before(w0, hs, p), hs[p], PostFinish(c, op))
    ensures Does(Before(w0, hs, e), hs[e], CompleteCall(c, op)) && complete == Some(Before(w0, hs, e).now)
    ensures Before(w0, hs, p).now + 1000 * hs[p].ch.delay <= Before(w0, hs, e).now
  {
    hide Before, PostedIn;
    e :| 0 <= e < |hs| && Does(Before(w0, hs, e), hs[e], CompleteCall(c, op))
      && complete == Some(Before(w0, hs, e).now)
      && PostedBy(w0, hs[..e], c, op, arrival, start, Before(w0, hs, e).now);
    var due: int :| due <= Before(w0, hs, e).now && PostedIn(w0, hs[..e], c, op, arrival, start, due);
    p, s, a := PostedWhen(w0, hs[..e], c, op, arrival, start, due);
    Shortened(w0, hs, e);
  }

  lemma Shortened(w0: World, hs: seq<Happening>, e: nat)
    requires e <= |hs|
    ensures forall k :: 0 <= k < e ==> Before(w0, hs[..e], k) == Before(w0, hs, k) && hs[..e][k] == hs[k]
  {
    hide History;
    forall k | 0 <= k < e ensures Before(w0, hs[..e], k) == Before(w0, hs, k) { assert hs[..e][..k] == hs[..k]; }
  }

  lemma PostedWhen(w0: World, hs: seq<Happening>, c: nat, op: nat, arrival: Option<int>, start: Option<int>, due: int)
    returns (p: nat, s: nat, a: nat)
    requires PostedIn(w0, hs, c, op, arrival, start, due)
    ensures a < s < p < |hs|
    ensures Does(Before(w0, hs, a), hs[a], SetArrival(c)) && arrival == Some(Before(w0, hs, a).now)
    ensures Does(Before(w0, hs, s), hs[s], Answer(c, op)) && start == Some(Before(w0, hs, s).now)
    ensures Does(Before(w0, hs, p), hs[p], PostFinish(c, op))
    ensures due == Before(w0, hs, p).now + 1000 * hs[p].ch.delay
  {
    hide Before, AnsweredIn;
    p :| 0 <= p < |hs| && Does(Before(w0, hs, p), hs[p], PostFinish(c, op))
      && due == Before(w0, hs, p).now + 1000 * hs[p].ch.delay && AnsweredIn(w0, hs[..p], c, op, arrival, start);
    s, a := AnsweredWhen(w0, hs[..p], c, op, arrival, start);
    Shortened(w0, hs, p);
  }

  lemma AnsweredWhen(w0: World, hs: seq<Happening>, c: nat, op: nat, arrival: Option<int>, start: Option<int>)
    returns (s: nat, a: nat)
    requires AnsweredIn(w0, hs, c, op, arrival, start)
    ensures a < s < |hs|
    ensures Does(Before(w0, hs, a), hs[a], SetArrival(c)) && arrival == Some(Before(w0, hs, a).now)
    ensures Does(Before(w0, hs, s), hs[s], Answer(c, op)) && start == Some(Before(w0, hs, s).now)
  {
    hide Before;
    s :| 0 <= s < |hs| && Does(Before(w0, hs, s), hs[s], Answer(c, op))
      && start == Some(Before(w0, hs, s).now) && ArrivedIn(w0, hs[..s], c, arrival);
    a :| 0 <= a < s && Does(Before(w0, hs[..s], a), hs[..s][a], SetArrival(c))
      && arrival == Some(Before(w0, hs[..s], a).now);
    Shortened(w0, hs, s);
  }

  /** A refused call in every interleaving: its arrival and completion are the clock at the steps that wrote them. */
  lemma RefusedTimeline(now: int, wait: nat, capacity: nat, operators: set<nat>, hs: seq<Happening>, c: nat)
    returns (a: nat, e: nat)
    requires Possible(Initial(now, wait, capacity, operators), hs)
    requires
      var w := History(Initial(now, wait, capacity, operators), hs);
      c in w.records && w.records[c].WasFinished() && !w.records[c].WasServiced()
    ensures a < e < |hs|
    ensures
      var w0 := Initial(now, wait, capacity, operators);
      var r := History(w0, hs).records[c];
      && Does(Before(w0, hs, a), hs[a], SetArrival(c)) && r.arrival == Some(Before(w0, hs, a).now)
      && hs[e].Stepped? && Refuses(At(Before(w0, hs, e), hs[e].t), c, r.status.value)
      && r.complete == Some(Before(w0, hs, e).now)
  {
    hide Possible, History, Tied, Happen;
    var w0 := Initial(now, wait, capacity, operators);
    var r := History(w0, hs).records[c];
    HistoryTold(now, wait, capacity, operators, hs);
    assert RecordTold(w0, hs, c, r);
    e :| 0 <= e < |hs| && hs[e].Stepped? && Refuses(At(Before(w0, hs, e), hs[e].t), c, r.status.value)
      && r.complete == Some(Before(w0, hs, e).now) && ArrivedIn(w0, hs[..e], c, r.arrival);
    Shortened(w0, hs, e);
    a :| 0 <= a < e && Does(Before(w0, hs[..e], a), hs[..e][a], SetArrival(c))
      && r.arrival == Some(Before(w0, hs[..e], a).now);
  }

  /** From the answer to the return of the operator the record names the operator in hand, or the one serving. */
  lemma OperatorNamed(now: int, wait: nat, capacity: nat, operators: set<nat>, hs: seq<Happening>, c: nat, op: nat)
    requires Possible(Initial(now, wait, capacity, operators), hs)
    requires
      var w := History(Initial(now, wait, capacity, operators), hs);
      || (exists f :: f in w.finishes && f.c == c && f.op == op)
      || (exists t :: t in w.threads && HeldCall(w.threads[t]) == Some(c) && HeldOperator(w.threads[t]) == Some(op)
                      && (StageOf(w.threads[t]) == Served || StageOf(w.threads[t]) == Completed))
    ensures Record(History(Initial(now, wait, capacity, operators), hs), c).operatorId == Some(op)
  {
    hide Possible, History, Initial, RecordTold, PostedBy, PostedIn, Record;
    var w0 := Initial(now, wait, capacity, operators);
    var w := History(w0, hs);
    HistoryTold(now, wait, capacity, operators, hs);
    if f :| f in w.finishes && f.c == c && f.op == op {
      assert FinishTold(w0, hs, w, f);
    } else {
      var t :| t in w.threads && HeldCall(w.threads[t]) == Some(c) && HeldOperator(w.threads[t]) == Some(op)
        && (StageOf(w.threads[t]) == Served || StageOf(w.threads[t]) == Completed);
      assert ThreadTold(w0, hs, w, w.threads[t]);
    }
  }

  /** Who a record is about never changes: the number it was pushed with and the one longest wait. */
  lemma IdentityKept(now: int, wait: nat, capacity: nat, operators: set<nat>, hs: seq<Happening>, c: nat)
    requires Possible(Initial(now, wait, capacity, operators), hs)
    requires c in History(Initial(now, wait, capacity, operators), hs).records
    ensures
      var r := History(Initial(now, wait, capacity, operators), hs).records[c];
      && r.id == c && r.maxWait == wait
      && exists k :: 0 <= k < |hs| && hs[k].Pushed? && hs[k].c == c && hs[k].phone == r.phone
  {
    hide Possible, History, Tied, Happen;
    var w0 := Initial(now, wait, capacity, operators);
    HistoryTold(now, wait, capacity, operators, hs);
    assert RecordTold(w0, hs, c, History(w0, hs).records[c]);
  }
}
