/**
 The assertion that the operator which finishes a call has a slot in the metrics. It holds while the pool keeps its
 size, and can fail when the pool is resized while the operator is out.
 */
module MetricsSlots {
  import opened Options
  import opened CallQueues
  import opened QueueingMetrics
  import opened Interleavings
  import opened Ownership
  import opened InterleavingSafety

  /** The operator was free when the pool was last resized, or belongs to the pool as it was set up. */
  ghost predicate FreeAtLastResize(w: World, hs: seq<Happening>, op: nat) {
    if hs == [] then op in w.operators
    else if hs[|hs| - 1].Resized? then op in History(w, hs).free
    else FreeAtLastResize(w, hs[..|hs| - 1], op)
  }

  /** A resizing keeps the slots of the free operators only, so an operator that is out then has none from then on. */
  lemma {:induction false} SlotIff(now: int, wait: nat, capacity: nat, operators: set<nat>, hs: seq<Happening>, op: nat)
    ensures op in History(Initial(now, wait, capacity, operators), hs).servers <==>
      FreeAtLastResize(Initial(now, wait, capacity, operators), hs, op)
  {
    hide Run;
    var w := Initial(now, wait, capacity, operators);
    if hs != [] {
      var m := |hs| - 1;
      SlotIff(now, wait, capacity, operators, hs[..m], op);
      if !hs[m].Resized? { HappenServers(History(w, hs[..m]), hs[m]); }
    }
  }

  lemma {:induction false} ServersStay(now: int, wait: nat, capacity: nat, operators: set<nat>, hs: seq<Happening>)
    requires NeverResized(hs)
    ensures
      var w := History(Initial(now, wait, capacity, operators), hs); w.servers == operators && w.operators == operators
  {
    hide Run;
    var w := Initial(now, wait, capacity, operators);
    if hs != [] {
      var m := |hs| - 1;
      assert hs[m] in hs;
      ServersStay(now, wait, capacity, operators, hs[..m]);
      HappenServers(History(w, hs[..m]), hs[m]);
    }
  }

  lemma PushServers(w: World, t: nat, ch: Choice)
    requires t in w.threads
    ensures PushSteps(w, t, ch).servers == w.servers && PushSteps(w, t, ch).operators == w.operators
  {
    hide Queue.InsertToProcessing, Queue.Push, Queue.Pop, Queue.EraseTimeout, Queue.EraseFromProcessing;
    hide Queue.MinTimeout;
    hide Decrement, CallOf, Record;
  }

  lemma RejectServers(w: World, t: nat)
    requires t in w.threads
    ensures RejectSteps(w, t).servers == w.servers && RejectSteps(w, t).operators == w.operators
  {
    hide Queue.InsertToProcessing, Queue.Push, Queue.Pop, Queue.EraseTimeout, Queue.EraseFromProcessing;
    hide Queue.MinTimeout;
    hide Decrement, CallOf, Record;
  }

  lemma StartServers(w: World, t: nat, ch: Choice)
    requires t in w.threads
    ensures StartSteps(w, t, ch).servers == w.servers && StartSteps(w, t, ch).operators == w.operators
  {
    hide Queue.InsertToProcessing, Queue.Push, Queue.Pop, Queue.EraseTimeout, Queue.EraseFromProcessing;
    hide Queue.MinTimeout;
    hide Decrement, CallOf, Record;
  }

  lemma IterationServers(w: World, t: nat, ch: Choice)
    requires t in w.threads
    ensures IterationSteps(w, t, ch).servers == w.servers && IterationSteps(w, t, ch).operators == w.operators
  {
    hide Queue.InsertToProcessing, Queue.Push, Queue.Pop, Queue.EraseTimeout, Queue.EraseFromProcessing;
    hide Queue.MinTimeout;
    hide Decrement, CallOf, Record;
  }

  lemma FinishServers(w: World, t: nat)
    requires t in w.threads
    ensures FinishSteps(w, t).servers == w.servers && FinishSteps(w, t).operators == w.operators
  {
    hide Queue.InsertToProcessing, Queue.Push, Queue.Pop, Queue.EraseTimeout, Queue.EraseFromProcessing;
    hide Queue.MinTimeout;
    hide Decrement, CallOf, Record;
  }

  lemma HappenServers(w: World, h: Happening)
    requires !h.Resized?
    ensures Happen(w, h).servers == w.servers && Happen(w, h).operators == w.operators
  {
    hide PushSteps, RejectSteps, StartSteps, IterationSteps, FinishSteps;
    if h.Stepped? && h.t in w.threads {
      PushServers(w, h.t, h.ch);
      RejectServers(w, h.t);
      StartServers(w, h.t, h.ch);
      IterationServers(w, h.t, h.ch);
      FinishServers(w, h.t);
    }
  }

  /** As long as the pool keeps its size the assertion holds. */
  lemma SlotsHoldInFixedPool(now: int, wait: nat, capacity: nat, operators: set<nat>, hs: seq<Happening>, t: nat)
    requires Possible(Initial(now, wait, capacity, operators), hs) && NeverResized(hs)
    requires t in History(Initial(now, wait, capacity, operators), hs).threads
    ensures SlotHolds(History(Initial(now, wait, capacity, operators), hs), t)
  {
    hide Possible, History, Initial, CallsTied, StatusesFit, NoneStranded, Agrees;
    var w := History(Initial(now, wait, capacity, operators), hs);
    ServersStay(now, wait, capacity, operators, hs);
    var l := HistoryTied(now, wait, capacity, operators, hs);
    if w.threads[t].CountComplete? { assert HeldOperator(At(w, t)) == Some(w.threads[t].op); }
  }

  // A run in which it fails. The program resizes the pool as it takes an operator, or right after it got one back.

  predicate Takes(pc: Pc) { pc.TakeForBypass? || pc.TakeForQueue? }

  predicate GivesBack(pc: Pc) { pc.ReturnBypass? || pc.ReturnUnused? || pc.ReturnServed? }

  ghost predicate ResizedAtTake(w: World, hs: seq<Happening>, i: nat) {
    i + 1 < |hs| && hs[i + 1].Stepped? && Takes(At(History(w, hs[..i]), hs[i + 1].t))
  }

  ghost predicate ResizedAtReturn(w: World, hs: seq<Happening>, i: nat) {
    0 < i < |hs| && hs[i - 1].Stepped? && GivesBack(At(History(w, hs[..i - 1]), hs[i - 1].t))
  }

  ghost predicate ResizesAsProgram(w: World, hs: seq<Happening>) {
    forall i: nat :: i < |hs| && hs[i].Resized? ==> ResizedAtTake(w, hs, i) || ResizedAtReturn(w, hs, i)
  }

  lemma OneResize(w: World, before: seq<Happening>, resize: Happening, after: seq<Happening>)
    requires NeverResized(before) && NeverResized(after) && after != []
    requires after[0].Stepped? && Takes(At(History(w, before), after[0].t))
    ensures ResizesAsProgram(w, before + [resize] + after)
  {
    hide Takes, At, History;
    var hs := before + [resize] + after;
    var n := |before|;
    assert forall k :: 0 <= k < n ==> hs[k] == before[k] && before[k] in before;
    assert forall k :: n < k < |hs| ==> hs[k] == after[k - n - 1] && after[k - n - 1] in after;
    assert hs[..n] == before;
    assert ResizedAtTake(w, hs, n);
  }

  const SmallPool := Initial(0, 0, 10, {0})

  ghost predicate Ran(w: World, hs: seq<Happening>) { Leads(SmallPool, hs, w) }

  /** One more happening of the run. */
  lemma Next(w: World, hs: seq<Happening>, h: Happening) returns (w2: World, hs2: seq<Happening>)
    requires Ran(w, hs) && Enabled(w, h)
    ensures Ran(w2, hs2) && w2 == Happen(w, h) && hs2 == hs + [h]
    ensures NeverResized(hs) && !h.Resized? ==> NeverResized(hs2)
  {
    hide Happen, Enabled, Initial;
    hs2, w2 := hs + [h], Happen(w, h);
    LeadsOn(SmallPool, hs, w, h);
  }

  /** Nothing with a number from `t` on has appeared yet. */
  ghost predicate Unused(w: World, t: nat) { forall u :: u >= t ==> u !in w.threads && u !in w.records }

  /** What arriving leaves alone. */
  ghost predicate SamePool(w: World, w2: World) {
    && w2.now == w.now && w2.operators == w.operators && w2.free == w.free && w2.busy == w.busy
    && w2.finishes == w.finishes && w2.q == w.q
  }

  /** A call arrives while none waits, and its thread stands before the operators. */
  lemma ArriveFirst(w: World, hs: seq<Happening>, t: nat) returns (w2: World, hs2: seq<Happening>)
    requires Ran(w, hs) && NeverResized(hs) && Unused(w, t)
    ensures Ran(w2, hs2) && NeverResized(hs2) && Unused(w2, t + 1) && At(w2, t) == CountArrival(t) && SamePool(w, w2)
  {
    hide Ran, NeverResized, RejectSteps, StartSteps, IterationSteps, FinishSteps;
    w2, hs2 := Next(w, hs, Pushed(t, t, ""));
    w2, hs2 := Next(w2, hs2, Stepped(t, Choice(PickOf(w2), 0, 0)));
  }

  lemma ArriveThen(w: World, hs: seq<Happening>, t: nat) returns (w2: World, hs2: seq<Happening>)
    requires Ran(w, hs) && NeverResized(hs) && Unused(w, t + 1) && At(w, t) == CountArrival(t) && w.q.receipt == []
    ensures Ran(w2, hs2) && NeverResized(hs2) && Unused(w2, t + 1) && At(w2, t) == TakeForBypass(t) && SamePool(w, w2)
  {
    hide Ran, NeverResized, RejectSteps, StartSteps, IterationSteps, FinishSteps;
    w2, hs2 := Next(w, hs, Stepped(t, Choice(PickOf(w), 0, 0)));
    w2, hs2 := Next(w2, hs2, Stepped(t, Choice(PickOf(w2), 0, 0)));
  }

  /** Some free operator, if there is one. */
  ghost function PickOf(w: World): nat { if w.free == {} then 0 else var op :| op in w.free; op }

  ghost predicate OneOperator(w: World, free: set<nat>, busy: set<nat>, finishes: set<Finish>) {
    w.now == 0 && w.operators == {0} && w.free == free && w.busy == busy && w.finishes == finishes && w.q.receipt == []
  }

  lemma BypassOnce(w: World, hs: seq<Happening>) returns (w2: World, hs2: seq<Happening>)
    requires Ran(w, hs) && NeverResized(hs) && Unused(w, 1) && At(w, 0) == TakeForBypass(0)
    requires OneOperator(w, {0}, {}, {}) && w.q.processing == map[]
    ensures Ran(w2, hs2) && NeverResized(hs2) && Unused(w2, 1) && At(w2, 0) == Answer(0, 0)
      && OneOperator(w2, {}, {}, {})
  {
    hide Ran, NeverResized, RejectSteps, StartSteps, IterationSteps, FinishSteps;
    w2, hs2 := Next(w, hs, Stepped(0, Choice(0, 0, 0)));
    w2, hs2 := Next(w2, hs2, Stepped(0, Choice(0, 0, 0)));
  }

  lemma StartOnce(w: World, hs: seq<Happening>) returns (w2: World, hs2: seq<Happening>)
    requires Ran(w, hs) && NeverResized(hs) && Unused(w, 1) && At(w, 0) == Answer(0, 0) && OneOperator(w, {}, {}, {})
    ensures Ran(w2, hs2) && NeverResized(hs2) && Unused(w2, 1) && At(w2, 0) == TurnBusy(0, 0)
      && OneOperator(w2, {}, {}, {})
  {
    hide Ran, NeverResized, PushSteps, RejectSteps, IterationSteps, FinishSteps;
    w2, hs2 := Next(w, hs, Stepped(0, Choice(0, 0, 0)));
    w2, hs2 := Next(w2, hs2, Stepped(0, Choice(0, 0, 0)));
  }

  lemma PostOnce(w: World, hs: seq<Happening>) returns (w2: World, hs2: seq<Happening>)
    requires Ran(w, hs) && NeverResized(hs) && Unused(w, 1) && At(w, 0) == TurnBusy(0, 0) && OneOperator(w, {}, {}, {})
    ensures Ran(w2, hs2) && NeverResized(hs2) && Unused(w2, 1) && OneOperator(w2, {}, {0}, {Finish(0, 0, 0)})
  {
    hide Ran, NeverResized, PushSteps, RejectSteps, IterationSteps, FinishSteps;
    w2, hs2 := Next(w, hs, Stepped(0, Choice(0, 0, 0)));
    w2, hs2 := Next(w2, hs2, Stepped(0, Choice(0, 0, 0)));
  }

  /** The only operator serves a call, and a second call is about to look for an operator. */
  lemma SecondCallArrives() returns (w: World, hs: seq<Happening>)
    ensures Ran(w, hs) && NeverResized(hs) && Unused(w, 2) && At(w, 1) == TakeForBypass(1)
    ensures OneOperator(w, {}, {0}, {Finish(0, 0, 0)})
  {
    hide Ran, At, History;
    w, hs := SmallPool, [];
    assert Ran(w, hs) by { NothingHappened(); }
    w, hs := ArriveFirst(w, hs, 0);
    w, hs := ArriveThen(w, hs, 0);
    w, hs := BypassOnce(w, hs);
    w, hs := StartOnce(w, hs);
    w, hs := PostOnce(w, hs);
    w, hs := ArriveFirst(w, hs, 1);
    w, hs := ArriveThen(w, hs, 1);
  }

  lemma NothingHappened()
    ensures Ran(SmallPool, [])
  {
  }

  /** The pool grows as the second call looks for an operator, and takes the new one. */
  lemma PoolGrows(w: World, hs: seq<Happening>) returns (w2: World, hs2: seq<Happening>)
    requires Ran(w, hs) && Unused(w, 2) && At(w, 1) == TakeForBypass(1) && OneOperator(w, {}, {0}, {Finish(0, 0, 0)})
    ensures Ran(w2, hs2) && hs2 == hs + [Resized({1}, {})] + [Stepped(1, Choice(1, 0, 0))]
    ensures Unused(w2, 2) && w2.now == 0 && w2.free == {} && w2.servers == {1} && w2.finishes == {Finish(0, 0, 0)}
  {
    hide Ran, RejectSteps, StartSteps, IterationSteps, FinishSteps;
    w2, hs2 := Next(w, hs, Resized({1}, {}));
    w2, hs2 := Next(w2, hs2, Stepped(1, Choice(1, 0, 0)));
  }

  lemma ServiceFires(w: World, hs: seq<Happening>) returns (w2: World, hs2: seq<Happening>)
    requires Ran(w, hs) && Unused(w, 2) && w.now == 0 && w.free == {} && w.servers == {1}
      && w.finishes == {Finish(0, 0, 0)}
    ensures Ran(w2, hs2) && hs2 == hs + [FinishDue(2, Finish(0, 0, 0))]
    ensures At(w2, 2) == TurnFree(0, 0) && w2.free == {} && w2.servers == {1}
  {
    hide Ran, Run;
    w2, hs2 := Next(w, hs, FinishDue(2, Finish(0, 0, 0)));
  }

  lemma ServiceEnds(w: World, hs: seq<Happening>) returns (w2: World, hs2: seq<Happening>)
    requires Ran(w, hs) && Unused(w, 2) && w.now == 0 && w.free == {} && w.servers == {1}
      && w.finishes == {Finish(0, 0, 0)}
    ensures Ran(w2, hs2) && 2 in w2.threads && !SlotHolds(w2, 2)
    ensures hs2 == hs + [FinishDue(2, Finish(0, 0, 0)), Stepped(2, Choice(0, 0, 0)), Stepped(2, Choice(0, 0, 0))]
  {
    hide Ran, PushSteps, RejectSteps, IterationSteps, StartSteps;
    w2, hs2 := ServiceFires(w, hs);
    w2, hs2 := Next(w2, hs2, Stepped(2, Choice(0, 0, 0)));
    w2, hs2 := Next(w2, hs2, Stepped(2, Choice(0, 0, 0)));
  }

  /**
   Otherwise it can fail: the pool grows as a call looks for an operator while another operator is out, whose slot is
   gone when it finishes.
   */
  lemma SlotCanBeLost() returns (hs: seq<Happening>)
    ensures Possible(Initial(0, 0, 10, {0}), hs) && ResizesAsProgram(Initial(0, 0, 10, {0}), hs)
    ensures var w := History(Initial(0, 0, 10, {0}), hs); 2 in w.threads && !SlotHolds(w, 2)
  {
    hide History, At, SlotHolds, Possible;
    var w, before := SecondCallArrives();
    var w2, hs2 := PoolGrows(w, before);
    var w3, hs3 := ServiceEnds(w2, hs2);
    var after := [Stepped(1, Choice(1, 0, 0)), FinishDue(2, Finish(0, 0, 0)),
                  Stepped(2, Choice(0, 0, 0)), Stepped(2, Choice(0, 0, 0))];
    assert hs3 == before + [Resized({1}, {})] + after;
    OneResize(SmallPool, before, Resized({1}, {}), after);
    hs := hs3;
  }
}
