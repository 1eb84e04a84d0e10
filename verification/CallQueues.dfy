/**
 The call queue: one collection of waiting calls kept in two orders at once, and the set of phone
 numbers entered for calls in service. A multiset is the sequence of its elements in iteration order: equal keys keep
 their insertion order and a new element goes behind its equals.
 */
module CallQueues {
  import opened Options
  import opened Sequences

  /** A call that has arrived and waits: the part of its record that no longer changes. */
  datatype Call = Call(id: nat, phone: string, arrival: int, maxWait: nat) {
    function Timeout(): int { arrival + 1000 * maxWait }
  }

  datatype Order = ReceiptOrder | TimeoutPointOrder

  function Key(o: Order, c: Call): int {
    match o
    case ReceiptOrder => c.arrival
    case TimeoutPointOrder => c.Timeout()
  }

  ghost predicate Sorted(o: Order, s: seq<Call>) {
    forall i, j :: 0 <= i < j < |s| ==> Key(o, s[i]) <= Key(o, s[j])
  }

  predicate Matches(o: Order, a: Call, b: Call) {
    Key(o, a) == Key(o, b) && a.phone == b.phone
  }

  /** The first position behind every element whose key is at most `k`. */
  function UpperBound(o: Order, s: seq<Call>, k: int): (n: nat)
    ensures n <= |s|
    ensures forall i :: 0 <= i < n ==> Key(o, s[i]) <= k
    ensures n < |s| ==> Key(o, s[n]) > k
  {
    if s == [] || Key(o, s[0]) > k then 0 else 1 + UpperBound(o, s[1..], k)
  }

  function Emplace(o: Order, s: seq<Call>, c: Call): seq<Call> {
    InsertAt(s, UpperBound(o, s, Key(o, c)), c)
  }

  /** The position of the first element equal to `c` in key and phone; the length if there is none. */
  function FirstMatch(o: Order, s: seq<Call>, c: Call): (n: nat)
    ensures n <= |s|
    ensures forall i :: 0 <= i < n ==> !Matches(o, s[i], c)
    ensures n < |s| ==> Matches(o, s[n], c)
  {
    if s == [] || Matches(o, s[0], c) then 0 else 1 + FirstMatch(o, s[1..], c)
  }

  function EraseFirst(o: Order, s: seq<Call>, c: Call): seq<Call> {
    var i := FirstMatch(o, s, c);
    if i < |s| then RemoveAt(s, i) else s
  }

  predicate HasMatch(o: Order, s: seq<Call>, c: Call) { FirstMatch(o, s, c) < |s| }

  datatype PushResult = Accepted | AlreadyQueued | Overloaded

  /** The four fields of the queue object. */
  datatype Queue = Queue(receipt: seq<Call>, timeouts: seq<Call>, processing: map<string, Call>, capacity: nat) {
    predicate Contains(c: Call) { HasMatch(ReceiptOrder, receipt, c) || c.phone in processing }

    function Insert(c: Call): Queue {
      this.(receipt := Emplace(ReceiptOrder, receipt, c), timeouts := Emplace(TimeoutPointOrder, timeouts, c))
    }

    function Erase(c: Call): Queue {
      this.(receipt := EraseFirst(ReceiptOrder, receipt, c), timeouts := EraseFirst(TimeoutPointOrder, timeouts, c))
    }

    function Push(c: Call, configured: nat): (PushResult, Queue) {
      var q := this.(capacity := configured);
      if Contains(c) then (AlreadyQueued, q)
      else if |receipt| >= configured then (Overloaded, q)
      else (Accepted, q.Insert(c))
    }

    function Pop(): (Option<Call>, Queue) {
      if receipt == [] then (None, this) else (Some(receipt[0]), Erase(receipt[0]))
    }

    /** The source reads the first element of the timeout index whenever the receipt index is not empty. */
    function MinTimeout(): Option<Call> {
      if receipt == [] || timeouts == [] then None else Some(timeouts[0])
    }

    function EraseTimeout(now: int): (Option<Call>, Queue) {
      match MinTimeout()
      case None => (None, this)
      case Some(least) => if now >= least.Timeout() then (Some(least), Erase(least)) else (None, this)
    }

    function InsertToProcessing(c: Call): (bool, Queue) {
      if Contains(c) then (false, this) else (true, this.(processing := processing[c.phone := c]))
    }

    function EraseFromProcessing(c: Call): Queue {
      this.(processing := processing - {c.phone})
    }
  }

  // ---------------------------------------------------------------------------------------------
  // Agreement of the two indices
  // ---------------------------------------------------------------------------------------------

  /** Both indices hold the same call objects. */
  ghost predicate SameCalls(q: Queue) { multiset(q.receipt) == multiset(q.timeouts) }

  ghost predicate UniqueByArrival(s: seq<Call>) {
    forall i, j :: 0 <= i < j < |s| ==> !Matches(ReceiptOrder, s[i], s[j])
  }

  /** Calls an erasure in the timeout index could confuse stand there in the order of their arrival. */
  ghost predicate TiesInArrivalOrder(s: seq<Call>) {
    forall i, j :: 0 <= i < j < |s| && Matches(TimeoutPointOrder, s[i], s[j]) ==> s[i].arrival < s[j].arrival
  }

  ghost predicate Agrees(q: Queue) {
    && SameCalls(q)
    && Sorted(ReceiptOrder, q.receipt)
    && Sorted(TimeoutPointOrder, q.timeouts)
    && UniqueByArrival(q.receipt)
    && TiesInArrivalOrder(q.timeouts)
  }

  /** The numbers entered have no part in it. */
  lemma SameIndicesAgree(q: Queue, r: Queue)
    requires Agrees(q) && r.receipt == q.receipt && r.timeouts == q.timeouts
    ensures Agrees(r)
  {
  }

  /** No waiting call with the same phone and timeout point has arrived later than `c`. */
  ghost predicate InsertSafe(q: Queue, c: Call) {
    forall d :: d in q.receipt && Matches(TimeoutPointOrder, d, c) ==> d.arrival <= c.arrival
  }

  lemma EmplaceElements(o: Order, s: seq<Call>, c: Call)
    ensures multiset(Emplace(o, s, c)) == multiset(s) + multiset{c}
    ensures |Emplace(o, s, c)| == |s| + 1
    ensures Sorted(o, s) ==> Sorted(o, Emplace(o, s, c))
  {
    if Sorted(o, s) { EmplaceSorted(o, s, c); }
  }

  lemma EmplaceSorted(o: Order, s: seq<Call>, c: Call)
    requires Sorted(o, s)
    ensures Sorted(o, Emplace(o, s, c))
  {
    var n := UpperBound(o, s, Key(o, c));
    var r := Emplace(o, s, c);
    assert forall k :: n <= k < |s| ==> Key(o, c) <= Key(o, s[k]) by {
      assert forall k :: n < k < |s| ==> Key(o, s[n]) <= Key(o, s[k]);
    }
    forall i, j | 0 <= i < j < |r| ensures Key(o, r[i]) <= Key(o, r[j]) {
      var a, b := if i < n then i else i - 1, if j < n then j else j - 1;
      if j == n {
        assert r[i] == s[i];
      } else if i == n {
        assert r[j] == s[b];
      } else {
        assert r[i] == s[a] && r[j] == s[b];
      }
    }
  }

  lemma SameElements(q: Queue)
    requires SameCalls(q)
    ensures |q.receipt| == |q.timeouts|
    ensures forall c :: c in q.receipt <==> c in q.timeouts
  {
    assert |multiset(q.receipt)| == |multiset(q.timeouts)|;
    forall c ensures c in q.receipt <==> c in q.timeouts {
      assert c in q.receipt <==> c in multiset(q.receipt);
      assert c in q.timeouts <==> c in multiset(q.timeouts);
    }
  }

  /** In the receipt index a match is the call itself, so the first match is too. */
  lemma FirstMatchInReceipt(s: seq<Call>, i: nat)
    requires UniqueByArrival(s) && i < |s|
    ensures FirstMatch(ReceiptOrder, s, s[i]) == i
  {
    assert Matches(ReceiptOrder, s[i], s[i]);
    assert forall a :: 0 <= a < i ==> !Matches(ReceiptOrder, s[a], s[i]);
  }

  lemma RemoveKeepsOrder(o: Order, s: seq<Call>, i: nat)
    requires i < |s|
    ensures Sorted(o, s) ==> Sorted(o, RemoveAt(s, i))
    ensures UniqueByArrival(s) ==> UniqueByArrival(RemoveAt(s, i))
    ensures TiesInArrivalOrder(s) ==> TiesInArrivalOrder(RemoveAt(s, i))
  {
    var r := RemoveAt(s, i);
    forall j | 0 <= j < |r| ensures r[j] == s[if j < i then j else j + 1] {}
  }

  /** Erasing the call at `i` of the receipt index, which stands at `k` of the timeout index. */
  lemma EraseAgrees(q: Queue, i: nat, k: nat)
    requires Agrees(q) && i < |q.receipt| && k < |q.timeouts| && q.timeouts[k] == q.receipt[i]
    requires FirstMatch(TimeoutPointOrder, q.timeouts, q.receipt[i]) == k
    ensures var c := q.receipt[i];
            q.Erase(c) == q.(receipt := RemoveAt(q.receipt, i), timeouts := RemoveAt(q.timeouts, k))
    ensures Agrees(q.Erase(q.receipt[i]))
  {
    FirstMatchInReceipt(q.receipt, i);
    RemoveKeepsOrder(ReceiptOrder, q.receipt, i);
    RemoveKeepsOrder(TimeoutPointOrder, q.timeouts, k);
  }

  /** A call in both indices, the earliest arrival among its timeout ties, is found first. */
  lemma FirstMatchOfEarliest(s: seq<Call>, c: Call) returns (k: nat)
    requires TiesInArrivalOrder(s) && c in s
    requires forall d :: d in s ==> c.arrival <= d.arrival
    ensures k < |s| && s[k] == c && FirstMatch(TimeoutPointOrder, s, c) == k
  {
    k :| 0 <= k < |s| && s[k] == c;
    assert Matches(TimeoutPointOrder, s[k], c);
    assert forall a :: 0 <= a < k ==> s[a] in s && !Matches(TimeoutPointOrder, s[a], c);
  }

  lemma PopAgrees(q: Queue) returns (k: nat)
    requires Agrees(q) && q.receipt != []
    ensures k < |q.timeouts| && q.timeouts[k] == q.receipt[0]
    ensures q.Pop() == (Some(q.receipt[0]), q.(receipt := q.receipt[1..], timeouts := RemoveAt(q.timeouts, k)))
    ensures Agrees(q.Pop().1)
    ensures forall d :: d in q.receipt ==> q.receipt[0].arrival <= d.arrival
  {
    var c := q.receipt[0];
    SameElements(q);
    assert c in q.receipt;
    forall d | d in q.receipt ensures c.arrival <= d.arrival {
      var j :| 0 <= j < |q.receipt| && q.receipt[j] == d;
      if j > 0 { assert Key(ReceiptOrder, q.receipt[0]) <= Key(ReceiptOrder, q.receipt[j]); }
    }
    k := FirstMatchOfEarliest(q.timeouts, c);
    EraseAgrees(q, 0, k);
    assert RemoveAt(q.receipt, 0) == q.receipt[1..];
  }

  lemma MinTimeoutIsLeast(q: Queue)
    requires Agrees(q) && q.receipt != []
    ensures q.timeouts != [] && q.timeouts[0] in q.receipt
    ensures q.MinTimeout() == Some(q.timeouts[0])
    ensures forall d :: d in q.receipt ==> q.timeouts[0].Timeout() <= d.Timeout()
  {
    SameElements(q);
    assert q.timeouts[0] in q.timeouts;
    forall d | d in q.receipt ensures q.timeouts[0].Timeout() <= d.Timeout() {
      assert d in q.timeouts;
      var j :| 0 <= j < |q.timeouts| && q.timeouts[j] == d;
      if j > 0 { assert Key(TimeoutPointOrder, q.timeouts[0]) <= Key(TimeoutPointOrder, q.timeouts[j]); }
    }
  }

  lemma EraseLeastAgrees(q: Queue) returns (i: nat)
    requires Agrees(q) && q.receipt != []
    ensures q.timeouts != [] && i < |q.receipt| && q.receipt[i] == q.timeouts[0]
    ensures q.Erase(q.timeouts[0]) == q.(receipt := RemoveAt(q.receipt, i), timeouts := q.timeouts[1..])
    ensures Agrees(q.Erase(q.timeouts[0]))
  {
    SameElements(q);
    assert q.timeouts[0] in q.timeouts;
    i :| 0 <= i < |q.receipt| && q.receipt[i] == q.timeouts[0];
    assert FirstMatch(TimeoutPointOrder, q.timeouts, q.receipt[i]) == 0;
    EraseAgrees(q, i, 0);
    assert RemoveAt(q.timeouts, 0) == q.timeouts[1..];
  }

  lemma EraseTimeoutAgrees(q: Queue, now: int) returns (i: nat)
    requires Agrees(q)
    ensures Agrees(q.EraseTimeout(now).1)
    ensures q.EraseTimeout(now).0.None? ==>
      q.EraseTimeout(now).1 == q && (forall d :: d in q.receipt ==> now < d.Timeout())
    ensures q.EraseTimeout(now).0.Some? ==>
      && i < |q.receipt| && q.timeouts != [] && q.receipt[i] == q.timeouts[0] == q.EraseTimeout(now).0.value
      && q.EraseTimeout(now).1 == q.(receipt := RemoveAt(q.receipt, i), timeouts := q.timeouts[1..])
      && q.receipt[i].Timeout() <= now
      && (forall d :: d in q.receipt ==> q.receipt[i].Timeout() <= d.Timeout())
  {
    i := 0;
    if q.receipt != [] {
      MinTimeoutIsLeast(q);
      i := EraseLeastAgrees(q);
    }
  }

  lemma AcceptedIndices(q: Queue, c: Call, configured: nat)
    requires Agrees(q) && q.Push(c, configured).0 == Accepted
    ensures var r := q.Push(c, configured).1;
      && r.receipt == Emplace(ReceiptOrder, q.receipt, c) && r.timeouts == Emplace(TimeoutPointOrder, q.timeouts, c)
      && SameCalls(r) && Sorted(ReceiptOrder, r.receipt) && Sorted(TimeoutPointOrder, r.timeouts)
        && UniqueByArrival(r.receipt)
  {
    hide Emplace, Sorted, UniqueByArrival;
    EmplaceElements(ReceiptOrder, q.receipt, c);
    EmplaceElements(TimeoutPointOrder, q.timeouts, c);
    InsertUnique(q.receipt, c);
  }

  /** An accepted call keeps the ties of the timeout index in arrival order exactly when no such call arrived later. */
  lemma PushAgreesIff(q: Queue, c: Call, configured: nat)
    requires Agrees(q) && q.Push(c, configured).0 == Accepted
    ensures Agrees(q.Push(c, configured).1) <==> InsertSafe(q, c)
  {
    hide Queue.Push, Emplace, Sorted, UniqueByArrival, TiesInArrivalOrder, SameCalls;
    AcceptedIndices(q, c, configured);
    if InsertSafe(q, c) {
      forall d | d in q.timeouts && Matches(TimeoutPointOrder, d, c) ensures d.arrival < c.arrival {
        TieArrivedEarlier(q, c, configured, d);
      }
      InsertTies(q.timeouts, c);
    } else {
      var d :| d in q.receipt && Matches(TimeoutPointOrder, d, c) && d.arrival > c.arrival;
      SameElements(q);
      InsertBreaksTies(q.timeouts, c, d);
    }
  }

  lemma TieArrivedEarlier(q: Queue, c: Call, configured: nat, d: Call)
    requires Agrees(q) && q.Push(c, configured).0 == Accepted && InsertSafe(q, c)
    requires d in q.timeouts && Matches(TimeoutPointOrder, d, c)
    ensures d.arrival < c.arrival
  {
    hide Sorted, UniqueByArrival, TiesInArrivalOrder;
    SameElements(q);
    var k :| 0 <= k < |q.receipt| && q.receipt[k] == d;
    assert !Matches(ReceiptOrder, q.receipt[k], c);
  }

  lemma InsertUnique(s: seq<Call>, c: Call)
    requires UniqueByArrival(s) && !HasMatch(ReceiptOrder, s, c)
    ensures UniqueByArrival(Emplace(ReceiptOrder, s, c))
  {
    var n := UpperBound(ReceiptOrder, s, c.arrival);
    var r := Emplace(ReceiptOrder, s, c);
    assert forall k :: 0 <= k < |r| ==> r[k] == if k < n then s[k] else if k == n then c else s[k - 1];
    assert forall k :: 0 <= k < |s| ==> !Matches(ReceiptOrder, s[k], c);
  }

  lemma InsertTies(s: seq<Call>, c: Call)
    requires Sorted(TimeoutPointOrder, s) && TiesInArrivalOrder(s)
    requires forall d :: d in s && Matches(TimeoutPointOrder, d, c) ==> d.arrival < c.arrival
    ensures TiesInArrivalOrder(Emplace(TimeoutPointOrder, s, c))
  {
    hide Emplace, Matches, Sorted;
    var t := Emplace(TimeoutPointOrder, s, c);
    forall i, j | 0 <= i < j < |t| && Matches(TimeoutPointOrder, t[i], t[j]) ensures t[i].arrival < t[j].arrival {
      TieAfterInsert(s, c, i, j);
    }
  }

  lemma TieAfterInsert(s: seq<Call>, c: Call, i: nat, j: nat)
    requires Sorted(TimeoutPointOrder, s) && TiesInArrivalOrder(s)
    requires forall d :: d in s && Matches(TimeoutPointOrder, d, c) ==> d.arrival < c.arrival
    requires var t := Emplace(TimeoutPointOrder, s, c); i < j < |t| && Matches(TimeoutPointOrder, t[i], t[j])
    ensures var t := Emplace(TimeoutPointOrder, s, c); t[i].arrival < t[j].arrival
  {
    var n := UpperBound(TimeoutPointOrder, s, c.Timeout());
    var t := Emplace(TimeoutPointOrder, s, c);
    if j == n {
      assert t[i] == s[i] && s[i] in s;
    } else {
      var b := if j < n then j else j - 1;
      assert t[j] == s[b];
      if i == n {
        assert t[i] == c && n <= b;
        SortedFrom(s, n, b);
      } else {
        var a := if i < n then i else i - 1;
        assert t[i] == s[a] && a < b;
      }
    }
  }

  lemma SortedFrom(s: seq<Call>, a: nat, b: nat)
    requires Sorted(TimeoutPointOrder, s) && a <= b < |s|
    ensures s[a].Timeout() <= s[b].Timeout()
  {
    assert a < b ==> Key(TimeoutPointOrder, s[a]) <= Key(TimeoutPointOrder, s[b]);
  }

  lemma InsertBreaksTies(s: seq<Call>, c: Call, d: Call)
    requires Sorted(TimeoutPointOrder, s) && d in s && Matches(TimeoutPointOrder, d, c) && d.arrival > c.arrival
    ensures !TiesInArrivalOrder(Emplace(TimeoutPointOrder, s, c))
  {
    var n := UpperBound(TimeoutPointOrder, s, c.Timeout());
    var k :| 0 <= k < |s| && s[k] == d;
    var t := Emplace(TimeoutPointOrder, s, c);
    assert forall a :: n <= a < |s| ==> Key(TimeoutPointOrder, s[a]) > c.Timeout();
    assert t[k] == d && t[n] == c;
  }

  /** The first of the two circumstances under which every push is safe: a clock that never runs back. */
  lemma LatestArrivalIsSafe(q: Queue, c: Call)
    requires forall d :: d in q.receipt ==> d.arrival <= c.arrival
    ensures InsertSafe(q, c)
    ensures Emplace(ReceiptOrder, q.receipt, c) == q.receipt + [c]
  {
    assert forall a :: 0 <= a < |q.receipt| ==>
      q.receipt[a] in q.receipt && Key(ReceiptOrder, q.receipt[a]) <= c.arrival;
  }

  /** The second: one longest wait for all calls, whatever the order of the pushes. */
  lemma OneWaitIsSafe(q: Queue, c: Call)
    requires forall d :: d in q.receipt ==> d.maxWait == c.maxWait
    ensures InsertSafe(q, c)
  {
  }

  // ---------------------------------------------------------------------------------------------
  // Every sequence of operations
  // ---------------------------------------------------------------------------------------------

  datatype Operation =
    | DoPush(c: Call, configured: nat)
    | DoPop
    | DoEraseTimeout(now: int)
    | DoInsertToProcessing(c: Call)
    | DoEraseFromProcessing(c: Call)

  function Do(q: Queue, op: Operation): Queue {
    match op
    case DoPush(c, configured) => q.Push(c, configured).1
    case DoPop => q.Pop().1
    case DoEraseTimeout(now) => q.EraseTimeout(now).1
    case DoInsertToProcessing(c) => q.InsertToProcessing(c).1
    case DoEraseFromProcessing(c) => q.EraseFromProcessing(c)
  }

  function DoAll(q: Queue, ops: seq<Operation>): Queue {
    if ops == [] then q else Do(DoAll(q, ops[..|ops| - 1]), ops[|ops| - 1])
  }

  const DefaultCapacity: nat := 10

  function EmptyQueue(capacity: nat): Queue { Queue([], [], map[], capacity) }

  /** Pushes come in the order of arrival; the longest waits are arbitrary. */
  ghost predicate PushesInArrivalOrder(ops: seq<Operation>) {
    forall i, j :: 0 <= i < j < |ops| && ops[i].DoPush? && ops[j].DoPush? ==> ops[i].c.arrival <= ops[j].c.arrival
  }

  ghost predicate ExpiresFirst(s: seq<Call>, i: nat, now: int)
    requires i < |s|
  {
    s[i].Timeout() <= now && forall d :: d in s ==> s[i].Timeout() <= d.Timeout()
  }

  /** One step of the queue seen as a single list in order of arrival. */
  ghost predicate ListStep(before: seq<Call>, op: Operation, after: seq<Call>) {
    match op
    case DoPush(c, _) => after == before || after == before + [c]
    case DoPop => after == if before == [] then [] else before[1..]
    case DoEraseTimeout(now) =>
      if forall d :: d in before ==> now < d.Timeout() then after == before
      else exists i: nat :: i < |before| && after == RemoveAt(before, i) && ExpiresFirst(before, i, now)
    case _ => after == before
  }

  /**
   Whatever the queue is asked to do, as long as calls are pushed in the order of their arrival the two
   indices hold the same call objects, and the pair behaves as one list: a push appends, a pop takes the
   head, a timeout erasure takes a call with the least timeout point.
   */
  lemma {:induction false} IndicesAgree(capacity: nat, ops: seq<Operation>)
    requires PushesInArrivalOrder(ops)
    ensures Agrees(DoAll(EmptyQueue(capacity), ops))
    ensures forall d :: d in DoAll(EmptyQueue(capacity), ops).receipt ==>
              exists i :: 0 <= i < |ops| && ops[i].DoPush? && ops[i].c == d
    ensures ops != [] ==>
      var m := |ops| - 1;
      ListStep(DoAll(EmptyQueue(capacity), ops[..m]).receipt, ops[m], DoAll(EmptyQueue(capacity), ops).receipt)
  {
    if ops != [] {
      var m := |ops| - 1;
      var before := DoAll(EmptyQueue(capacity), ops[..m]);
      var q := DoAll(EmptyQueue(capacity), ops);
      IndicesAgree(capacity, ops[..m]);
      assert forall i :: 0 <= i < m ==> ops[..m][i] == ops[i];
      assert q == Do(before, ops[m]);
      OperationRefines(before, ops[m]);
      forall d | d in q.receipt
        ensures exists i :: 0 <= i < |ops| && ops[i].DoPush? && ops[i].c == d
      {
        if d !in before.receipt { assert ops[m].DoPush? && ops[m].c == d; }
      }
    }
  }

  /** One operation keeps the agreement, is a step of the single list and brings in no call of its own. */
  ghost predicate Refines(q: Queue, op: Operation) {
    && Agrees(Do(q, op))
    && ListStep(q.receipt, op, Do(q, op).receipt)
    && (forall d :: d in Do(q, op).receipt ==> d in q.receipt || (op.DoPush? && d == op.c))
  }

  lemma {:induction false} OperationRefines(q: Queue, op: Operation)
    requires Agrees(q)
    requires op.DoPush? ==> forall d :: d in q.receipt ==> d.arrival <= op.c.arrival
    ensures Refines(q, op)
  {
    hide Refines;
    match op
    case DoPush(c, configured) => PushRefines(q, c, configured);
    case DoPop => PopRefines(q);
    case DoEraseTimeout(now) => EraseTimeoutRefines(q, now);
    case DoInsertToProcessing(c) => ProcessingRefines(q, op);
    case DoEraseFromProcessing(c) => ProcessingRefines(q, op);
  }

  lemma ProcessingRefines(q: Queue, op: Operation)
    requires Agrees(q) && (op.DoInsertToProcessing? || op.DoEraseFromProcessing?)
    ensures Refines(q, op)
  {
    var r := Do(q, op);
    assert r.receipt == q.receipt && r.timeouts == q.timeouts;
  }

  lemma PushRefines(q: Queue, c: Call, configured: nat)
    requires Agrees(q) && forall d :: d in q.receipt ==> d.arrival <= c.arrival
    ensures Refines(q, DoPush(c, configured))
    ensures
      var (result, r) := q.Push(c, configured); r.receipt == if result == Accepted then q.receipt + [c] else q.receipt
  {
    hide Agrees, Emplace;
    LatestArrivalIsSafe(q, c);
    if q.Push(c, configured).0 == Accepted {
      PushAgreesIff(q, c, configured);
    } else {
      SameIndicesAgree(q, q.Push(c, configured).1);
    }
  }

  lemma PopRefines(q: Queue)
    requires Agrees(q)
    ensures Refines(q, DoPop)
  {
    hide Agrees;
    if q.receipt != [] { var _ := PopAgrees(q); }
  }

  lemma PopMembers(q: Queue)
    requires Agrees(q)
    ensures Agrees(q.Pop().1) && forall d :: d in q.Pop().1.receipt ==> d in q.receipt
    ensures q.Pop().0.Some? <==> q.receipt != []
  {
    hide Agrees;
    if q.receipt != [] {
      var k := PopAgrees(q);
      assert forall d :: d in q.receipt[1..] ==> d in q.receipt;
    }
  }

  lemma EraseTimeoutRefines(q: Queue, now: int)
    requires Agrees(q)
    ensures Refines(q, DoEraseTimeout(now))
  {
    hide Agrees;
    var i := EraseTimeoutAgrees(q, now);
    if q.EraseTimeout(now).0.Some? { EraseTimeoutStep(q, now, i); }
  }

  lemma EraseTimeoutStep(q: Queue, now: int, i: nat)
    requires Agrees(q) && Agrees(q.EraseTimeout(now).1) && i < |q.receipt|
      && q.EraseTimeout(now).1.receipt == RemoveAt(q.receipt, i)
    requires ExpiresFirst(q.receipt, i, now)
    ensures Refines(q, DoEraseTimeout(now))
  {
    hide Agrees, Queue.EraseTimeout;
    MembersOfRemoveAt(q.receipt, i);
    assert q.receipt[i] in q.receipt && !(now < q.receipt[i].Timeout());
  }

  lemma NothingErased(q: Queue, now: int)
    requires q.EraseTimeout(now).0.None?
    ensures q.EraseTimeout(now).1 == q
  {
  }

  /** An erased call had waited, its time was up, and the others stay. */
  lemma EraseTimeoutMembers(q: Queue, now: int)
    requires Agrees(q) && q.EraseTimeout(now).0.Some?
    ensures var (c, r) := q.EraseTimeout(now);
      && Agrees(r) && c.value in q.receipt && c.value.Timeout() <= now
      && |r.receipt| + 1 == |q.receipt|
      && forall d :: d in r.receipt ==> d in q.receipt
  {
    hide Agrees;
    var i := EraseTimeoutAgrees(q, now);
    assert q.receipt[i] in q.receipt;
    MembersOfRemoveAt(q.receipt, i);
  }

  /**
   Who is let in: a number entered or waiting from the same millisecond is a duplicate, whether there is room
   or not; otherwise the number of waiting calls decides.
   */
  lemma PushAdmitsIff(q: Queue, c: Call, configured: nat)
    ensures
      var twin := exists d :: d in q.receipt && d.phone == c.phone && d.arrival == c.arrival;
      var duplicate := c.phone in q.processing || twin;
      && (q.Push(c, configured).0 == AlreadyQueued <==> duplicate)
      && (q.Push(c, configured).0 == Overloaded <==> !duplicate && |q.receipt| >= configured)
      && (q.Push(c, configured).0 == Accepted <==> !duplicate && |q.receipt| < configured)
  {
    if d :| d in q.receipt && d.phone == c.phone && d.arrival == c.arrival {
      var j :| 0 <= j < |q.receipt| && q.receipt[j] == d;
      assert Matches(ReceiptOrder, q.receipt[j], c);
    }
  }

  /** No more calls wait than were ever allowed to, in whatever order and with whatever waits they are pushed. */
  lemma {:induction false} NeverOverfull(capacity: nat, ops: seq<Operation>, bound: nat)
    requires forall op :: op in ops && op.DoPush? ==> op.configured <= bound
    ensures |DoAll(EmptyQueue(capacity), ops).receipt| <= bound
  {
    if ops != [] {
      var m := |ops| - 1;
      assert ops[m] in ops && forall op :: op in ops[..m] ==> op in ops;
      NeverOverfull(capacity, ops[..m], bound);
      OperationSize(DoAll(EmptyQueue(capacity), ops[..m]), ops[m]);
    }
  }

  /** Only an accepted push makes the queue longer, by one, and only below the configured number. */
  lemma {:induction false} OperationSize(q: Queue, op: Operation)
    ensures |Do(q, op).receipt| <= |q.receipt|
         || (op.DoPush? && |Do(q, op).receipt| == |q.receipt| + 1 <= op.configured)
  {
    hide FirstMatch, UpperBound;
  }

  // ---------------------------------------------------------------------------------------------
  // Exactly when a push makes the indices part
  // ---------------------------------------------------------------------------------------------

  ghost predicate NoPushes(ops: seq<Operation>) { forall op :: op in ops ==> !op.DoPush? }

  /** Two waiting calls that stand in the timeout index against the order of their arrival. */
  ghost predicate BadTie(q: Queue, c: Call, d: Call, i: nat, j: nat) {
    && SameCalls(q) && Sorted(ReceiptOrder, q.receipt) && UniqueByArrival(q.receipt)
    && Matches(TimeoutPointOrder, d, c) && c.arrival < d.arrival
    && i < j < |q.timeouts| && q.timeouts[i] == d && q.timeouts[j] == c
  }

  lemma {:induction false} UniqueCounts(s: seq<Call>, x: Call)
    requires UniqueByArrival(s)
    ensures multiset(s)[x] <= 1
  {
    if s != [] {
      var m := |s| - 1;
      assert s == s[..m] + [s[m]];
      UniqueCounts(s[..m], x);
      assert forall k :: 0 <= k < m ==> s[..m][k] == s[k] && !Matches(ReceiptOrder, s[k], s[m]);
      assert x == s[m] ==> x !in s[..m];
    }
  }

  /** A pop takes the head out of the receipt index and the first match of it out of the timeout index. */
  lemma PopTakes(q: Queue) returns (k: nat)
    requires SameCalls(q) && UniqueByArrival(q.receipt) && q.receipt != []
    ensures k < |q.timeouts| && Matches(TimeoutPointOrder, q.timeouts[k], q.receipt[0])
    ensures forall n :: 0 <= n < k ==> !Matches(TimeoutPointOrder, q.timeouts[n], q.receipt[0])
    ensures q.Pop().1 == q.(receipt := RemoveAt(q.receipt, 0), timeouts := RemoveAt(q.timeouts, k))
  {
    FirstMatchInReceipt(q.receipt, 0);
    SameElements(q);
    assert q.receipt[0] in q.timeouts;
    k := FirstMatch(TimeoutPointOrder, q.timeouts, q.receipt[0]);
    assert forall n :: 0 <= n < |q.timeouts| && q.timeouts[n] == q.receipt[0] ==>
      Matches(TimeoutPointOrder, q.timeouts[n], q.receipt[0]);
  }

  /** The earlier arrival of a bad tie is at the head: popping it erases another call from the timeout index. */
  lemma PopBadTie(q: Queue, c: Call, d: Call, i: nat, j: nat)
    requires BadTie(q, c, d, i, j) && q.receipt != [] && q.receipt[0] == c
    ensures !SameCalls(q.Pop().1)
  {
    hide Queue.Pop, Sorted;
    var k := PopTakes(q);
    var r := q.Pop().1;
    assert k <= i && r.timeouts[j - 1] == c;
    UniqueCounts(q.receipt, c);
    assert multiset(r.receipt)[c] == 0;
    assert c in multiset(r.timeouts);
  }

  /** Another call is at the head: popping it parts the indices or leaves the bad tie. */
  lemma PopBesideBadTie(q: Queue, c: Call, d: Call, i: nat, j: nat) returns (i2: nat, j2: nat)
    requires BadTie(q, c, d, i, j) && q.receipt != [] && q.receipt[0] != c
    ensures var r := q.Pop().1; !SameCalls(r) || (BadTie(r, c, d, i2, j2) && |r.receipt| < |q.receipt|)
  {
    hide Queue.Pop, Sorted, SameCalls, Matches, UniqueByArrival;
    var k := PopTakes(q);
    var r := q.Pop().1;
    i2, j2 := if k < i then i - 1 else i, if k < j then j - 1 else j;
    if SameCalls(r) {
      ErasedIsHead(q, r, k);
      SameElements(q);
      assert c in q.timeouts;
      HeadIsEarliest(q.receipt, c);
      RemoveKeepsOrder(ReceiptOrder, q.receipt, 0);
      assert k != i && k != j;
    }
  }

  lemma HeadIsEarliest(s: seq<Call>, c: Call)
    requires Sorted(ReceiptOrder, s) && c in s
    ensures s[0].arrival <= c.arrival
  {
    var k :| 0 <= k < |s| && s[k] == c;
    if k > 0 { assert Key(ReceiptOrder, s[0]) <= Key(ReceiptOrder, s[k]); }
  }

  lemma ErasedIsHead(q: Queue, r: Queue, k: nat)
    requires SameCalls(q) && SameCalls(r) && q.receipt != [] && k < |q.timeouts|
    requires r.receipt == RemoveAt(q.receipt, 0) && r.timeouts == RemoveAt(q.timeouts, k)
    ensures q.timeouts[k] == q.receipt[0]
  {
    var h := q.receipt[0];
    assert multiset(r.receipt)[h] == multiset(q.receipt)[h] - 1;
    assert q.timeouts[k] != h ==> multiset(r.timeouts)[h] == multiset(q.timeouts)[h];
  }

  /** Pops bring the earlier arrival of a bad tie to the head, so some number of pops parts the indices. */
  lemma {:induction false} PopsPart(q: Queue, c: Call, d: Call, i: nat, j: nat) returns (ops: seq<Operation>)
    requires BadTie(q, c, d, i, j)
    ensures NoPushes(ops) && !SameCalls(DoAll(q, ops))
  {
    hide BadTie, Queue.Pop, SameCalls;
    ops := [];
    var r, i2, j2 := q, i, j;
    while SameCalls(r)
      invariant NoPushes(ops) && r == DoAll(q, ops)
      invariant SameCalls(r) ==> BadTie(r, c, d, i2, j2)
      decreases SameCalls(r), |r.receipt|
    {
      BadTieWaits(r, c, d, i2, j2);
      if r.receipt[0] == c {
        PopBadTie(r, c, d, i2, j2);
      } else {
        i2, j2 := PopBesideBadTie(r, c, d, i2, j2);
      }
      assert (ops + [DoPop])[..|ops|] == ops;
      ops, r := ops + [DoPop], r.Pop().1;
    }
  }

  lemma BadTieWaits(q: Queue, c: Call, d: Call, i: nat, j: nat)
    requires BadTie(q, c, d, i, j)
    ensures q.receipt != []
  {
    SameElements(q);
  }

  /** An unsafe push brings a bad tie in. */
  lemma UnsafePushTies(q: Queue, c: Call, configured: nat) returns (d: Call, i: nat, j: nat)
    requires Agrees(q) && q.Push(c, configured).0 == Accepted && !InsertSafe(q, c)
    ensures BadTie(q.Push(c, configured).1, c, d, i, j)
  {
    hide Queue.Push, Sorted, UniqueByArrival, TiesInArrivalOrder, SameCalls;
    AcceptedIndices(q, c, configured);
    d :| d in q.receipt && Matches(TimeoutPointOrder, d, c) && d.arrival > c.arrival;
    SameElements(q);
    i :| 0 <= i < |q.timeouts| && q.timeouts[i] == d;
    j := UpperBound(TimeoutPointOrder, q.timeouts, c.Timeout());
    if j <= i { SortedFrom(q.timeouts, j, i); }
  }

  lemma {:induction false} RemovalsAgree(q: Queue, ops: seq<Operation>)
    requires Agrees(q) && NoPushes(ops)
    ensures Agrees(DoAll(q, ops))
  {
    hide Agrees;
    if ops != [] {
      var m := |ops| - 1;
      assert ops[m] in ops && forall op :: op in ops[..m] ==> op in ops;
      RemovalsAgree(q, ops[..m]);
      OperationRefines(DoAll(q, ops[..m]), ops[m]);
    }
  }

  /**
   The promise of the two indices is that they hold the same calls. After an accepted push they do so for ever,
   whatever is popped, expires, enters or leaves service, exactly when no waiting call of the same number and
   timeout point has arrived later: the guard a caller can check before the push. Otherwise pops alone part them.
   */
  lemma NeverPartsIff(q: Queue, c: Call, configured: nat)
    requires Agrees(q) && q.Push(c, configured).0 == Accepted
    ensures InsertSafe(q, c) <==>
      forall ops: seq<Operation> :: NoPushes(ops) ==> SameCalls(DoAll(q.Push(c, configured).1, ops))
  {
    hide Agrees, InsertSafe, SameCalls, BadTie, DoAll, Queue.Push;
    var r := q.Push(c, configured).1;
    if InsertSafe(q, c) {
      PushAgreesIff(q, c, configured);
      forall ops: seq<Operation> | NoPushes(ops) ensures SameCalls(DoAll(r, ops)) {
        RemovalsAgree(r, ops);
        AgreeingAreSame(DoAll(r, ops));
      }
    } else {
      var d, i, j := UnsafePushTies(q, c, configured);
      var ops := PopsPart(r, c, d, i, j);
    }
  }

  lemma AgreeingAreSame(q: Queue)
    requires Agrees(q)
    ensures SameCalls(q)
  {
  }

  /** Out of arrival order and with different waits the indices do part: popping one call erases the other. */
  lemma {:induction false} IndicesPart(first: Call, second: Call)
    requires first.phone == second.phone && first.Timeout() == second.Timeout() && second.arrival < first.arrival
    ensures var q := Do(Do(Do(EmptyQueue(10), DoPush(first, 10)), DoPush(second, 10)), DoPop);
            q.receipt == [first] && q.timeouts == [second]
  {
    PushFirst(first);
    var q1 := Do(EmptyQueue(10), DoPush(first, 10));
    PushParts(q1, first, second);
    var q2 := Do(q1, DoPush(second, 10));
    PopParts(q2, first, second);
  }

  lemma {:induction false} PushFirst(c: Call)
    ensures Do(EmptyQueue(10), DoPush(c, 10)) == Queue([c], [c], map[], 10)
  {
    assert !HasMatch(ReceiptOrder, [], c);
    assert Emplace(ReceiptOrder, [], c) == [c] && Emplace(TimeoutPointOrder, [], c) == [c];
  }

  lemma {:induction false} PushParts(q: Queue, first: Call, second: Call)
    requires q.receipt == [first] && q.timeouts == [first] && q.processing == map[]
    requires Matches(TimeoutPointOrder, first, second) && second.arrival < first.arrival
    ensures Do(q, DoPush(second, 10)).receipt == [second, first]
      && Do(q, DoPush(second, 10)).timeouts == [first, second]
  {
    assert !HasMatch(ReceiptOrder, q.receipt, second);
    assert UpperBound(ReceiptOrder, q.receipt, second.arrival) == 0;
    assert UpperBound(TimeoutPointOrder, q.timeouts, second.Timeout()) == 1;
  }

  lemma {:induction false} PopParts(q: Queue, first: Call, second: Call)
    requires q.receipt == [second, first] && q.timeouts == [first, second] && Matches(TimeoutPointOrder, first, second)
    ensures Do(q, DoPop).receipt == [first] && Do(q, DoPop).timeouts == [second]
  {
    assert FirstMatch(TimeoutPointOrder, q.timeouts, second) == 0;
    assert FirstMatch(ReceiptOrder, q.receipt, second) == 0;
  }

  /** For instance a call at 5 s that waits for 5 s, pushed before a call at 0 s that waits for 10 s. */
  lemma IndicesCanPart()
    ensures exists first: Call, second: Call ::
      !SameCalls(Do(Do(Do(EmptyQueue(10), DoPush(first, 10)), DoPush(second, 10)), DoPop))
  {
    var first := Call(0, "1", 5000, 5);
    var second := Call(1, "1", 0, 10);
    IndicesPart(first, second);
    assert multiset([first])[first] == 1 && multiset([second])[first] == 0;
  }

  /** Two waiting calls with one number, a millisecond apart. */
  lemma DuplicateCanWait(first: Call, second: Call)
    requires first.phone == second.phone && second.arrival == first.arrival + 1
    ensures EmptyQueue(10).Push(first, 10).0 == Accepted
    ensures Do(EmptyQueue(10), DoPush(first, 10)).Push(second, 10).0 == Accepted
  {
    PushFirst(first);
    assert !HasMatch(ReceiptOrder, [], first) && !HasMatch(ReceiptOrder, [first], second);
  }

  // ---------------------------------------------------------------------------------------------
  // The queue object
  // ---------------------------------------------------------------------------------------------

  class CallQueue {
    var inReceiptOrder: seq<Call>
    var inTimeoutPointOrder: seq<Call>
    var inProcessing: map<string, Call>
    var capacity: nat

    function Value(): Queue
      reads this
    {
      Queue(inReceiptOrder, inTimeoutPointOrder, inProcessing, capacity)
    }

    /** What the two standard multisets guarantee by themselves, and that no call waits in the receipt index alone. */
    ghost predicate Valid()
      reads this
    {
      && Sorted(ReceiptOrder, inReceiptOrder)
      && Sorted(TimeoutPointOrder, inTimeoutPointOrder)
      && (inReceiptOrder != [] ==> inTimeoutPointOrder != [])
    }

    constructor (configured: Option<nat>)
      ensures Valid() && Value() == EmptyQueue(if configured.Some? then configured.value else DefaultCapacity)
    {
      inReceiptOrder, inTimeoutPointOrder, inProcessing := [], [], map[];
      capacity := if configured.Some? then configured.value else DefaultCapacity;
    }

    static method EqualRange(o: Order, s: seq<Call>, call: Call) returns (begin: nat, end: nat)
      requires Sorted(o, s)
      ensures begin <= end <= |s|
      ensures forall i :: 0 <= i < |s| ==> (begin <= i < end <==> Key(o, s[i]) == Key(o, call))
    {
      begin := 0;
      while begin < |s| && Key(o, s[begin]) < Key(o, call)
        invariant begin <= |s|
        invariant forall i :: 0 <= i < begin ==> Key(o, s[i]) < Key(o, call)
      {
        begin := begin + 1;
      }
      end := begin;
      while end < |s| && Key(o, s[end]) == Key(o, call)
        invariant begin <= end <= |s|
        invariant forall i :: begin <= i < end ==> Key(o, s[i]) == Key(o, call)
      {
        end := end + 1;
      }
    }

    static method EraseCallFromMultiset(o: Order, s: seq<Call>, call: Call) returns (r: seq<Call>)
      requires Sorted(o, s)
      ensures r == EraseFirst(o, s, call)
    {
      var begin, end := EqualRange(o, s, call);
      while begin != end
        invariant begin <= end <= |s|
        invariant forall i :: end <= i < |s| ==> !Matches(o, s[i], call)
        invariant forall i :: 0 <= i < begin ==> !Matches(o, s[i], call)
        invariant forall i :: begin <= i < end ==> Key(o, s[i]) == Key(o, call)
      {
        if s[begin].phone == call.phone {
          assert FirstMatch(o, s, call) == begin by {
            assert Matches(o, s[begin], call);
          }
          return RemoveAt(s, begin);
        }
        begin := begin + 1;
      }
      r := s;
    }

    static method MultisetContainsCall(o: Order, s: seq<Call>, call: Call) returns (found: bool)
      requires Sorted(o, s)
      ensures found <==> exists i :: 0 <= i < |s| && Matches(o, s[i], call)
    {
      var begin, end := EqualRange(o, s, call);
      while begin != end
        invariant begin <= end <= |s|
        invariant forall i :: end <= i < |s| ==> !Matches(o, s[i], call)
        invariant forall i :: 0 <= i < begin ==> !Matches(o, s[i], call)
        invariant forall i :: begin <= i < end ==> Key(o, s[i]) == Key(o, call)
      {
        if s[begin].phone == call.phone {
          assert Matches(o, s[begin], call);
          return true;
        }
        begin := begin + 1;
      }
      found := false;
    }

    method Contains(call: Call) returns (found: bool)
      requires Valid()
      ensures found == Value().Contains(call)
    {
      found := MultisetContainsCall(ReceiptOrder, inReceiptOrder, call);
      if !found {
        found := call.phone in inProcessing;
      }
    }

    method InsertToQueue(call: Call)
      requires Valid()
      modifies this`inReceiptOrder, this`inTimeoutPointOrder
      ensures Valid() && Value() == old(Value()).Insert(call)
    {
      EmplaceElements(ReceiptOrder, inReceiptOrder, call);
      EmplaceElements(TimeoutPointOrder, inTimeoutPointOrder, call);
      inReceiptOrder := Emplace(ReceiptOrder, inReceiptOrder, call);
      inTimeoutPointOrder := Emplace(TimeoutPointOrder, inTimeoutPointOrder, call);
    }

    method EraseFromQueue(call: Call)
      requires Valid()
      modifies this`inReceiptOrder, this`inTimeoutPointOrder
      ensures Sorted(ReceiptOrder, inReceiptOrder) && Sorted(TimeoutPointOrder, inTimeoutPointOrder)
      ensures Value() == old(Value()).Erase(call)
    {
      var i := FirstMatch(ReceiptOrder, inReceiptOrder, call);
      if i < |inReceiptOrder| { RemoveKeepsOrder(ReceiptOrder, inReceiptOrder, i); }
      var k := FirstMatch(TimeoutPointOrder, inTimeoutPointOrder, call);
      if k < |inTimeoutPointOrder| { RemoveKeepsOrder(TimeoutPointOrder, inTimeoutPointOrder, k); }
      inReceiptOrder := EraseCallFromMultiset(ReceiptOrder, inReceiptOrder, call);
      inTimeoutPointOrder := EraseCallFromMultiset(TimeoutPointOrder, inTimeoutPointOrder, call);
    }

    method PushToQueue(call: Call, configured: nat) returns (result: PushResult)
      requires Valid()
      modifies this`inReceiptOrder, this`inTimeoutPointOrder, this`capacity
      ensures Valid() && (result, Value()) == old(Value()).Push(call, configured)
    {
      capacity := configured;
      var known := Contains(call);
      if known {
        return AlreadyQueued;
      }
      if |inReceiptOrder| >= capacity {
        return Overloaded;
      }
      InsertToQueue(call);
      result := Accepted;
    }

    method PopFromQueue() returns (result: Option<Call>)
      requires Valid()
      modifies this`inReceiptOrder, this`inTimeoutPointOrder
      ensures (result, Value()) == old(Value()).Pop()
      ensures old(Agrees(Value())) ==> Valid() && Agrees(Value())
    {
      if inReceiptOrder == [] {
        return None;
      }
      var call := inReceiptOrder[0];
      ghost var q := Value();
      EraseFromQueue(call);
      result := Some(call);
      if Agrees(q) {
        var _ := PopAgrees(q);
        SameElements(Value());
      }
    }

    method QueueIsEmpty() returns (empty: bool)
      ensures empty <==> Value().receipt == []
    {
      empty := inReceiptOrder == [];
    }

    method EraseTimeoutCallFromQueue(now: int) returns (result: Option<Call>)
      requires Valid()
      modifies this`inReceiptOrder, this`inTimeoutPointOrder
      ensures (result, Value()) == old(Value()).EraseTimeout(now)
      ensures old(Agrees(Value())) ==> Valid() && Agrees(Value())
    {
      hide Sorted, UniqueByArrival, TiesInArrivalOrder, EraseFirst;
      if inReceiptOrder == [] {
        return None;
      }
      var least := inTimeoutPointOrder[0];
      if now >= least.Timeout() {
        ghost var q := Value();
        EraseFromQueue(least);
        result := Some(least);
        if Agrees(q) {
          var _ := EraseTimeoutAgrees(q, now);
          SameElements(Value());
        }
      } else {
        result := None;
      }
    }

    method GetMinTimeoutCallInQueue() returns (result: Option<Call>)
      requires Valid()
      ensures result == Value().MinTimeout()
    {
      if inReceiptOrder == [] {
        return None;
      }
      result := Some(inTimeoutPointOrder[0]);
    }

    method InsertToProcessing(call: Call) returns (added: bool)
      requires Valid()
      modifies this`inProcessing
      ensures Valid() && (added, Value()) == old(Value()).InsertToProcessing(call)
    {
      var known := Contains(call);
      if known {
        return false;
      }
      inProcessing := inProcessing[call.phone := call];
      added := true;
    }

    method EraseFromProcessing(call: Call)
      requires Valid()
      modifies this`inProcessing
      ensures Valid() && Value() == old(Value()).EraseFromProcessing(call)
    {
      inProcessing := inProcessing - {call.phone};
    }
  }
}
