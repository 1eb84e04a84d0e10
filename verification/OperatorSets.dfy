/**
 The pool of operators. The configured size is read anew whenever an operator is taken or returned, so
 the pool grows and shrinks while operators are out. Which free operator comes first is left open.
 */
module OperatorSets {
  import opened Options
  import opened QueueingMetrics

  datatype Pool = Pool(operators: set<nat>, free: set<nat>) {
    function Busy(): set<nat> { operators - free }
    predicate Valid() { free <= operators }
  }

  const DefaultOperatorCount: nat := 10

  /** The configured number, or the default if there is none, but at least one. */
  function ReadOperatorCount(configured: Option<nat>, default: nat): (n: nat)
    ensures n >= 1 && (n > 1 ==> configured == Some(n) || (configured == None && n == default))
    ensures configured.Some? && configured.value >= 1 ==> n == configured.value
    ensures configured.None? && default >= 1 ==> n == default
  {
    var n := if configured.Some? then configured.value else default;
    if n < 1 then 1 else n
  }

  function Max(a: nat, b: nat): nat { if a < b then b else a }

  /** `after` is what the pool may become when its configured size is read as `n`. */
  ghost predicate Updated(before: Pool, n: nat, after: Pool) {
    if n >= |before.operators| then
      && before.operators <= after.operators
      && |after.operators| == n
      && after.free == before.free + (after.operators - before.operators)
    else
      && after.operators <= before.operators
      && after.free <= before.free
      && before.operators - after.operators == before.free - after.free
      && |before.free - after.free| ==
           if |before.operators| - n < |before.free| then |before.operators| - n else |before.free|
  }

  /** Whatever it is set to, the size of the pool becomes the larger of that and the number of busy operators. */
  lemma UpdateKeepsBusy(before: Pool, n: nat, after: Pool)
    requires before.Valid() && Updated(before, n, after)
    ensures after.Valid() && after.Busy() == before.Busy()
    ensures |after.operators| == Max(n, |before.Busy()|)
    ensures |after.free| == |after.operators| - |before.Busy()|
  {
    BusySame(before, n, after);
    Parts(before);
    Parts(after);
    if n < |before.operators| { Removed(before, n, after); }
  }

  lemma Removed(before: Pool, n: nat, after: Pool)
    requires before.Valid() && Updated(before, n, after) && n < |before.operators|
    ensures
      var surplus := |before.operators| - n;
      |after.free| == if surplus < |before.free| then |before.free| - surplus else 0
  {
    hide Pool.Valid;
    Difference(before.free, after.free);
  }

  lemma Difference(a: set<nat>, b: set<nat>)
    requires b <= a
    ensures |a - b| == |a| - |b|
  {
    assert a == b + (a - b);
  }

  lemma BusySame(before: Pool, n: nat, after: Pool)
    requires before.Valid() && Updated(before, n, after)
    ensures after.Valid() && after.Busy() == before.Busy()
  {
    if n >= |before.operators| { GrownBusy(before, after); } else { ShrunkBusy(before, after); }
  }

  lemma GrownBusy(before: Pool, after: Pool)
    requires before.Valid() && before.operators <= after.operators
    requires after.free == before.free + (after.operators - before.operators)
    ensures after.Valid() && after.Busy() == before.Busy()
  {
  }

  lemma ShrunkBusy(before: Pool, after: Pool)
    requires before.Valid() && after.operators <= before.operators && after.free <= before.free
    requires before.operators - after.operators == before.free - after.free
    ensures after.Valid() && after.Busy() == before.Busy()
  {
    forall op ensures op in after.Busy() <==> op in before.Busy() {
      assert op in before.operators - after.operators <==> op in before.free - after.free;
    }
    forall op | op in after.free ensures op in after.operators {
      assert op !in before.operators - after.operators;
    }
  }

  lemma Parts(p: Pool)
    requires p.Valid()
    ensures |p.operators| == |p.free| + |p.Busy()|
  {
    assert p.operators == p.free + p.Busy();
  }

  datatype PoolStep = Take(configured: Option<nat>, taken: Option<nat>) | Return(op: nat, configured: Option<nat>)

  /** A free operator leaves the free set, if there is one. */
  ghost predicate TakenFrom(p: Pool, op: Option<nat>, after: Pool) {
    match op
    case None => p.free == {} && after == p
    case Some(o) => o in p.free && after == p.(free := p.free - {o})
  }

  ghost predicate Erased(before: Pool, configured: Option<nat>, op: Option<nat>, after: Pool) {
    exists mid: Pool :: Updated(before, ReadOperatorCount(configured, |before.operators|), mid)
      && TakenFrom(mid, op, after)
  }

  ghost predicate Inserted(before: Pool, op: nat, configured: Option<nat>, after: Pool) {
    if op in before.operators
    then Updated(before.(free := before.free + {op}), ReadOperatorCount(configured, |before.operators|), after)
    else after == before
  }

  ghost predicate PoolNext(before: Pool, step: PoolStep, after: Pool) {
    match step
    case Take(configured, op) => Erased(before, configured, op, after)
    case Return(op, configured) => Inserted(before, op, configured, after)
  }

  ghost predicate History(pools: seq<Pool>, steps: seq<PoolStep>) {
    |pools| == |steps| + 1 && forall i :: 0 <= i < |steps| ==> PoolNext(pools[i], steps[i], pools[i + 1])
  }

  /** The operators handed out and not yet returned. */
  function Held(steps: seq<PoolStep>): set<nat> {
    if steps == [] then {}
    else
      var held := Held(steps[..|steps| - 1]);
      match steps[|steps| - 1]
      case Take(_, op) => if op.Some? then held + {op.value} else held
      case Return(op, _) => held - {op}
  }

  /** The size configured when the step was taken from `before`. */
  function ConfiguredAt(before: Pool, step: PoolStep): nat {
    ReadOperatorCount(step.configured, |before.operators|)
  }

  lemma EraseFreeFacts(before: Pool, configured: Option<nat>, op: Option<nat>, after: Pool)
    requires before.Valid() && Erased(before, configured, op, after)
    ensures var n := ReadOperatorCount(configured, |before.operators|);
      && after.Valid()
      && (op.Some? <==> |before.Busy()| < n)
      && (op.Some? ==> op.value !in before.Busy())
      && after.Busy() == before.Busy() + (if op.Some? then {op.value} else {})
      && |after.operators| == Max(n, |before.Busy()|)
  {
    var n := ReadOperatorCount(configured, |before.operators|);
    var mid :| Updated(before, n, mid) && TakenFrom(mid, op, after);
    UpdateKeepsBusy(before, n, mid);
    TakeFacts(mid, op, after);
  }

  lemma TakeFacts(p: Pool, op: Option<nat>, after: Pool)
    requires p.Valid() && TakenFrom(p, op, after)
    ensures after.Valid() && after.operators == p.operators
    ensures op.Some? <==> |p.free| > 0
    ensures op.Some? ==> op.value !in p.Busy()
    ensures after.Busy() == p.Busy() + (if op.Some? then {op.value} else {})
  {
  }

  lemma InsertFreeFacts(before: Pool, op: nat, configured: Option<nat>, after: Pool)
    requires before.Valid() && Inserted(before, op, configured, after)
    ensures after.Valid() && after.Busy() == before.Busy() - {op}
    ensures op in before.operators ==>
      |after.operators| == Max(ReadOperatorCount(configured, |before.operators|), |after.Busy()|)
  {
    if op in before.operators {
      var mid := before.(free := before.free + {op});
      assert mid.Busy() == before.Busy() - {op};
      UpdateKeepsBusy(mid, ReadOperatorCount(configured, |before.operators|), after);
    }
  }

  /**
   The pool as a limit. After any history of takes and returns, under any configured sizes, exactly the
   operators handed out are busy, none of them was removed, and a take succeeds exactly when fewer
   operators are out than the size read for it; the size is the larger of the two numbers.
   */
  lemma {:induction false} PoolIsALimit(pools: seq<Pool>, steps: seq<PoolStep>)
    requires History(pools, steps) && pools[0].free == pools[0].operators
    ensures var p := pools[|steps|]; p.Valid() && p.Busy() == Held(steps) && Held(steps) <= p.operators
    ensures steps != [] ==>
      var m := |steps| - 1;
      var n := ConfiguredAt(pools[m], steps[m]);
      && (steps[m].Take? ==>
           && (steps[m].taken.Some? <==> |Held(steps[..m])| < n)
           && (steps[m].taken.Some? ==> steps[m].taken.value !in Held(steps[..m]))
           && |pools[m + 1].operators| == Max(n, |Held(steps[..m])|))
      && (steps[m].Return? && steps[m].op in pools[m].operators ==>
           |pools[m + 1].operators| == Max(n, |Held(steps)|))
  {
    hide Erased, Inserted, ReadOperatorCount;
    if steps != [] {
      var m := |steps| - 1;
      assert History(pools[..m + 1], steps[..m]);
      PoolIsALimit(pools[..m + 1], steps[..m]);
      assert PoolNext(pools[m], steps[m], pools[m + 1]);
      match steps[m] {
        case Take(configured, op) => EraseFreeFacts(pools[m], configured, op, pools[m + 1]);
        case Return(op, configured) => InsertFreeFacts(pools[m], op, configured, pools[m + 1]);
      }
    }
  }

  /** As long as every read yields the present size the pool only moves operators between free and busy. */
  lemma FixedSize(before: Pool, step: PoolStep, after: Pool)
    requires before.Valid() && PoolNext(before, step, after)
    requires ConfiguredAt(before, step) == |before.operators|
    ensures after.operators == before.operators
    ensures step.Take? ==>
      && (step.taken.None? <==> before.free == {})
      && (step.taken.Some? ==> step.taken.value in before.free)
      && after.free == if step.taken.Some? then before.free - {step.taken.value} else before.free
    ensures step.Return? && step.op in before.operators ==> after.free == before.free + {step.op}
  {
    match step {
      case Take(configured, op) =>
        var mid :| Updated(before, |before.operators|, mid) && TakenFrom(mid, op, after);
        SameSizeSame(before, mid);
      case Return(op, configured) =>
        if op in before.operators {
          SameSizeSame(before.(free := before.free + {op}), after);
        }
    }
  }

  lemma SameSizeSame(before: Pool, after: Pool)
    requires Updated(before, |before.operators|, after)
    ensures after == before
  {
    var added := after.operators - before.operators;
    assert after.operators == before.operators + added;
    assert |after.operators| == |before.operators| + |added|;
    assert added == {};
  }

  /** The metrics of the operators after the pool was updated. */
  function ServersAfterUpdate(servers: Servers, before: Pool, n: nat, after: Pool): Servers {
    if n == |before.operators| then servers else SetServers(servers, after.free)
  }

  /**
   Busy operators are promised metrics for the service they are about to complete. An update of the pool
   leaves them theirs exactly if it does not change the size: otherwise only free operators are kept.
   */
  lemma BusyKeepMetricsIff(servers: Servers, before: Pool, n: nat, after: Pool)
    requires before.Valid() && Updated(before, n, after)
    requires before.Busy() != {} && before.Busy() <= servers.Keys
    ensures before.Busy() <= ServersAfterUpdate(servers, before, n, after).Keys <==> n == |before.operators|
  {
    UpdateKeepsBusy(before, n, after);
    var op :| op in before.Busy();
    assert op in after.Busy();
  }

  lemma TakenAfterUpdate(before: Pool, configured: Option<nat>, mid: Pool, op: Option<nat>, after: Pool)
    requires Updated(before, ReadOperatorCount(configured, |before.operators|), mid) && TakenFrom(mid, op, after)
    ensures PoolNext(before, Take(configured, op), after)
  {
  }

  lemma TakenOrNone(p: Pool, op: Option<nat>, after: Pool)
    requires after.operators == p.operators
    requires if op.Some? then op.value in p.free && after.free == p.free - {op.value}
             else p.free == {} && after.free == p.free
    ensures TakenFrom(p, op, after)
  {
  }

  lemma SameSizeServers(servers: Servers, before: Pool, after: Pool)
    ensures ServersAfterUpdate(servers, before, |before.operators|, after) == servers
  {
  }

  lemma KeptLess(before: Servers, keep: set<nat>, less: set<nat>, after: Servers)
    requires Kept(before, keep, after) && less <= keep
    ensures Kept(before, less, after)
  {
  }

  class OperatorSet {
    const metrics: QueueingSystemMetrics
    var operators: set<nat>
    var free: set<nat>
    // Identities are handed out in the order of creation.
    var created: nat

    function Value(): Pool
      reads this
    {
      Pool(operators, free)
    }

    ghost predicate Valid()
      reads this
    {
      Value().Valid() && forall op :: op in operators ==> op < created
    }

    constructor (configured: Option<nat>, metrics: QueueingSystemMetrics)
      modifies metrics`servers
      ensures Valid() && free == operators && this.metrics == metrics
      ensures |operators| == ReadOperatorCount(configured, DefaultOperatorCount)
      ensures metrics.servers == SetServers(old(metrics.servers), operators)
    {
      this.metrics := metrics;
      operators, free, created := {}, {}, 0;
      new;
      AddOperators(ReadOperatorCount(configured, DefaultOperatorCount));
      metrics.SetServersOf(operators);
    }

    method AddOperators(count: nat)
      requires Valid()
      modifies this
      ensures Valid() && old(operators) <= operators && |operators| == |old(operators)| + count
      ensures free == old(free) + (operators - old(operators))
    {
      for i := 0 to count
        invariant Valid() && old(operators) <= operators && |operators| == |old(operators)| + i
        invariant free == old(free) + (operators - old(operators))
      {
        var op := created;
        AddedOne(old(operators), operators, old(free), free, op);
        created := created + 1;
        operators := operators + {op};
        free := free + {op};
      }
    }

    /** One more operator is in both sets. */
    static lemma AddedOne(operators0: set<nat>, operators: set<nat>, free0: set<nat>, free: set<nat>, op: nat)
      requires operators0 <= operators && op !in operators && free == free0 + (operators - operators0)
      ensures free + {op} == free0 + (operators + {op} - operators0) && |operators + {op}| == |operators| + 1
    {
    }

    method RemoveOperators(count: nat)
      requires Valid()
      modifies this`operators, this`free
      ensures Valid() && operators <= old(operators) && free <= old(free)
      ensures old(operators) - operators == old(free) - free
      ensures |old(free) - free| == if count < |old(free)| then count else |old(free)|
    {
      for i := 0 to count
        invariant Valid() && operators <= old(operators) && free <= old(free)
        invariant old(operators) - operators == old(free) - free
        invariant |free| == |old(free)| - i
      {
        if free == {} {
          break;
        }
        var erased :| erased in free;
        RemovedOne(old(operators), operators, old(free), free, erased);
        operators := operators - {erased};
        free := free - {erased};
      }
      Difference(old(free), free);
    }

    /** One more operator is gone from both sets. */
    static lemma RemovedOne(operators0: set<nat>, operators: set<nat>, free0: set<nat>, free: set<nat>, op: nat)
      requires operators0 - operators == free0 - free && op in free && op in operators && free <= free0
        && operators <= operators0
      ensures operators0 - (operators - {op}) == free0 - (free - {op})
      ensures |free - {op}| == |free| - 1
    {
      assert operators0 - (operators - {op}) == (operators0 - operators) + {op};
      assert free0 - (free - {op}) == (free0 - free) + {op};
    }

    method UpdateOperatorCount(configured: Option<nat>)
      requires Valid()
      modifies this, metrics`servers
      ensures Valid()
      ensures var n := ReadOperatorCount(configured, |old(operators)|);
        && Updated(old(Value()), n, Value())
        && metrics.servers == ServersAfterUpdate(old(metrics.servers), old(Value()), n, Value())
      ensures Kept(old(metrics.servers), free, metrics.servers)
    {
      var current := |operators|;
      var wanted := ReadOperatorCount(configured, current);
      if wanted != current {
        if wanted > current {
          AddOperators(wanted - current);
        } else {
          RemoveOperators(current - wanted);
        }
        metrics.SetServersOf(free);
      }
    }

    method EraseFree(configured: Option<nat>) returns (erased: Option<nat>)
      requires Valid()
      modifies this, metrics`servers
      ensures Valid() && PoolNext(old(Value()), Take(configured, erased), Value())
      ensures Kept(old(metrics.servers), free, metrics.servers)
      ensures erased.Some? ==> Kept(old(metrics.servers), {erased.value}, metrics.servers)
      ensures ReadOperatorCount(configured, |old(operators)|) == |old(operators)| ==>
        metrics.servers == old(metrics.servers)
    {
      hide Updated, PoolNext, Kept, ServersAfterUpdate, TakenFrom, ReadOperatorCount;
      ghost var before, servers := Value(), metrics.servers;
      UpdateOperatorCount(configured);
      SameSizeServers(servers, before, Value());
      ghost var mid := Value();
      erased := None;
      if free != {} {
        var op :| op in free;
        free := free - {op};
        erased := Some(op);
      }
      TakenOrNone(mid, erased, Value());
      TakenAfterUpdate(before, configured, mid, erased, Value());
      KeptLess(servers, mid.free, free, metrics.servers);
      if erased.Some? { KeptLess(servers, mid.free, {erased.value}, metrics.servers); }
    }

    method InsertFree(op: nat, configured: Option<nat>)
      requires Valid()
      modifies this, metrics`servers
      ensures Valid() && PoolNext(old(Value()), Return(op, configured), Value())
      ensures Kept(old(metrics.servers), free, metrics.servers)
      ensures ReadOperatorCount(configured, |old(operators)|) == |old(operators)| ==>
        metrics.servers == old(metrics.servers)
    {
      if op !in operators {
        return;
      }
      free := free + {op};
      UpdateOperatorCount(configured);
    }

    method GetBusyOperatorCount() returns (count: nat)
      requires Valid()
      ensures count == |Value().Busy()|
    {
      Parts(Value());
      count := |operators| - |free|;
    }
  }
}
