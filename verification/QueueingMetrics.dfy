/**
 The counters and metrics of the queueing system. Counters are unsigned 64-bit words: a decrement of
 zero wraps around.
 */
module QueueingMetrics {
  import opened Options
  import opened Metrics

  const MaxWord: nat := 0xFFFF_FFFF_FFFF_FFFF

  function Decrement(x: nat): nat { if x == 0 then MaxWord else x - 1 }

  /** The four counters of calls. */
  datatype Counters = Counters(arrivals: nat, inSystem: nat, queueSize: nat, dropouts: nat) {
    function Arrival(): Counters {
      this.(arrivals := arrivals + 1, inSystem := inSystem + 1, queueSize := queueSize + 1)
    }
    function ServiceStart(): Counters { this.(queueSize := Decrement(queueSize)) }
    function ServiceComplete(): Counters { this.(inSystem := Decrement(inSystem)) }
    function Dropout(): Counters {
      this.(queueSize := Decrement(queueSize), inSystem := Decrement(inSystem), dropouts := dropouts + 1)
    }
  }

  datatype ServiceMetrics = ServiceMetrics(serviceTime: Measure, totalServiceTime: int) {
    function AddCompletedService(time: int): ServiceMetrics {
      ServiceMetrics(serviceTime.Add(time), totalServiceTime + time)
    }
    function ServicedCount(): nat { serviceTime.count }
  }

  const NewServiceMetrics := ServiceMetrics(NewMeasure(0), 0)

  type Servers = map<nat, ServiceMetrics>

  /** Servers outside the new set lose their metrics, new ones start from zero. */
  function SetServers(servers: Servers, keep: set<nat>): Servers {
    map op | op in keep :: if op in servers then servers[op] else NewServiceMetrics
  }

  function Complete(servers: Servers, op: nat, time: int): Servers {
    if op in servers then servers[op := servers[op].AddCompletedService(time)] else servers
  }

  // Sums over the servers, in whatever order they are visited.

  ghost function SumOf(m: map<nat, int>): int
    decreases |m|
  {
    if m == map[] then 0 else var k :| k in m; m[k] + SumOf(m - {k})
  }

  lemma {:induction false} SumOfRemove(m: map<nat, int>, k: nat)
    requires k in m
    ensures SumOf(m) == m[k] + SumOf(m - {k})
    decreases |m|
  {
    var p :| p in m && SumOf(m) == m[p] + SumOf(m - {p});
    if p != k {
      SumOfRemove(m - {p}, k);
      SumOfRemove(m - {k}, p);
      assert m - {p} - {k} == m - {k} - {p};
    }
  }

  lemma SumOfUpdate(m: map<nat, int>, k: nat, v: int)
    requires k in m
    ensures SumOf(m[k := v]) == SumOf(m) - m[k] + v
  {
    SumOfRemove(m, k);
    SumOfRemove(m[k := v], k);
    assert m[k := v] - {k} == m - {k};
  }

  lemma {:induction false} SumOfBound(m: map<nat, int>, bound: int)
    requires forall k :: k in m ==> m[k] <= bound
    ensures SumOf(m) <= |m| * bound
    decreases |m|
  {
    if m != map[] {
      var k :| k in m && SumOf(m) == m[k] + SumOf(m - {k});
      SumOfBound(m - {k}, bound);
      assert (m - {k}).Keys == m.Keys - {k};
      assert |m - {k}| == |m| - 1;
      assert (|m| - 1) * bound + bound == |m| * bound;
    }
  }

  lemma {:induction false} SumOfZero(m: map<nat, int>)
    requires forall k :: k in m ==> m[k] == 0
    ensures SumOf(m) == 0
    decreases |m|
  {
    if m != map[] {
      var k :| k in m && SumOf(m) == m[k] + SumOf(m - {k});
      SumOfZero(m - {k});
    }
  }

  function Times(servers: Servers): map<nat, int> { map op | op in servers :: servers[op].totalServiceTime }

  function Counts(servers: Servers): map<nat, int> { map op | op in servers :: servers[op].ServicedCount() }

  ghost function Serviced(servers: Servers): int { SumOf(Counts(servers)) }

  ghost function TotalServiceTime(servers: Servers): int { SumOf(Times(servers)) }

  /** A completed service adds one to the serviced calls and its time to the total time, all at its own server. */
  lemma CompleteAdds(servers: Servers, op: nat, time: int)
    requires op in servers
    ensures Serviced(Complete(servers, op, time)) == Serviced(servers) + 1
    ensures TotalServiceTime(Complete(servers, op, time)) == TotalServiceTime(servers) + time
    ensures var r := Complete(servers, op, time);
      && r.Keys == servers.Keys && (forall other :: other in servers && other != op ==> r[other] == servers[other])
      && r[op].serviceTime == servers[op].serviceTime.Add(time)
  {
    hide SumOf;
    SumOfUpdate(Counts(servers), op, servers[op].ServicedCount() + 1);
    SumOfUpdate(Times(servers), op, servers[op].totalServiceTime + time);
    CompleteUpdates(servers, op, time);
  }

  function Restrict(m: map<nat, int>, keep: set<nat>): map<nat, int> { map k | k in m && k in keep :: m[k] }

  lemma {:induction false} SumOfSplit(m: map<nat, int>, keep: set<nat>)
    ensures SumOf(m) == SumOf(m - keep) + SumOf(Restrict(m, keep))
    decreases |m|
  {
    hide SumOf, Restrict;
    if k :| k in m && k in keep {
      WithoutKept(m, keep, k);
      SumOfRemove(m, k);
      SumOfRemove(Restrict(m, keep), k);
      SumOfSplit(m - {k}, keep);
    } else {
      NothingKept(m, keep);
      SumOfZero(Restrict(m, keep));
    }
  }

  lemma WithoutKept(m: map<nat, int>, keep: set<nat>, k: nat)
    requires k in m && k in keep
    ensures m - keep == m - {k} - keep && Restrict(m, keep) - {k} == Restrict(m - {k}, keep)
    ensures k in Restrict(m, keep) && Restrict(m, keep)[k] == m[k]
  {
  }

  lemma NothingKept(m: map<nat, int>, keep: set<nat>)
    requires m.Keys !! keep
    ensures m - keep == m && Restrict(m, keep) == map[]
  {
  }

  /** Keys of no value add nothing. */
  lemma {:induction false} SumOfPadded(m: map<nat, int>, padded: map<nat, int>)
    requires m.Keys <= padded.Keys && forall k :: k in padded ==> padded[k] == if k in m then m[k] else 0
    ensures SumOf(padded) == SumOf(m)
    decreases |padded|
  {
    hide SumOf;
    if k :| k in padded && k !in m {
      SumOfRemove(padded, k);
      SumOfPadded(m, padded - {k});
    } else {
      assert padded == m;
    }
  }

  /**
   Setting the servers to whatever set: those in it that had metrics have the same as before, the others start from
   zero, and what is lost of the totals is what the servers outside it had served. So nothing is lost if all stay.
   */
  lemma SetServersKeeps(servers: Servers, keep: set<nat>)
    ensures var r := SetServers(servers, keep);
      && r.Keys == keep
      && (forall op :: op in keep && op in servers ==> r[op] == servers[op])
      && (forall op :: op in keep && op !in servers ==> r[op].ServicedCount() == r[op].totalServiceTime == 0)
      && Serviced(r) == Serviced(servers) - Serviced(servers - keep)
      && TotalServiceTime(r) == TotalServiceTime(servers) - TotalServiceTime(servers - keep)
      && (servers.Keys <= keep ==>
            Serviced(r) == Serviced(servers) && TotalServiceTime(r) == TotalServiceTime(servers))
  {
    hide SumOf;
    var r := SetServers(servers, keep);
    assert Counts(servers - keep) == Counts(servers) - keep && Times(servers - keep) == Times(servers) - keep;
    SumOfSplit(Counts(servers), keep);
    SumOfSplit(Times(servers), keep);
    SumOfPadded(Restrict(Counts(servers), keep), Counts(r));
    SumOfPadded(Restrict(Times(servers), keep), Times(r));
    if servers.Keys <= keep {
      SumOfZero(Counts(servers - keep));
      SumOfZero(Times(servers - keep));
    }
  }

  /** The servers of the set that had metrics before have them still, with all they have served. */
  ghost predicate Kept(before: Servers, keep: set<nat>, after: Servers) {
    forall op :: op in keep && op in before ==> op in after && after[op] == before[op]
  }

  lemma CompleteUpdates(servers: Servers, op: nat, time: int)
    requires op in servers
    ensures Counts(Complete(servers, op, time)) == Counts(servers)[op := servers[op].ServicedCount() + 1]
    ensures Times(Complete(servers, op, time)) == Times(servers)[op := servers[op].totalServiceTime + time]
  {
  }

  /** A quotient of doubles, but for rounding. */
  datatype Quotient = Finite(value: real) | Infinite(positive: bool) | Undefined

  function Divide(a: int, b: int): (q: Quotient)
    ensures b != 0 ==> q.Finite? && q.value * b as real == a as real
    ensures b == 0 ==> q == if a == 0 then Undefined else Infinite(a > 0)
  {
    if b != 0 then Finite(a as real / b as real) else if a == 0 then Undefined else Infinite(a > 0)
  }

  class QueueingSystemMetrics {
    var counters: Counters
    var waitTime: Measure
    var refusedWaitTime: Measure
    var timeBetweenRequests: Measure
    var prevArrival: Option<int>
    var servers: Servers
    var recordingStartTime: int

    constructor (now: int)
      ensures counters == Counters(0, 0, 0, 0) && servers == map[] && recordingStartTime == now
      ensures waitTime == refusedWaitTime == timeBetweenRequests == NewMeasure(0) && prevArrival == None
    {
      counters := Counters(0, 0, 0, 0);
      waitTime, refusedWaitTime, timeBetweenRequests := NewMeasure(0), NewMeasure(0), NewMeasure(0);
      prevArrival, servers, recordingStartTime := None, map[], now;
    }

    method SetServersOf(keep: set<nat>)
      modifies this`servers
      ensures servers == SetServers(old(servers), keep)
      ensures servers.Keys == keep && Kept(old(servers), keep, servers)
      ensures forall op :: op in keep && op !in old(servers) ==> servers[op] == ServiceMetrics(NewMeasure(0), 0)
      ensures old(servers).Keys <= keep ==>
        Serviced(servers) == old(Serviced(servers)) && TotalServiceTime(servers) == old(TotalServiceTime(servers))
    {
      hide Serviced, TotalServiceTime;
      SetServersKeeps(servers, keep);
      servers := map op | op in servers && op in keep :: servers[op];
      var toInsert := keep;
      while toInsert != {}
        invariant toInsert <= keep
        invariant forall op :: op in servers <==> (op in old(servers) && op in keep) || op in keep - toInsert
        invariant forall op :: op in servers ==>
          servers[op] == if op in old(servers) then old(servers)[op] else NewServiceMetrics
        decreases toInsert
      {
        var op :| op in toInsert;
        if op !in servers {
          servers := servers[op := NewServiceMetrics];
        }
        toInsert := toInsert - {op};
      }
    }

    method RecordRequestArrival(arrival: int)
      modifies this`counters, this`timeBetweenRequests, this`prevArrival
      ensures counters == old(counters).Arrival() && prevArrival == Some(arrival)
      ensures timeBetweenRequests ==
        if old(prevArrival).Some? then old(timeBetweenRequests).Add(arrival - old(prevArrival).value)
        else old(timeBetweenRequests)
    {
      counters := counters.Arrival();
      if prevArrival.Some? {
        timeBetweenRequests := timeBetweenRequests.Add(arrival - prevArrival.value);
      }
      prevArrival := Some(arrival);
    }

    method RecordServiceStart(wait: int)
      modifies this`counters, this`waitTime
      ensures counters == old(counters).ServiceStart() && waitTime == old(waitTime).Add(wait)
    {
      counters := counters.ServiceStart();
      waitTime := waitTime.Add(wait);
    }

    method RecordServiceComplete(op: nat, time: int)
      requires op in servers
      modifies this`counters, this`servers
      ensures counters == old(counters).ServiceComplete() && servers == Complete(old(servers), op, time)
    {
      servers := servers[op := servers[op].AddCompletedService(time)];
      counters := counters.ServiceComplete();
    }

    method RecordRequestDropout(wait: int)
      modifies this`counters, this`refusedWaitTime
      ensures counters == old(counters).Dropout() && refusedWaitTime == old(refusedWaitTime).Add(wait)
    {
      counters := counters.Dropout();
      refusedWaitTime := refusedWaitTime.Add(wait);
    }

    method GetServicedCount() returns (count: int)
      ensures count == Serviced(servers)
    {
      hide SumOf;
      count := 0;
      var rest := Counts(servers);
      while rest != map[]
        invariant count + SumOf(rest) == Serviced(servers)
        decreases |rest|
      {
        var op :| op in rest;
        SumOfRemove(rest, op);
        count := count + rest[op];
        rest := rest - {op};
      }
      SumOfZero(rest);
    }

    /** Right at the start of recording the quotient is that of a division by zero. */
    method GetServiceLoadInErlang(now: int) returns (load: Quotient)
      ensures load == Divide(TotalServiceTime(servers), now - recordingStartTime)
    {
      hide SumOf;
      var total := 0;
      var rest := Times(servers);
      while rest != map[]
        invariant total + SumOf(rest) == TotalServiceTime(servers)
        decreases |rest|
      {
        var op :| op in rest;
        SumOfRemove(rest, op);
        total := total + rest[op];
        rest := rest - {op};
      }
      SumOfZero(rest);
      load := Divide(total, now - recordingStartTime);
    }
  }
}
