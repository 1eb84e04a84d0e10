/** How many posted iterations are due, and how many waiting calls expire, by a given instant. */
module Expiries {
  import opened CallQueues
  import opened Sequences

  /** How many of the time points lie at or before `t`. */
  function Within(ts: seq<int>, t: int): nat {
    if ts == [] then 0 else Within(ts[..|ts| - 1], t) + (if ts[|ts| - 1] <= t then 1 else 0)
  }

  function Timeouts(s: seq<Call>): seq<int> { seq(|s|, i requires 0 <= i < |s| => s[i].Timeout()) }

  function Expiring(s: seq<Call>, t: int): nat { Within(Timeouts(s), t) }

  lemma WithinAppend(ts: seq<int>, x: int, t: int)
    ensures Within(ts + [x], t) == Within(ts, t) + (if x <= t then 1 else 0)
  {
    assert (ts + [x])[..|ts|] == ts;
  }

  lemma {:induction false} WithinConcat(a: seq<int>, b: seq<int>, t: int)
    ensures Within(a + b, t) == Within(a, t) + Within(b, t)
  {
    if b == [] {
      assert a + b == a;
    } else {
      var m := |b| - 1;
      WithinConcat(a, b[..m], t);
      assert a + b == a + b[..m] + [b[m]];
      WithinAppend(a + b[..m], b[m], t);
    }
  }

  lemma WithinRemove(ts: seq<int>, i: nat, t: int)
    requires i < |ts|
    ensures Within(RemoveAt(ts, i), t) + (if ts[i] <= t then 1 else 0) == Within(ts, t)
  {
    hide Within;
    var a, b := ts[..i], ts[i + 1..];
    WithinConcat(a, b, t);
    WithinConcat(a + [ts[i]], b, t);
    WithinAppend(a, ts[i], t);
    assert RemoveAt(ts, i) == a + b;
    assert ts == a + [ts[i]] + b;
  }

  lemma {:induction false} WithinSome(ts: seq<int>, t: int)
    ensures Within(ts, t) > 0 <==> exists x :: x in ts && x <= t
  {
    if ts != [] {
      var m := |ts| - 1;
      WithinSome(ts[..m], t);
      assert forall x :: x in ts <==> x in ts[..m] || x == ts[m] by { assert ts == ts[..m] + [ts[m]]; }
      if Within(ts, t) > 0 {
        if Within(ts[..m], t) > 0 {
          var x :| x in ts[..m] && x <= t;
          assert x in ts;
        } else {
          assert ts[m] in ts && ts[m] <= t;
        }
      }
    }
  }

  lemma ExpiringRemove(s: seq<Call>, i: nat, t: int)
    requires i < |s|
    ensures Expiring(RemoveAt(s, i), t) + (if s[i].Timeout() <= t then 1 else 0) == Expiring(s, t)
  {
    assert Timeouts(RemoveAt(s, i)) == RemoveAt(Timeouts(s), i);
    WithinRemove(Timeouts(s), i, t);
  }

  lemma NoneExpiring(s: seq<Call>, t: int)
    requires forall c :: c in s ==> t < c.Timeout()
    ensures Expiring(s, t) == 0
  {
    WithinSome(Timeouts(s), t);
    assert forall i :: 0 <= i < |s| ==> s[i] in s && Timeouts(s)[i] == s[i].Timeout();
  }

  lemma ExpiringSome(s: seq<Call>, c: Call, x: int)
    requires c in s && c.Timeout() <= x
    ensures Expiring(s, x) > 0
  {
    hide Within;
    var i :| 0 <= i < |s| && s[i] == c;
    assert Timeouts(s)[i] == c.Timeout() && Timeouts(s)[i] in Timeouts(s);
    WithinSome(Timeouts(s), x);
  }

  lemma ExpiringInsert(s: seq<Call>, n: nat, c: Call, t: int)
    requires n <= |s|
    ensures Expiring(InsertAt(s, n, c), t) == Expiring(s, t) + (if c.Timeout() <= t then 1 else 0)
  {
    var r := InsertAt(s, n, c);
    assert RemoveAt(r, n) == s;
    ExpiringRemove(r, n, t);
  }
}
