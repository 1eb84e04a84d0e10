/** Inserting into and removing from a sequence by position. */
module Sequences {
  function InsertAt<T>(s: seq<T>, n: nat, x: T): (r: seq<T>)
    requires n <= |s|
    ensures |r| == |s| + 1 && r[n] == x
    ensures forall j :: 0 <= j < n ==> r[j] == s[j]
    ensures forall j :: n < j < |r| ==> r[j] == s[j - 1]
    ensures multiset(r) == multiset(s) + multiset{x}
  {
    assert s == s[..n] + s[n..];
    s[..n] + [x] + s[n..]
  }

  function RemoveAt<T>(s: seq<T>, i: nat): (r: seq<T>)
    requires i < |s|
    ensures |r| == |s| - 1
    ensures forall j :: 0 <= j < i ==> r[j] == s[j]
    ensures forall j :: i <= j < |r| ==> r[j] == s[j + 1]
    ensures multiset(r) == multiset(s) - multiset{s[i]}
  {
    assert s == s[..i] + [s[i]] + s[i + 1..];
    s[..i] + s[i + 1..]
  }

  lemma MembersOfRemoveAt<T>(s: seq<T>, i: nat)
    requires i < |s|
    ensures forall d :: d in RemoveAt(s, i) ==> d in s
    ensures forall d :: d in s ==> d == s[i] || d in RemoveAt(s, i)
  {
    var r := RemoveAt(s, i);
    forall d | d in s ensures d == s[i] || d in r {
      var j :| 0 <= j < |s| && s[j] == d;
      if j < i { assert r[j] == d; } else if j > i { assert r[j - 1] == d; }
    }
  }
}
