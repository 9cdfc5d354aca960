/** Counting distinct numbers. */
module Counting {

  /** Distinct numbers below n are at most n. */
  lemma Pigeonhole(s: seq<nat>, n: nat)
    requires forall i :: 0 <= i < |s| ==> s[i] < n
    requires forall i, j :: 0 <= i < j < |s| ==> s[i] != s[j]
    ensures |s| <= n
  {
    assert forall x :: x in Elements(s) ==> x in Range(0, n);
    SubsetSize(Elements(s), Range(0, n));
  }

  /** The n numbers from a on. */
  ghost function Range(a: nat, n: nat): (r: set<nat>)
    ensures |r| == n && forall x: nat :: x in r <==> a <= x < a + n
  {
    if n == 0 then {} else Range(a, n - 1) + {a + n - 1}
  }

  ghost function Elements(s: seq<nat>): (r: set<nat>)
    ensures forall x :: x in r <==> x in s
    ensures (forall i, j :: 0 <= i < j < |s| ==> s[i] != s[j]) ==> |r| == |s|
  {
    if s == [] then {} else Elements(s[..|s| - 1]) + {s[|s| - 1]}
  }

  lemma SubsetSame<T>(a: set<T>, b: set<T>)
    requires a <= b && |b| <= |a|
    ensures a == b
  {
    assert b == a + (b - a);
    assert |b - a| == 0;
  }

  lemma SubsetSize<T>(a: set<T>, b: set<T>)
    requires a <= b
    ensures |a| <= |b|
  {
    assert b == a + (b - a);
  }

  /** A map that takes distinct keys to distinct values has as many of both. */
  lemma {:induction false} SameSize(f: map<nat, nat>)
    requires forall i, j :: i in f && j in f && i != j ==> f[i] != f[j]
    ensures |f.Keys| == |f.Values|
    decreases |f|
  {
    if f.Keys == {} {
      assert f.Values == {};
    } else {
      var i :| i in f;
      var g := f - {i};
      assert |g| < |f| by { assert g.Keys == f.Keys - {i}; }
      SameSize(g);
      assert f.Keys == g.Keys + {i} && f.Values == g.Values + {f[i]};
    }
  }
}
