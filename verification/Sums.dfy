/** Sums of sequences, powers of two and bit strings, shared by the coding modules. */
module Sums {

  type Bits = seq<bool>

  function Sum(s: seq<nat>): nat {
    if s == [] then 0 else Sum(s[..|s| - 1]) + s[|s| - 1]
  }

  function Pow2(n: nat): (p: nat)
    ensures p > 0
  {
    if n == 0 then 1 else 2 * Pow2(n - 1)
  }

  lemma {:induction false} SumUpdate(s: seq<nat>, i: nat, v: nat)
    requires i < |s|
    ensures Sum(s[i := v]) == Sum(s) - s[i] + v
  {
    var n := |s| - 1;
    if i == n {
      assert s[i := v][..n] == s[..n];
    } else {
      assert s[i := v][..n] == s[..n][i := v];
      SumUpdate(s[..n], i, v);
    }
  }

  /** Changing three different positions changes the sum by the three differences. */
  lemma SumUpdate3(s: seq<nat>, t: seq<nat>, a: nat, b: nat, c: nat)
    requires |s| == |t| && a < |s| && b < |s| && c < |s| && a != b && b != c && a != c
    requires forall i :: 0 <= i < |s| && i != a && i != b && i != c ==> s[i] == t[i]
    ensures Sum(t) == Sum(s) - s[a] - s[b] - s[c] + t[a] + t[b] + t[c]
  {
    SumUpdate(s, a, t[a]);
    var s1 := s[a := t[a]];
    SumUpdate(s1, b, t[b]);
    var s2 := s1[b := t[b]];
    SumUpdate(s2, c, t[c]);
    assert s2[c := t[c]] == t;
  }

  lemma SumUpdate2(s: seq<nat>, t: seq<nat>, a: nat, b: nat)
    requires |s| == |t| && a < |s| && b < |s| && a != b
    requires forall i :: 0 <= i < |s| && i != a && i != b ==> s[i] == t[i]
    ensures Sum(t) == Sum(s) - s[a] - s[b] + t[a] + t[b]
  {
    SumUpdate(s, a, t[a]);
    var s1 := s[a := t[a]];
    SumUpdate(s1, b, t[b]);
    assert s1[b := t[b]] == t;
  }

  lemma {:induction false} SumScale(s: seq<nat>, t: seq<nat>, k: nat)
    requires |s| == |t| && forall i :: 0 <= i < |s| ==> t[i] == k * s[i]
    ensures Sum(t) == k * Sum(s)
  {
    if s != [] {
      SumScale(s[..|s| - 1], t[..|s| - 1], k);
    }
  }

  lemma {:induction false} SumAdd(s: seq<nat>, t: seq<nat>, u: seq<nat>)
    requires |s| == |t| == |u| && forall i :: 0 <= i < |s| ==> u[i] == s[i] + t[i]
    ensures Sum(u) == Sum(s) + Sum(t)
  {
    if s != [] {
      SumAdd(s[..|s| - 1], t[..|s| - 1], u[..|s| - 1]);
    }
  }

  lemma {:induction false} SumZero(s: seq<nat>)
    requires forall i :: 0 <= i < |s| ==> s[i] == 0
    ensures Sum(s) == 0
  {
    if s != [] {
      SumZero(s[..|s| - 1]);
    }
  }

  lemma SumAtLeast(s: seq<nat>, i: nat)
    requires i < |s|
    ensures s[i] <= Sum(s)
  {
    SumUpdate(s, i, 0);
  }

  lemma SumAtLeast2(s: seq<nat>, i: nat, k: nat)
    requires i < |s| && k < |s| && i != k
    ensures s[i] + s[k] <= Sum(s)
  {
    SumUpdate(s, i, 0);
    SumAtLeast(s[i := 0], k);
  }

  lemma {:induction false} SumMonotone(s: seq<nat>, t: seq<nat>)
    requires |s| == |t| && forall i :: 0 <= i < |s| ==> s[i] <= t[i]
    ensures Sum(s) <= Sum(t)
  {
    if s != [] {
      SumMonotone(s[..|s| - 1], t[..|s| - 1]);
    }
  }

  lemma {:induction false} SumPadded(s: seq<nat>, t: seq<nat>)
    requires |s| <= |t| && t[..|s|] == s
    requires forall i :: |s| <= i < |t| ==> t[i] == 0
    ensures Sum(t) == Sum(s)
  {
    if |t| == |s| {
      assert t == s;
    } else {
      SumPadded(s, t[..|t| - 1]);
    }
  }
}
