/** The Huffman tree that the 4XM decoder builds for a key frame (libavcodec/4xm.c,
    read_huffman_tables): nodes 0..256 are symbols, nodes 257..511 are merges, and the tree
    lives in the flat arrays "frequency", "flag" and "up". */
module Huffman4xm {
  import opened Sums
  import opened BitIO

  const SYMBOLS: nat := 257
  const NODES: nat := 512
  const NO_FREQ: nat := 65536   // 256 * 256, the scan's "nothing found yet"
  const MAX_TOTAL: nat := 65281 // 256 bytes of at most 255, plus 1 for symbol 256

  datatype Forest = Forest(w: seq<nat>, up: seq<int>, flag: seq<bool>)

  predicate Sized(f: Forest) {
    |f.w| == |f.up| == |f.flag| == NODES
  }

  /** Result of the scan for the two lightest nodes: their weights and indices. */
  datatype Two = Two(m0: nat, s0: nat, m1: nat, s1: nat)

  function Scan(w: seq<nat>, n: nat): (t: Two)
    requires n <= |w|
    ensures t.s0 <= n && t.s1 <= n && (n > 0 ==> t.s0 < n && t.s1 < n)
    ensures t.m0 <= t.m1 <= NO_FREQ
    ensures t.m1 < NO_FREQ ==> n > 0 && t.m0 == w[t.s0] && t.m1 == w[t.s1]
    ensures t.m0 < NO_FREQ ==> n > 0 && t.m0 == w[t.s0]
  {
    if n == 0 then Two(NO_FREQ, 0, NO_FREQ, 0)
    else
      var t := Scan(w, n - 1);
      var v := w[n - 1];
      if v == 0 || v >= t.m1 then t
      else if v < t.m0 then Two(v, n - 1, t.m0, t.s0)
      else t.(m1 := v, s1 := n - 1)
  }

  function Merge(f: Forest, j: nat, a: nat, b: nat): (r: Forest)
    requires Sized(f) && a < NODES && b < NODES && j < NODES
    ensures Sized(r)
  {
    Forest(f.w[j := f.w[a] + f.w[b]][a := 0][b := 0],
           f.up[a := j][b := j],
           f.flag[a := false][b := true])
  }

  /** The forest when the merge loop ends, and the first node number it did not use. */
  datatype Result = Result(f: Forest, j: nat)

  /** The merge loop: for (j = 257; j < 512; j++). */
  function Build(f: Forest, j: nat): (r: Result)
    requires Sized(f) && j <= NODES
    ensures Sized(r.f) && j <= r.j <= NODES
    decreases NODES - j, f
  {
    if j == NODES then Result(f, j) else
    var t := Scan(f.w, j);
    if t.m1 == NO_FREQ then Result(f, j) else Build(Merge(f, j, t.s0, t.s1), j + 1)
  }

  // ---------- what every turn of the merge loop keeps ----------

  ghost predicate Live(w: seq<nat>, i: int) {
    0 <= i < |w| && w[i] > 0
  }

  ghost predicate WellFounded(up: seq<int>) {
    |up| == NODES && forall i :: 0 <= i < NODES ==> up[i] == -1 || i < up[i] < NODES
  }

  /** Links lead from dead nodes to later merge nodes; nodes from j on are unused. */
  ghost predicate Inv(f: Forest, j: nat) {
    && Sized(f)
    && SYMBOLS <= j <= NODES
    && WellFounded(f.up)
    && (forall i :: j <= i < NODES ==> f.w[i] == 0 && f.up[i] == -1)
    && (forall i :: Live(f.w, i) ==> f.up[i] == -1)
    && Sum(f.w) <= MAX_TOTAL
  }

  /** Lighter, or as light and of a smaller number. */
  predicate Earlier(v: nat, x: int, w: nat, y: int) {
    v < w || (v == w && x < y)
  }

  /** The first two live nodes by weight, and by number where weights are equal. */
  ghost predicate Lightest(w: seq<nat>, a: int, b: int) {
    && a != b && Live(w, a) && Live(w, b)
    && Earlier(w[a], a, w[b], b)
    && (forall i :: Live(w, i) && i != a && i != b ==> Earlier(w[b], b, w[i], i))
  }

  lemma {:induction false} ScanFindsLightest(w: seq<nat>, n: nat)
    requires n <= |w|
    requires forall i :: 0 <= i < |w| ==> w[i] < NO_FREQ
    ensures var t := Scan(w, n);
      && t.m0 <= t.m1 <= NO_FREQ
      && (t.m0 < NO_FREQ ==> t.s0 < n && w[t.s0] == t.m0 > 0)
      && (t.m1 < NO_FREQ ==> t.m0 < NO_FREQ && t.s1 < n && w[t.s1] == t.m1 > 0 && t.s0 != t.s1)
      && (t.m0 == NO_FREQ ==> forall i :: 0 <= i < n ==> w[i] == 0)
      && (forall i :: 0 <= i < n && w[i] > 0 && i != t.s0 ==> t.m1 <= w[i])
      && (forall i :: 0 <= i < n && w[i] > 0 ==> t.m0 <= w[i])
      && (t.m1 < NO_FREQ ==> Earlier(t.m0, t.s0, t.m1, t.s1))
      && (t.m1 < NO_FREQ ==> forall i :: 0 <= i < n && w[i] > 0 && i != t.s0 && i != t.s1 ==>
            Earlier(t.m1, t.s1, w[i], i))
      && (t.m1 == NO_FREQ ==> forall i :: 0 <= i < n && w[i] > 0 ==> i == t.s0 && t.m0 < NO_FREQ)
  {
    if n > 0 {
      ScanFindsLightest(w, n - 1);
    }
  }

  lemma LiveBelowNoFreq(w: seq<nat>)
    requires Sum(w) <= MAX_TOTAL
    ensures forall i :: 0 <= i < |w| ==> w[i] < NO_FREQ
  {
    forall i | 0 <= i < |w| ensures w[i] < NO_FREQ {
      SumAtLeast(w, i);
    }
  }

  /** Merging two live nodes keeps the invariant and the total weight. */
  lemma MergeKeepsInv(f: Forest, j: nat, a: nat, b: nat)
    requires Inv(f, j) && j < NODES && a < j && b < j && a != b
    ensures Inv(Merge(f, j, a, b), j + 1)
    ensures Sum(Merge(f, j, a, b).w) == Sum(f.w)
  {
    SumUpdate3(f.w, Merge(f, j, a, b).w, a, b, j);
  }

  /** One turn of the loop, seen from the proofs: it stops, or merges two lightest nodes. */
  lemma Unfold(f: Forest, j: nat) returns (stop: bool, a: nat, b: nat)
    requires Inv(f, j)
    ensures stop ==> Build(f, j) == Result(f, j)
    ensures stop && j < NODES ==> forall x, y :: Live(f.w, x) && Live(f.w, y) ==> x == y
    ensures !stop ==> j < NODES && a < j && b < j && Lightest(f.w, a, b)
    ensures !stop ==> Inv(Merge(f, j, a, b), j + 1) && Build(f, j) == Build(Merge(f, j, a, b), j + 1)
    ensures !stop ==> Sum(Merge(f, j, a, b).w) == Sum(f.w)
  {
    LiveBelowNoFreq(f.w);
    ScanFindsLightest(f.w, j);
    var t := Scan(f.w, j);
    stop, a, b := j == NODES || t.m1 == NO_FREQ, t.s0, t.s1;
    if !stop {
      MergeKeepsInv(f, j, a, b);
    }
  }

  /** How many steps "node = up[node]" the length loop takes. */
  ghost function Depth(up: seq<int>, x: nat): nat
    requires WellFounded(up) && x < NODES
    decreases NODES - x
  {
    if up[x] == -1 then 0 else Depth(up, up[x]) + 1
  }

  /** The flags on the way from the root down to x, the root's child first. */
  ghost function Path(f: Forest, x: nat): (p: Bits)
    requires Sized(f) && WellFounded(f.up) && x < NODES
    ensures |p| == Depth(f.up, x)
    decreases NODES - x
  {
    if f.up[x] == -1 then [] else Path(f, f.up[x]) + [f.flag[x]]
  }

  ghost function Depths(up: seq<int>): (d: seq<nat>)
    requires WellFounded(up)
    ensures |d| == NODES && forall x :: 0 <= x < NODES ==> d[x] == Depth(up, x)
  {
    seq(NODES, x requires 0 <= x < NODES => Depth(up, x))
  }

  /** The merge loop as a list of turns, for the proofs: each turn merges two lightest nodes
      a and b of the forest f into the next free node. */
  datatype Run = Stop(f: Forest) | Turn(f: Forest, a: nat, b: nat, rest: Run)

  ghost predicate IsRun(r: Run, j: nat) {
    && Inv(r.f, j)
    && match r
       case Stop(f) =>
         j < NODES ==> forall x, y :: Live(f.w, x) && Live(f.w, y) ==> x == y
       case Turn(f, a, b, rest) =>
         && j < NODES && a < j && b < j && Lightest(f.w, a, b)
         && rest.f == Merge(f, j, a, b)
         && Sum(rest.f.w) == Sum(f.w)
         && IsRun(rest, j + 1)
  }

  ghost function Final(r: Run): Forest {
    match r
    case Stop(f) => f
    case Turn(_, _, _, rest) => Final(rest)
  }

  ghost function Turns(r: Run): nat {
    match r
    case Stop(_) => 0
    case Turn(_, _, _, rest) => Turns(rest) + 1
  }

  /** The loop of the decoder is such a run. */
  lemma {:induction false} BuildIsRun(f: Forest, j: nat) returns (r: Run)
    requires Inv(f, j)
    ensures IsRun(r, j) && r.f == f && Build(f, j) == Result(Final(r), j + Turns(r))
    decreases NODES - j
  {
    hide Build, Merge, Sum, Lightest;
    var stop, a, b := Unfold(f, j);
    if stop {
      r := Stop(f);
    } else {
      var rest := BuildIsRun(Merge(f, j, a, b), j + 1);
      r := Turn(f, a, b, rest);
    }
  }

  lemma {:induction false} FinalInv(r: Run, j: nat)
    requires IsRun(r, j)
    ensures Inv(Final(r), j + Turns(r)) && Sum(Final(r).w) == Sum(r.f.w)
  {
    if r.Turn? {
      FinalInv(r.rest, j + 1);
    }
  }

  /** Once a node is dead its link and flag are final. */
  lemma {:induction false} DeadStaysPut(r: Run, j: nat, x: nat)
    requires IsRun(r, j) && x < j && !Live(r.f.w, x)
    requires Sized(Final(r))
    ensures Final(r).up[x] == r.f.up[x] && Final(r).flag[x] == r.f.flag[x]
  {
    if r.Turn? {
      assert r.rest.f.up[x] == r.f.up[x] && r.rest.f.flag[x] == r.f.flag[x] && !Live(r.rest.f.w, x);
      DeadStaysPut(r.rest, j + 1, x);
    }
  }

  /** In the finished tree the two merged nodes hang one step below the node that joined them. */
  lemma MergedDepth(r: Run, j: nat)
    requires IsRun(r, j) && r.Turn? && Sized(Final(r)) && WellFounded(Final(r).up)
    ensures var up := Final(r).up;
      && up[r.a] == up[r.b] == j
      && Depth(up, r.a) == Depth(up, r.b) == Depth(up, j) + 1
  {
    var g := r.rest.f;
    assert g.up[r.a] == j && g.up[r.b] == j && !Live(g.w, r.a) && !Live(g.w, r.b);
    DeadStaysPut(r.rest, j + 1, r.a);
    DeadStaysPut(r.rest, j + 1, r.b);
  }

  // ---------- code lengths: the Fibonacci bound ----------

  /** The d-th term of the Fibonacci recurrence started at p with increment q. */
  function Grow(d: nat, p: nat, q: nat): nat {
    if d == 0 then p else Grow(d - 1, p + q, p)
  }

  lemma {:induction false} GrowMonotone(d: nat, e: nat, p: nat, q: nat, p': nat, q': nat)
    requires d <= e && p <= p' && q <= q'
    ensures Grow(d, p, q) <= Grow(e, p', q')
    decreases e
  {
    if d > 0 {
      GrowMonotone(d - 1, e - 1, p + q, p, p' + q', p');
    } else if e > 0 {
      GrowMonotone(0, e - 1, p, 0, p' + q', p');
    }
  }

  lemma GrowStep(d: nat, p: nat, q: nat, s: nat, total: nat)
    requires Grow(d, s, p) <= total && p + q <= s
    ensures Grow(d + 1, p, q) <= total
  {
    GrowMonotone(d, d, p + q, p, s, p);
  }

  /** After a merge the new node weighs at least as much as x plus any other live node, and
      every other live node weighs at least as much as x. */
  lemma MergeOutweighs(f: Forest, j: nat, a: nat, b: nat, x: nat, q: nat)
    requires Inv(f, j) && j < NODES && a < j && b < j && Lightest(f.w, a, b)
    requires Live(f.w, x)
    requires forall i :: Live(f.w, i) && i != x ==> q <= f.w[i]
    ensures var g := Merge(f, j, a, b).w; Live(g, j)
    ensures var g := Merge(f, j, a, b).w; x == a || x == b ==> g[j] >= f.w[x] + q
    ensures var g := Merge(f, j, a, b).w;
      x == a || x == b ==> forall i :: Live(g, i) && i != j ==> f.w[x] <= g[i]
    ensures var g := Merge(f, j, a, b).w;
      x != a && x != b ==> Live(g, x) && g[x] == f.w[x] && forall i :: Live(g, i) && i != x ==> q <= g[i]
  {
    var g := Merge(f, j, a, b).w;
    forall i | Live(g, i) && i != j ensures Live(f.w, i) && g[i] == f.w[i] && i != a && i != b {
    }
  }

  /** Following x through one merge: the node y that x hangs from (or x itself) carries the
      whole obligation. */
  lemma FollowMerge(r: Run, j: nat, up: seq<int>, x: nat, q: nat, total: nat) returns (y: nat, q': nat)
    requires IsRun(r, j) && r.Turn? && Sized(Final(r)) && up == Final(r).up && WellFounded(up)
    requires Live(r.f.w, x)
    requires forall i :: Live(r.f.w, i) && i != x ==> q <= r.f.w[i]
    ensures Live(r.rest.f.w, y)
    ensures forall i :: Live(r.rest.f.w, i) && i != y ==> q' <= r.rest.f.w[i]
    ensures Grow(Depth(up, y), r.rest.f.w[y], q') <= total ==> Grow(Depth(up, x), r.f.w[x], q) <= total
  {
    MergeOutweighs(r.f, j, r.a, r.b, x, q);
    if x == r.a || x == r.b {
      MergedDepth(r, j);
      y, q' := j, r.f.w[x];
      if Grow(Depth(up, y), r.rest.f.w[y], q') <= total {
        GrowStep(Depth(up, j), r.f.w[x], q, r.rest.f.w[j], total);
      }
    } else {
      y, q' := x, q;
    }
  }

  /** A live node of weight p, all other live nodes weighing at least q, ends at a depth d
      only if the total weight reaches the d-th Fibonacci-like term. */
  lemma {:induction false} DepthNeedsWeight(r: Run, j: nat, up: seq<int>, x: nat, q: nat)
    requires IsRun(r, j) && Sized(Final(r)) && up == Final(r).up && WellFounded(up) && Live(r.f.w, x)
    requires forall i :: Live(r.f.w, i) && i != x ==> q <= r.f.w[i]
    ensures Grow(Depth(up, x), r.f.w[x], q) <= Sum(r.f.w)
  {
    if r.Stop? {
      SumAtLeast(r.f.w, x);
    } else {
      var y, q' := FollowMerge(r, j, up, x, q, Sum(r.f.w));
      DepthNeedsWeight(r.rest, j + 1, up, y, q');
    }
  }

  // ---------- the Kraft sum and the weighted length of the lengths the tree gives ----------

  /** Sum over live nodes of 2^(limit - length). */
  ghost function KraftTerms(w: seq<nat>, len: seq<nat>, limit: nat): (t: seq<nat>)
    requires |w| == |len|
    ensures |t| == |w|
    ensures forall i :: 0 <= i < |w| ==> t[i] == if w[i] > 0 && len[i] <= limit then Pow2(limit - len[i]) else 0
  {
    seq(|w|, i requires 0 <= i < |w| => if w[i] > 0 && len[i] <= limit then Pow2(limit - len[i]) else 0)
  }

  ghost function Kraft(w: seq<nat>, len: seq<nat>, limit: nat): nat
    requires |w| == |len|
  {
    Sum(KraftTerms(w, len, limit))
  }

  ghost function CostTerms(w: seq<nat>, len: seq<nat>): (t: seq<nat>)
    requires |w| == |len|
    ensures |t| == |w| && forall i :: 0 <= i < |w| ==> t[i] == w[i] * len[i]
  {
    seq(|w|, i requires 0 <= i < |w| => w[i] * len[i])
  }

  /** The number of bits the lengths spend on the whole weighted alphabet. */
  ghost function Cost(w: seq<nat>, len: seq<nat>): nat
    requires |w| == |len|
  {
    Sum(CostTerms(w, len))
  }

  ghost function CountTerms(w: seq<nat>): (t: seq<nat>)
    ensures |t| == |w| && forall i :: 0 <= i < |w| ==> t[i] == if w[i] > 0 then 1 else 0
  {
    seq(|w|, i requires 0 <= i < |w| => if w[i] > 0 then 1 else 0)
  }

  ghost function Count(w: seq<nat>): nat {
    Sum(CountTerms(w))
  }

  lemma MergeCount(f: Forest, j: nat, a: nat, b: nat)
    requires Inv(f, j) && j < NODES && a < j && b < j && a != b && Live(f.w, a) && Live(f.w, b)
    ensures Count(Merge(f, j, a, b).w) + 1 == Count(f.w)
  {
    SumUpdate3(CountTerms(f.w), CountTerms(Merge(f, j, a, b).w), a, b, j);
  }

  lemma CountAtMostOne(w: seq<nat>)
    requires forall x, y :: Live(w, x) && Live(w, y) ==> x == y
    ensures Count(w) <= 1
  {
    var t := CountTerms(w);
    if x :| Live(w, x) {
      SumUpdate(t, x, 0);
      var u := t[x := 0];
      forall i | 0 <= i < |u| ensures u[i] == 0 {
        assert Live(w, i) ==> i == x;
      }
      SumZero(u);
    } else {
      forall i | 0 <= i < |t| ensures t[i] == 0 {
        assert !Live(w, i);
      }
      SumZero(t);
    }
  }

  /** The loop leaves one root, unless it ran out of the 255 merge nodes. */
  lemma {:induction false} RootsLeft(r: Run, j: nat)
    requires IsRun(r, j) && Count(r.f.w) >= 1
    ensures Count(Final(r).w) + Turns(r) == Count(r.f.w)
    ensures Count(Final(r).w) >= 1
    ensures Count(Final(r).w) == 1 || j + Turns(r) == NODES
  {
    if r.Stop? {
      if j < NODES {
        CountAtMostOne(r.f.w);
      }
    } else {
      MergeCount(r.f, j, r.a, r.b);
      SumAtLeast2(CountTerms(r.f.w), r.a, r.b);
      RootsLeft(r.rest, j + 1);
    }
  }

  lemma MergeKraft(f: Forest, j: nat, a: nat, b: nat, len: seq<nat>, limit: nat)
    requires Inv(f, j) && j < NODES && a < j && b < j && a != b && Live(f.w, a) && Live(f.w, b)
    requires |len| == NODES && len[a] == len[b] == len[j] + 1 <= limit
    ensures Kraft(Merge(f, j, a, b).w, len, limit) == Kraft(f.w, len, limit)
  {
    SumUpdate3(KraftTerms(f.w, len, limit), KraftTerms(Merge(f, j, a, b).w, len, limit), a, b, j);
  }

  /** The weights after a merge. */
  lemma MergedWeights(f: Forest, j: nat, a: nat, b: nat)
    requires Inv(f, j) && j < NODES && a < j && b < j && a != b
    ensures var g := Merge(f, j, a, b).w;
      && |g| == |f.w| == NODES && f.w[j] == g[a] == g[b] == 0 && g[j] == f.w[a] + f.w[b]
      && forall i :: 0 <= i < NODES && i != a && i != b && i != j ==> g[i] == f.w[i]
  {
  }

  lemma TermsMoved(x: nat, y: nat, d: nat)
    ensures x * (d + 1) + y * (d + 1) == (x + y) * d + x + y
  {
  }

  lemma MergeCost(f: Forest, j: nat, a: nat, b: nat, len: seq<nat>)
    requires Inv(f, j) && j < NODES && a < j && b < j && a != b
    requires |len| == NODES && len[a] == len[b] == len[j] + 1
    ensures Cost(Merge(f, j, a, b).w, len) + f.w[a] + f.w[b] == Cost(f.w, len)
  {
    hide Merge, Sum, CostTerms;
    MergedWeights(f, j, a, b);
    var g := Merge(f, j, a, b).w;
    SumUpdate3(CostTerms(f.w, len), CostTerms(g, len), a, b, j);
    TermsMoved(f.w[a], f.w[b], len[j]);
  }

  /** Every merge keeps the Kraft sum, so the leaves together fill as much as the roots left. */
  lemma {:induction false} KraftOfRun(r: Run, j: nat, len: seq<nat>, limit: nat)
    requires IsRun(r, j) && Sized(Final(r)) && WellFounded(Final(r).up) && len == Depths(Final(r).up)
    requires forall i :: 0 <= i < NODES ==> len[i] <= limit
    ensures Kraft(r.f.w, len, limit) == Kraft(Final(r).w, len, limit)
  {
    if r.Turn? {
      MergedDepth(r, j);
      MergeKraft(r.f, j, r.a, r.b, len, limit);
      KraftOfRun(r.rest, j + 1, len, limit);
    }
  }

  lemma KraftOfRoots(f: Forest, j: nat, limit: nat)
    requires Inv(f, j)
    ensures Kraft(f.w, Depths(f.up), limit) == Pow2(limit) * Count(f.w)
  {
    hide Sum, Pow2, KraftTerms, CountTerms, Depths;
    var counts, terms := CountTerms(f.w), KraftTerms(f.w, Depths(f.up), limit);
    forall i | 0 <= i < |terms| ensures terms[i] == Pow2(limit) * counts[i] {
      if f.w[i] > 0 {
        assert Live(f.w, i) && Depth(f.up, i) == 0;
      }
    }
    SumScale(counts, terms, Pow2(limit));
  }

  // ---------- optimality: any code lengths that satisfy the Kraft inequality cost as much ----------

  ghost predicate KraftOk(w: seq<nat>, len: seq<nat>, limit: nat) {
    && |len| == |w|
    && (forall i :: Live(w, i) ==> len[i] <= limit)
    && Kraft(w, len, limit) <= Pow2(limit)
  }

  /** If no live length reaches the limit, halving every term gives the sum for limit - 1. */
  lemma HalveKraft(w: seq<nat>, len: seq<nat>, limit: nat)
    requires |len| == |w| && limit > 0
    requires forall i :: Live(w, i) ==> len[i] < limit
    ensures Kraft(w, len, limit) == 2 * Kraft(w, len, limit - 1)
  {
    var s, t := KraftTerms(w, len, limit - 1), KraftTerms(w, len, limit);
    forall i | 0 <= i < |w| ensures t[i] == 2 * s[i] {
      if Live(w, i) {
        assert Pow2(limit - len[i]) == 2 * Pow2(limit - 1 - len[i]);
      }
    }
    SumScale(s, t, 2);
  }

  lemma SwapProduct(p: nat, q: nat, x: nat, y: nat)
    requires p <= q && x <= y
    ensures p * y + q * x <= p * x + q * y
  {
    assert (q - p) * (y - x) >= 0;
  }

  lemma SwapCost(w: seq<nat>, len: seq<nat>, i: nat, a: nat)
    requires |len| == |w| && i < |w| && a < |w| && i != a && w[a] <= w[i] && len[a] <= len[i]
    ensures Cost(w, len[a := len[i]][i := len[a]]) <= Cost(w, len)
  {
    var len' := len[a := len[i]][i := len[a]];
    SumUpdate2(CostTerms(w, len), CostTerms(w, len'), a, i);
    SwapProduct(w[a], w[i], len[a], len[i]);
  }

  lemma SwapKraft(w: seq<nat>, len: seq<nat>, limit: nat, i: nat, a: nat)
    requires |len| == |w| && Live(w, i) && Live(w, a) && i != a
    ensures Kraft(w, len[a := len[i]][i := len[a]], limit) == Kraft(w, len, limit)
  {
    SumUpdate2(KraftTerms(w, len, limit), KraftTerms(w, len[a := len[i]][i := len[a]], limit), a, i);
  }

  /** Giving the longer length to the lighter node does not raise the cost. */
  lemma SwapLengths(w: seq<nat>, len: seq<nat>, limit: nat, i: nat, a: nat) returns (len': seq<nat>)
    requires KraftOk(w, len, limit)
    requires Live(w, i) && Live(w, a) && w[a] <= w[i] && len[a] <= len[i]
    ensures KraftOk(w, len', limit) && Cost(w, len') <= Cost(w, len)
    ensures len' == len[a := len[i]][i := len[a]]
  {
    len' := len[a := len[i]][i := len[a]];
    if i == a {
      assert len' == len;
    } else {
      SwapKraft(w, len, limit, i, a);
      SwapCost(w, len, i, a);
    }
  }

  lemma ShortenCost(w: seq<nat>, len: seq<nat>, a: nat, v: nat)
    requires |len| == |w| && a < |w| && v <= len[a]
    ensures Cost(w, len[a := v]) <= Cost(w, len)
  {
    var s, t := CostTerms(w, len), CostTerms(w, len[a := v]);
    forall i | 0 <= i < |s| ensures t[i] <= s[i] {
      if i == a {
        assert w[a] * v <= w[a] * len[a];
      }
    }
    SumMonotone(t, s);
  }

  /** The Kraft sum is one plus an even number when a single live length reaches the limit. */
  lemma LoneKraft(w: seq<nat>, len: seq<nat>, limit: nat, a: nat) returns (half: nat)
    requires |len| == |w| && limit > 0 && Live(w, a) && len[a] == limit
    requires forall i :: Live(w, i) && i != a ==> len[i] < limit
    ensures Kraft(w, len, limit) == 2 * half + 1
    ensures Kraft(w, len[a := limit - 1], limit) == 2 * half + 2
  {
    hide Sum;
    var others := w[a := 0];
    HalveKraft(others, len, limit);
    half := Kraft(others, len, limit - 1);
    var s, t, u := KraftTerms(w, len, limit), KraftTerms(others, len, limit), KraftTerms(w, len[a := limit - 1], limit);
    SumUpdate(t, a, 1);
    assert t[a := 1] == s;
    SumUpdate(t, a, 2);
    assert t[a := 2] == u;
  }

  /** A single live node at the limit makes the Kraft sum odd, so it can be shortened. */
  lemma ShortenLone(w: seq<nat>, len: seq<nat>, limit: nat, a: nat) returns (len': seq<nat>)
    requires KraftOk(w, len, limit) && limit > 0
    requires Live(w, a) && len[a] == limit
    requires forall i :: Live(w, i) && i != a ==> len[i] < limit
    ensures KraftOk(w, len', limit - 1) && Cost(w, len') <= Cost(w, len)
  {
    len' := len[a := limit - 1];
    var half := LoneKraft(w, len, limit, a);
    ShortenCost(w, len, a, limit - 1);
    HalveKraft(w, len', limit);
  }

  /** With two live nodes every length is positive. */
  lemma LimitPositive(w: seq<nat>, len: seq<nat>, limit: nat, a: nat, b: nat)
    requires KraftOk(w, len, limit) && Lightest(w, a, b)
    ensures limit > 0
  {
    SumAtLeast2(KraftTerms(w, len, limit), a, b);
  }

  /** One of the two lightest nodes can be given the greatest length, if some node has it. */
  lemma LightestTop(w: seq<nat>, len: seq<nat>, limit: nat, a: nat, b: nat, i: nat)
    returns (len': seq<nat>, top: nat, low: nat)
    requires KraftOk(w, len, limit) && Lightest(w, a, b)
    requires Live(w, i) && len[i] == limit
    ensures KraftOk(w, len', limit) && Cost(w, len') <= Cost(w, len)
    ensures (top == a && low == b) || (top == b && low == a)
    ensures len'[top] == limit
  {
    top, low := if i == b then b else a, if i == b then a else b;
    len' := SwapLengths(w, len, limit, i, top);
  }

  /** Either the two lightest nodes can both be given the greatest length, or the limit can
      be lowered. */
  lemma LowerLimit(w: seq<nat>, len: seq<nat>, limit: nat, a: nat, b: nat)
    returns (len': seq<nat>, done: bool)
    requires KraftOk(w, len, limit) && Lightest(w, a, b) && limit > 0
    ensures |len'| == |w| && Cost(w, len') <= Cost(w, len)
    ensures done ==> KraftOk(w, len', limit) && len'[a] == len'[b] == limit
    ensures !done ==> KraftOk(w, len', limit - 1)
  {
    if i :| Live(w, i) && len[i] == limit {
      var l1, top, low := LightestTop(w, len, limit, a, b, i);
      if k :| Live(w, k) && k != top && l1[k] == limit {
        len' := SwapLengths(w, l1, limit, k, low);
        done := true;
      } else {
        len' := ShortenLone(w, l1, limit, top);
        done := false;
      }
    } else {
      HalveKraft(w, len, limit);
      len', done := len, false;
    }
  }

  /** The two lightest nodes may be assumed to share the greatest length. */
  lemma {:induction false} LightestDeepest(w: seq<nat>, len: seq<nat>, limit: nat, a: nat, b: nat)
    returns (len': seq<nat>, limit': nat)
    requires KraftOk(w, len, limit) && Lightest(w, a, b)
    ensures KraftOk(w, len', limit') && Cost(w, len') <= Cost(w, len)
    ensures limit' > 0 && len'[a] == len'[b] == limit'
    decreases limit
  {
    LimitPositive(w, len, limit, a, b);
    var len1, done := LowerLimit(w, len, limit, a, b);
    if done {
      len', limit' := len1, limit;
    } else {
      len', limit' := LightestDeepest(w, len1, limit - 1, a, b);
    }
  }

  lemma LightestApart(w: seq<nat>, a: nat, b: nat)
    requires Lightest(w, a, b)
    ensures a != b && Live(w, a) && Live(w, b)
  {
  }

  /** From lengths for the nodes before a merge to lengths for the nodes after it. */
  lemma MergeLengths(f: Forest, j: nat, a: nat, b: nat, len: seq<nat>, limit: nat) returns (len': seq<nat>)
    requires Inv(f, j) && j < NODES && a < j && b < j && Lightest(f.w, a, b)
    requires KraftOk(f.w, len, limit) && limit > 0 && len[a] == len[b] == limit
    ensures KraftOk(Merge(f, j, a, b).w, len', limit)
    ensures Cost(Merge(f, j, a, b).w, len') + f.w[a] + f.w[b] == Cost(f.w, len)
  {
    hide Sum, Lightest;
    len' := len[j := limit - 1];
    var g := Merge(f, j, a, b).w;
    LightestApart(f.w, a, b);
    SumUpdate3(KraftTerms(f.w, len, limit), KraftTerms(g, len', limit), a, b, j);
    assert Pow2(1) == 2;
    assert CostTerms(f.w, len) == CostTerms(f.w, len');
    MergeCost(f, j, a, b, len');
  }

  lemma CostOfTurn(r: Run, j: nat, depth: seq<nat>)
    requires IsRun(r, j) && r.Turn? && Sized(Final(r)) && WellFounded(Final(r).up) && depth == Depths(Final(r).up)
    ensures Cost(r.rest.f.w, depth) + r.f.w[r.a] + r.f.w[r.b] == Cost(r.f.w, depth)
  {
    MergedDepth(r, j);
    MergeCost(r.f, j, r.a, r.b, depth);
  }

  /** Huffman's theorem for one run: no lengths satisfying the Kraft inequality cost less
      than the depths of the finished tree. */
  lemma {:induction false} RunIsOptimal(r: Run, j: nat, depth: seq<nat>, len: seq<nat>, limit: nat)
    requires IsRun(r, j) && Sized(Final(r)) && WellFounded(Final(r).up) && depth == Depths(Final(r).up)
    requires KraftOk(r.f.w, len, limit)
    ensures Cost(r.f.w, depth) <= Cost(r.f.w, len)
  {
    if r.Stop? {
      SumMonotone(CostTerms(r.f.w, depth), CostTerms(r.f.w, len));
    } else {
      var len1, limit1 := LightestDeepest(r.f.w, len, limit, r.a, r.b);
      var len2 := MergeLengths(r.f, j, r.a, r.b, len1, limit1);
      CostOfTurn(r, j, depth);
      RunIsOptimal(r.rest, j + 1, depth, len2, limit1);
    }
  }

  // ---------- prefix codes satisfy the Kraft inequality ----------

  ghost predicate PrefixFree(w: seq<nat>, codes: seq<Bits>)
    requires |codes| == |w|
  {
    forall x, y :: Live(w, x) && Live(w, y) && x != y ==> !(codes[x] <= codes[y])
  }

  ghost function Lengths(codes: seq<Bits>): (len: seq<nat>)
    ensures |len| == |codes| && forall i :: 0 <= i < |codes| ==> len[i] == |codes[i]|
  {
    seq(|codes|, i requires 0 <= i < |codes| => |codes[i]|)
  }

  /** The part of the alphabet whose codes start with the given bit. */
  ghost function Starting(w: seq<nat>, codes: seq<Bits>, bit: bool): (v: seq<nat>)
    requires |codes| == |w|
    ensures |v| == |w|
    ensures forall i :: 0 <= i < |w| ==> v[i] == if codes[i] != [] && codes[i][0] == bit then w[i] else 0
  {
    seq(|w|, i requires 0 <= i < |w| => if codes[i] != [] && codes[i][0] == bit then w[i] else 0)
  }

  ghost function Tails(codes: seq<Bits>): (t: seq<Bits>)
    ensures |t| == |codes|
    ensures forall i :: 0 <= i < |codes| ==> t[i] == if codes[i] == [] then [] else codes[i][1..]
  {
    seq(|codes|, i requires 0 <= i < |codes| => if codes[i] == [] then [] else codes[i][1..])
  }

  lemma StartingPrefixFree(w: seq<nat>, codes: seq<Bits>, bit: bool)
    requires |codes| == |w| && PrefixFree(w, codes)
    ensures PrefixFree(Starting(w, codes, bit), Tails(codes))
  {
    var v, t := Starting(w, codes, bit), Tails(codes);
    forall x, y | Live(v, x) && Live(v, y) && x != y ensures !(t[x] <= t[y]) {
      assert codes[x] == [bit] + t[x] && codes[y] == [bit] + t[y];
      assert !(codes[x] <= codes[y]);
    }
  }

  /** A live empty code is a prefix of every other, so it stands alone. */
  lemma EmptyCodeAlone(w: seq<nat>, codes: seq<Bits>, limit: nat, x: nat)
    requires |codes| == |w| && PrefixFree(w, codes)
    requires Live(w, x) && codes[x] == []
    ensures Kraft(w, Lengths(codes), limit) == Pow2(limit)
  {
    var terms := KraftTerms(w, Lengths(codes), limit);
    SumUpdate(terms, x, 0);
    var rest := terms[x := 0];
    forall i | 0 <= i < |rest| ensures rest[i] == 0 {
      if i != x {
        assert codes[x] <= codes[i];
      }
    }
    SumZero(rest);
  }

  lemma NothingLive(w: seq<nat>, len: seq<nat>, limit: nat)
    requires |len| == |w| && forall i :: !Live(w, i)
    ensures Kraft(w, len, limit) == 0
  {
    var terms := KraftTerms(w, len, limit);
    forall i | 0 <= i < |terms| ensures terms[i] == 0 {
      assert !Live(w, i);
    }
    SumZero(terms);
  }

  /** The Kraft inequality for any prefix-free code. */
  lemma {:induction false} KraftInequality(w: seq<nat>, codes: seq<Bits>, limit: nat)
    requires |codes| == |w| && PrefixFree(w, codes)
    requires forall i :: Live(w, i) ==> |codes[i]| <= limit
    ensures Kraft(w, Lengths(codes), limit) <= Pow2(limit)
    decreases limit
  {
    if x :| Live(w, x) && codes[x] == [] {
      EmptyCodeAlone(w, codes, limit, x);
    } else if limit == 0 {
      NothingLive(w, Lengths(codes), limit);
    } else {
      var w0, w1, t := Starting(w, codes, false), Starting(w, codes, true), Tails(codes);
      StartingPrefixFree(w, codes, false);
      StartingPrefixFree(w, codes, true);
      KraftInequality(w0, t, limit - 1);
      KraftInequality(w1, t, limit - 1);
      SplitKraft(w, codes, limit);
    }
  }

  lemma SplitKraft(w: seq<nat>, codes: seq<Bits>, limit: nat)
    requires |codes| == |w| && limit > 0
    requires forall i :: Live(w, i) ==> codes[i] != []
    ensures Kraft(w, Lengths(codes), limit)
         == Kraft(Starting(w, codes, false), Lengths(Tails(codes)), limit - 1)
          + Kraft(Starting(w, codes, true), Lengths(Tails(codes)), limit - 1)
  {
    var t := Lengths(Tails(codes));
    var s0 := KraftTerms(Starting(w, codes, false), t, limit - 1);
    var s1 := KraftTerms(Starting(w, codes, true), t, limit - 1);
    var s := KraftTerms(w, Lengths(codes), limit);
    forall i | 0 <= i < |w| ensures s[i] == s0[i] + s1[i] {
      assert Live(w, i) ==> codes[i] != [];
    }
    SumAdd(s0, s1, s);
  }

  // ---------- the tree below the roots ----------

  ghost predicate IsChild(f: Forest, x: int, k: int, bit: bool)
    requires Sized(f)
  {
    0 <= x < NODES && f.up[x] == k && f.flag[x] == bit
  }

  ghost predicate HasChild(f: Forest, k: int, bit: bool)
    requires Sized(f)
  {
    exists x :: IsChild(f, x, k, bit)
  }

  /** Siblings carry different flags, and every merge node below j has a child for each flag. */
  ghost predicate Binary(f: Forest, j: nat) {
    && Sized(f) && j <= NODES
    && (forall x, y :: 0 <= x < y < NODES && f.up[x] == f.up[y] != -1 ==> f.flag[x] != f.flag[y])
    && (forall k, bit :: SYMBOLS <= k < j ==> HasChild(f, k, bit))
    && (forall x :: 0 <= x < NODES ==> f.up[x] == -1 || SYMBOLS <= f.up[x] < j)
    && (forall x :: SYMBOLS <= x < j ==> Live(f.w, x) || f.up[x] != -1)
  }

  lemma MergeKeepsBinary(f: Forest, j: nat, a: nat, b: nat)
    requires Binary(f, j) && SYMBOLS <= j < NODES && a < j && b < j && a != b
    requires Live(f.w, a) && Live(f.w, b) && f.up[a] == f.up[b] == -1
    ensures Binary(Merge(f, j, a, b), j + 1)
  {
    var g := Merge(f, j, a, b);
    forall k, bit | SYMBOLS <= k < j + 1 ensures HasChild(g, k, bit) {
      if k == j {
        assert IsChild(g, if bit then b else a, k, bit);
      } else {
        assert HasChild(f, k, bit);
        var x :| IsChild(f, x, k, bit);
        assert IsChild(g, x, k, bit);
      }
    }
  }

  lemma {:induction false} RunKeepsBinary(r: Run, j: nat)
    requires IsRun(r, j) && Binary(r.f, j)
    ensures Binary(Final(r), j + Turns(r))
  {
    if r.Turn? {
      MergeKeepsBinary(r.f, j, r.a, r.b);
      RunKeepsBinary(r.rest, j + 1);
    }
  }

  /** A live node ends up as a root or hangs from a merge node; a dead one is left alone. */
  lemma {:induction false} LiveEndsInTree(r: Run, j: nat, x: nat)
    requires IsRun(r, j) && Live(r.f.w, x) && Sized(Final(r))
    ensures Live(Final(r).w, x) || Final(r).up[x] != -1
  {
    if r.Turn? {
      if x == r.a || x == r.b {
        MergedDepth2(r, j, x);
      } else {
        LiveEndsInTree(r.rest, j + 1, x);
      }
    }
  }

  lemma MergedDepth2(r: Run, j: nat, x: nat)
    requires IsRun(r, j) && r.Turn? && (x == r.a || x == r.b) && Sized(Final(r))
    ensures Final(r).up[x] == j
  {
    assert r.rest.f.up[x] == j && !Live(r.rest.f.w, x);
    DeadStaysPut(r.rest, j + 1, x);
  }

  ghost function Root(up: seq<int>, x: nat): (root: nat)
    requires WellFounded(up) && x < NODES
    ensures root < NODES && up[root] == -1
    decreases NODES - x
  {
    if up[x] == -1 then x else Root(up, up[x])
  }

  /** Two nodes of one tree reached by the same flags are the same node. */
  lemma {:induction false} PathIdentifies(f: Forest, j: nat, x: nat, y: nat)
    requires Binary(f, j) && WellFounded(f.up) && x < NODES && y < NODES
    requires Path(f, x) == Path(f, y) && Root(f.up, x) == Root(f.up, y)
    ensures x == y
    decreases NODES - x
  {
    if f.up[x] != -1 {
      assert Path(f, x)[|Path(f, x)| - 1] == f.flag[x];
      assert Path(f, f.up[x]) == Path(f, x)[..|Path(f, x)| - 1];
      assert f.up[y] != -1;
      assert Path(f, f.up[y]) == Path(f, y)[..|Path(f, y)| - 1];
      PathIdentifies(f, j, f.up[x], f.up[y]);
    }
  }

  /** The node k flags below the root on the way to y: y itself, or a merge node. */
  lemma {:induction false} Ancestor(f: Forest, j: nat, y: nat, k: nat) returns (z: nat)
    requires Binary(f, j) && WellFounded(f.up) && y < NODES && k <= |Path(f, y)|
    ensures z < NODES && Path(f, z) == Path(f, y)[..k] && Root(f.up, z) == Root(f.up, y)
    ensures z == y || z >= SYMBOLS
    decreases NODES - y
  {
    if k == |Path(f, y)| {
      z := y;
    } else {
      z := Ancestor(f, j, f.up[y], k);
      assert Path(f, f.up[y])[..k] == Path(f, y)[..k];
    }
  }

  /** The root above a symbol that is in the tree is live. */
  lemma {:induction false} RootIsLive(f: Forest, j: nat, x: nat)
    requires Binary(f, j) && WellFounded(f.up) && x < NODES
    requires Live(f.w, x) || f.up[x] != -1
    ensures Live(f.w, Root(f.up, x))
    decreases NODES - x
  {
    if f.up[x] != -1 {
      RootIsLive(f, j, f.up[x]);
    }
  }

  /** Every merge node has a symbol below it, at a greater depth and in the same tree. */
  lemma {:induction false} SymbolBelow(f: Forest, j: nat, x: nat) returns (s: nat)
    requires Binary(f, j) && WellFounded(f.up) && x < j
    ensures s < SYMBOLS && Depth(f.up, x) <= Depth(f.up, s)
    ensures s != x ==> Depth(f.up, x) < Depth(f.up, s) && f.up[s] != -1
    decreases x
  {
    if x < SYMBOLS {
      s := x;
    } else {
      assert HasChild(f, x, false);
      var c :| IsChild(f, c, x, false);
      s := SymbolBelow(f, j, c);
    }
  }

  /** Following the bits down from x reaches a symbol, if there are bits enough. */
  lemma {:induction false} Descend(f: Forest, j: nat, x: nat, bits: Bits) returns (s: nat)
    requires Binary(f, j) && WellFounded(f.up) && x < j
    requires Path(f, x) <= bits
    requires forall y :: 0 <= y < SYMBOLS && f.up[y] != -1 ==> Depth(f.up, y) <= |bits|
    ensures s < SYMBOLS && Path(f, s) <= bits && (s == x || f.up[s] != -1)
    decreases x
  {
    if x < SYMBOLS {
      s := x;
    } else {
      var d := |Path(f, x)|;
      var below := SymbolBelow(f, j, x);
      assert d < |bits|;
      assert HasChild(f, x, bits[d]);
      var c :| IsChild(f, c, x, bits[d]);
      assert Path(f, c) == bits[..d + 1];
      s := Descend(f, j, c, bits);
    }
  }

  // ---------- the tables of one key frame ----------

  /** The 256 byte frequencies of a key frame; symbol 256 always has frequency 1. */
  predicate Counts(c: seq<nat>) {
    |c| == 256 && forall i :: 0 <= i < |c| ==> c[i] <= 255
  }

  function Frequencies(c: seq<nat>): (w: seq<nat>)
    requires Counts(c)
    ensures |w| == SYMBOLS
  {
    c + [1]
  }

  function Start(c: seq<nat>): (f: Forest)
    requires Counts(c)
    ensures Sized(f)
  {
    Forest(Frequencies(c) + seq(NODES - SYMBOLS, _ => 0), seq(NODES, _ => -1), seq(NODES, _ => false))
  }

  function Tree(c: seq<nat>): (f: Forest)
    requires Counts(c)
    ensures Sized(f)
  {
    Build(Start(c), SYMBOLS).f
  }

  lemma {:induction false} SumBytes(c: seq<nat>)
    requires forall i :: 0 <= i < |c| ==> c[i] <= 255
    ensures Sum(c) <= 255 * |c|
  {
    if c != [] {
      SumBytes(c[..|c| - 1]);
    }
  }

  lemma StartInv(c: seq<nat>)
    requires Counts(c)
    ensures Inv(Start(c), SYMBOLS) && Binary(Start(c), SYMBOLS)
    ensures Sum(Start(c).w) == Sum(Frequencies(c)) <= MAX_TOTAL
  {
    SumPadded(Frequencies(c), Start(c).w);
    assert Frequencies(c)[..256] == c;
    SumBytes(c);
  }

  lemma TreeRun(c: seq<nat>) returns (r: Run)
    requires Counts(c)
    ensures IsRun(r, SYMBOLS) && r.f == Start(c) && Tree(c) == Final(r)
    ensures Inv(Tree(c), SYMBOLS + Turns(r)) && Binary(Tree(c), SYMBOLS + Turns(r))
  {
    StartInv(c);
    r := BuildIsRun(Start(c), SYMBOLS);
    FinalInv(r, SYMBOLS);
    RunKeepsBinary(r, SYMBOLS);
  }

  lemma TreeWellFounded(c: seq<nat>)
    requires Counts(c)
    ensures WellFounded(Tree(c).up)
  {
    var r := TreeRun(c);
  }

  /** The code the tables give symbol s: the flags from the root down to node s. */
  ghost function Code(c: seq<nat>, s: nat): Bits
    requires Counts(c) && s < SYMBOLS
  {
    TreeWellFounded(c);
    Path(Tree(c), s)
  }

  ghost function Codes(c: seq<nat>): (codes: seq<Bits>)
    requires Counts(c)
    ensures |codes| == SYMBOLS && forall s :: 0 <= s < SYMBOLS ==> codes[s] == Code(c, s)
  {
    seq(SYMBOLS, s requires 0 <= s < SYMBOLS => Code(c, s))
  }

  lemma {:induction false} GrowPastTotal(d: nat, p: nat)
    requires d >= 23 && p >= 1
    ensures Grow(d, p, 1) > MAX_TOTAL
  {
    GrowMonotone(23, d, 1, 1, p, 1);
    assert Grow(1, 46368, 28657) == 75025;
    assert Grow(5, 6765, 4181) == Grow(3, 17711, 10946) == Grow(1, 46368, 28657);
    assert Grow(11, 377, 233) == Grow(9, 987, 610) == Grow(7, 2584, 1597) == Grow(5, 6765, 4181);
    assert Grow(17, 21, 13) == Grow(15, 55, 34) == Grow(13, 144, 89) == Grow(11, 377, 233);
    assert Grow(23, 1, 1) == Grow(21, 3, 2) == Grow(19, 8, 5) == Grow(17, 21, 13);
  }

  /** No code is longer than 22 bits, so the overflow message for more than 31 is never
      reached and three 9-bit table lookups always suffice to read a symbol. */
  lemma CodesAreShort(c: seq<nat>, s: nat)
    requires Counts(c) && s < SYMBOLS
    ensures |Code(c, s)| <= 22
  {
    var r := TreeRun(c);
    StartInv(c);
    if Live(r.f.w, s) {
      DepthNeedsWeight(r, SYMBOLS, Tree(c).up, s, 1);
      if |Code(c, s)| >= 23 {
        GrowPastTotal(|Code(c, s)|, r.f.w[s]);
      }
    } else {
      DeadStaysPut(r, SYMBOLS, s);
    }
  }

  lemma AllDepthsShort(c: seq<nat>, x: nat)
    requires Counts(c) && x < NODES && WellFounded(Tree(c).up)
    ensures Depth(Tree(c).up, x) <= 22
  {
    var r := TreeRun(c);
    var j := SYMBOLS + Turns(r);
    if x < j {
      var s := SymbolBelow(Tree(c), j, x);
      CodesAreShort(c, s);
    }
  }

  /** How many symbols occur: symbol 256, and those with a frequency byte above zero. */
  ghost function LiveSymbols(c: seq<nat>): nat
    requires Counts(c)
  {
    Count(Frequencies(c))
  }

  lemma CountStart(c: seq<nat>)
    requires Counts(c)
    ensures Count(Start(c).w) == LiveSymbols(c) >= 1
  {
    SumPadded(CountTerms(Frequencies(c)), CountTerms(Start(c).w));
    SumAtLeast(CountTerms(Frequencies(c)), 256);
  }

  lemma {:induction false} CountBounded(w: seq<nat>)
    ensures Count(w) <= |w|
  {
    if w != [] {
      var n := |w| - 1;
      assert CountTerms(w)[..n] == CountTerms(w[..n]);
      CountBounded(w[..n]);
    }
  }

  /** Up to 256 symbols end in one tree; 257 leave two, for want of a 256th merge node. */
  lemma RootCount(c: seq<nat>)
    requires Counts(c)
    ensures Count(Tree(c).w) == if LiveSymbols(c) <= 256 then 1 else 2
  {
    var r := TreeRun(c);
    CountStart(c);
    CountBounded(Frequencies(c));
    RootsLeft(r, SYMBOLS);
  }

  /** The terms of the 257 symbols and of the 512 nodes add up to the same. */
  lemma SymbolsAlone(c: seq<nat>, len: seq<nat>, len': seq<nat>, limit: nat)
    requires Counts(c) && |len| == SYMBOLS && |len'| == NODES && len'[..SYMBOLS] == len
    ensures Kraft(Frequencies(c), len, limit) == Kraft(Start(c).w, len', limit)
    ensures Cost(Frequencies(c), len) == Cost(Start(c).w, len')
  {
    assert forall i :: 0 <= i < SYMBOLS ==> len'[i] == len'[..SYMBOLS][i];
    SumPadded(KraftTerms(Frequencies(c), len, limit), KraftTerms(Start(c).w, len', limit));
    SumPadded(CostTerms(Frequencies(c), len), CostTerms(Start(c).w, len'));
  }

  lemma TreeKraft(c: seq<nat>, len: seq<nat>, limit: nat)
    requires Counts(c) && 22 <= limit && WellFounded(Tree(c).up) && len == Depths(Tree(c).up)
    ensures Kraft(Start(c).w, len, limit) == Pow2(limit) * Count(Tree(c).w)
  {
    var r := TreeRun(c);
    forall x | 0 <= x < NODES ensures len[x] <= limit {
      AllDepthsShort(c, x);
    }
    KraftOfRun(r, SYMBOLS, len, limit);
    KraftOfRoots(Tree(c), SYMBOLS + Turns(r), limit);
  }

  /** The Kraft sum of the code lengths is exactly one, or exactly two with 257 symbols. */
  lemma KraftIsExact(c: seq<nat>, limit: nat)
    requires Counts(c) && 22 <= limit
    ensures Kraft(Frequencies(c), Lengths(Codes(c)), limit)
         == Pow2(limit) * (if LiveSymbols(c) <= 256 then 1 else 2)
  {
    TreeWellFounded(c);
    var len := Depths(Tree(c).up);
    TreeKraft(c, len, limit);
    RootCount(c);
    SymbolsAlone(c, Lengths(Codes(c)), len, limit);
  }

  lemma CodeOfPrefix(c: seq<nat>, x: nat, y: nat)
    requires Counts(c) && LiveSymbols(c) <= 256
    requires Live(Frequencies(c), x) && Live(Frequencies(c), y) && x != y
    ensures !(Code(c, x) <= Code(c, y))
  {
    var r := TreeRun(c);
    var t, j := Tree(c), SYMBOLS + Turns(r);
    SameRoot(c, x, y);
    if Code(c, x) <= Code(c, y) {
      var z := Ancestor(t, j, y, |Code(c, x)|);
      PathIdentifies(t, j, z, x);
    }
  }

  /** With at most 256 symbols all of them hang from one root. */
  lemma SameRoot(c: seq<nat>, x: nat, y: nat)
    requires Counts(c) && LiveSymbols(c) <= 256 && WellFounded(Tree(c).up)
    requires Live(Frequencies(c), x) && Live(Frequencies(c), y)
    ensures Root(Tree(c).up, x) == Root(Tree(c).up, y)
  {
    var r := TreeRun(c);
    var t, j := Tree(c), SYMBOLS + Turns(r);
    LiveEndsInTree(r, SYMBOLS, x);
    LiveEndsInTree(r, SYMBOLS, y);
    RootIsLive(t, j, x);
    RootIsLive(t, j, y);
    RootCount(c);
    var rx, ry := Root(t.up, x), Root(t.up, y);
    if rx != ry {
      SumAtLeast2(CountTerms(t.w), rx, ry);
    }
  }

  /** The tables are a prefix code exactly when at most 256 symbols occur. */
  lemma PrefixFreeIffRoom(c: seq<nat>)
    requires Counts(c)
    ensures PrefixFree(Frequencies(c), Codes(c)) <==> LiveSymbols(c) <= 256
  {
    if LiveSymbols(c) <= 256 {
      forall x, y | Live(Frequencies(c), x) && Live(Frequencies(c), y) && x != y
        ensures !(Codes(c)[x] <= Codes(c)[y])
      {
        CodeOfPrefix(c, x, y);
      }
    } else if PrefixFree(Frequencies(c), Codes(c)) {
      forall s | Live(Frequencies(c), s) ensures |Codes(c)[s]| <= 22 {
        CodesAreShort(c, s);
      }
      KraftInequality(Frequencies(c), Codes(c), 22);
      KraftIsExact(c, 22);
    }
  }

  lemma {:induction false} AllCounted(w: seq<nat>)
    requires forall i :: 0 <= i < |w| ==> w[i] > 0
    ensures Count(w) == |w|
  {
    if w != [] {
      var n := |w| - 1;
      assert CountTerms(w)[..n] == CountTerms(w[..n]);
      AllCounted(w[..n]);
    }
  }

  /** When all 256 frequency bytes are 1, the code of one symbol begins with that of another. */
  lemma FullAlphabetIsAmbiguous()
    ensures var c := seq(256, _ => 1);
      Counts(c) && LiveSymbols(c) == 257
      && exists x, y :: Live(Frequencies(c), x) && Live(Frequencies(c), y) && x != y && Code(c, x) <= Code(c, y)
  {
    var c := seq(256, _ => 1);
    AllCounted(Frequencies(c));
    PrefixFreeIffRoom(c);

  }

  lemma TreeIsOptimal(c: seq<nat>, depth: seq<nat>, len: seq<nat>, limit: nat)
    requires Counts(c) && WellFounded(Tree(c).up) && depth == Depths(Tree(c).up)
    requires KraftOk(Start(c).w, len, limit)
    ensures Cost(Start(c).w, depth) <= Cost(Start(c).w, len)
  {
    var r := TreeRun(c);
    RunIsOptimal(r, SYMBOLS, depth, len, limit);
  }

  /** No prefix code for the same frequencies spends fewer bits. */
  lemma CodesAreOptimal(c: seq<nat>, other: seq<Bits>)
    requires Counts(c) && |other| == SYMBOLS && PrefixFree(Frequencies(c), other)
    ensures Cost(Frequencies(c), Lengths(Codes(c))) <= Cost(Frequencies(c), Lengths(other))
  {
    TreeWellFounded(c);
    var limit := MaxLength(other);
    KraftInequality(Frequencies(c), other, limit);
    var len, depth := Lengths(other) + seq(NODES - SYMBOLS, _ => 0), Depths(Tree(c).up);
    SymbolsAlone(c, Lengths(other), len, limit);
    SymbolsAlone(c, Lengths(Codes(c)), depth, limit);
    TreeIsOptimal(c, depth, len, limit);
  }

  ghost function MaxLength(codes: seq<Bits>): (m: nat)
    ensures forall i :: 0 <= i < |codes| ==> |codes[i]| <= m
  {
    if codes == [] then 0
    else
      var n := |codes| - 1;
      var m := MaxLength(codes[..n]);
      assert forall i :: 0 <= i < n ==> codes[i] == codes[..n][i];
      if |codes[n]| > m then |codes[n]| else m
  }

  ghost predicate StartsWithSymbol(c: seq<nat>, bits: Bits, s: nat)
    requires Counts(c)
  {
    Live(Frequencies(c), s) && Code(c, s) <= bits
  }

  /** Walking down from the root along the bits ends at a symbol that occurs. */
  lemma WalkFindsSymbol(c: seq<nat>, bits: Bits) returns (s: nat)
    requires Counts(c) && 22 <= |bits|
    ensures StartsWithSymbol(c, bits, s)
  {
    var r := TreeRun(c);
    var f, j := Tree(c), SYMBOLS + Turns(r);
    forall y | 0 <= y < SYMBOLS ensures Depth(f.up, y) <= |bits| {
      CodesAreShort(c, y);
    }
    LiveEndsInTree(r, SYMBOLS, 256);
    RootIsLive(f, j, 256);
    s := Descend(f, j, Root(f.up, 256), bits);
    if !Live(Start(c).w, s) {
      DeadStaysPut(r, SYMBOLS, s);
      DeadStaysDead(r, SYMBOLS, s);
    }
  }

  lemma {:induction false} DeadStaysDead(r: Run, j: nat, x: nat)
    requires IsRun(r, j) && x < j && !Live(r.f.w, x)
    ensures !Live(Final(r).w, x)
  {
    if r.Turn? {
      DeadStaysDead(r.rest, j + 1, x);
    }
  }

  /** Any 22 bits begin with the code of exactly one symbol that occurs. */
  lemma EveryStringDecodes(c: seq<nat>, bits: Bits)
    requires Counts(c) && LiveSymbols(c) <= 256 && 22 <= |bits|
    ensures exists s :: StartsWithSymbol(c, bits, s) && forall t :: StartsWithSymbol(c, bits, t) ==> t == s
  {
    var s := WalkFindsSymbol(c, bits);
    forall t | StartsWithSymbol(c, bits, t) ensures t == s {
      if t != s {
        CodeOfPrefix(c, s, t);
        CodeOfPrefix(c, t, s);
      }
    }
  }

  // ---------- the decoder's loops over its arrays ----------

  /** The inner scan: the two smallest non-zero frequencies among the first j nodes. */
  method ScanLightest(frequency: array<nat>, j: nat) returns (minFreq: (nat, nat), smallest: (nat, nat))
    requires j <= frequency.Length
    ensures Two(minFreq.0, smallest.0, minFreq.1, smallest.1) == Scan(frequency[..], j)
  {
    minFreq, smallest := (NO_FREQ, NO_FREQ), (0, 0);
    for i := 0 to j
      invariant Two(minFreq.0, smallest.0, minFreq.1, smallest.1) == Scan(frequency[..], i)
    {
      if frequency[i] == 0 {
        continue;
      }
      if frequency[i] < minFreq.1 {
        if frequency[i] < minFreq.0 {
          minFreq := (frequency[i], minFreq.0);
          smallest := (i, smallest.0);
        } else {
          minFreq := (minFreq.0, frequency[i]);
          smallest := (smallest.0, i);
        }
      }
    }
  }

  /** One merge, in place: the lightest nodes become the children of node j. */
  method JoinNodes(frequency: array<nat>, up: array<int>, flag: array<bool>, j: nat,
                   minFreq: (nat, nat), smallest: (nat, nat))
    requires frequency.Length == up.Length == flag.Length == NODES && up as object != frequency
    requires smallest.0 < j < NODES && smallest.1 < j
    requires minFreq.0 == frequency[smallest.0] && minFreq.1 == frequency[smallest.1]
    modifies frequency, up, flag
    ensures Forest(frequency[..], up[..], flag[..])
         == Merge(Forest(old(frequency[..]), old(up[..]), old(flag[..])), j, smallest.0, smallest.1)
  {
    frequency[j] := minFreq.0 + minFreq.1;
    flag[smallest.0] := false;
    flag[smallest.1] := true;
    up[smallest.0] := j;
    up[smallest.1] := j;
    frequency[smallest.0] := 0;
    frequency[smallest.1] := 0;
  }

  /** The merge loop, in place on the three node arrays. */
  method MergeNodes(frequency: array<nat>, up: array<int>, flag: array<bool>)
    requires frequency.Length == up.Length == flag.Length == NODES && up as object != frequency
    modifies frequency, up, flag
    ensures Forest(frequency[..], up[..], flag[..])
         == Build(Forest(old(frequency[..]), old(up[..]), old(flag[..])), SYMBOLS).f
  {
    ghost var result := Build(Forest(frequency[..], up[..], flag[..]), SYMBOLS).f;
    for j := SYMBOLS to NODES
      invariant Build(Forest(frequency[..], up[..], flag[..]), j).f == result
    {
      var minFreq, smallest := ScanLightest(frequency, j);
      if minFreq.1 == NO_FREQ {
        break;
      }
      JoinNodes(frequency, up, flag, j, minFreq, smallest);
    }
  }

  /** One symbol's walk up the tree: for (node = j; up[node] != -1; node = up[node]). */
  method WalkUp(up: array<int>, flag: array<bool>, j: nat, ghost f: Forest) returns (len: nat, bits: nat)
    requires up.Length == flag.Length == NODES && j < NODES
    requires Sized(f) && WellFounded(f.up) && up[..] == f.up && flag[..] == f.flag
    ensures len == |Path(f, j)| && bits == Value(Path(f, j))
  {
    ghost var suffix: Bits := [];
    len, bits := 0, 0;
    var node := j;
    while up[node] != -1
      invariant node < NODES
      invariant Path(f, node) + suffix == Path(f, j)
      invariant len == |suffix| && bits == Value(suffix)
      decreases NODES - node
    {
      ValueOfCons(flag[node], suffix);
      suffix := [flag[node]] + suffix;
      bits := bits + if flag[node] then Pow2(len) else 0;
      len := len + 1;
      node := up[node];
    }
    assert suffix == Path(f, j);
  }

  /** Builds the node arrays of one key frame. */
  method BuildNodes(counts: seq<nat>) returns (up: array<int>, flag: array<bool>)
    requires Counts(counts)
    ensures fresh(up) && fresh(flag)
    ensures up[..] == Tree(counts).up && flag[..] == Tree(counts).flag
  {
    var frequency := new nat[NODES](i => if 0 <= i < 256 && i < |counts| then counts[i] else 0);
    up := new int[NODES](_ => -1);
    flag := new bool[NODES](_ => false);
    frequency[256] := 1;
    assert Forest(frequency[..], up[..], flag[..]) == Start(counts);
    MergeNodes(frequency, up, flag);
  }

  /** The tables handed to init_vlc, computed from the frequency bytes of a key frame. */
  method ReadHuffmanTables(counts: seq<nat>) returns (lenTab: array<nat>, bitsTab: array<nat>, overflow: bool)
    requires Counts(counts)
    ensures lenTab[..] == Lengths(Codes(counts))
    ensures bitsTab.Length == SYMBOLS
    ensures forall s :: 0 <= s < SYMBOLS ==> bitsTab[s] == Value(Code(counts, s))
    ensures !overflow
  {
    var up, flag := BuildNodes(counts);
    TreeWellFounded(counts);
    lenTab, bitsTab, overflow := new nat[SYMBOLS], new nat[SYMBOLS], false;
    ghost var tree := Tree(counts);
    for j := 0 to SYMBOLS
      invariant up[..] == tree.up && flag[..] == tree.flag
      invariant forall s :: 0 <= s < j ==> lenTab[s] == |Code(counts, s)| && bitsTab[s] == Value(Code(counts, s))
      invariant !overflow
    {
      var len, bits := WalkUp(up, flag, j, tree);
      CodesAreShort(counts, j);
      overflow := overflow || len > 31;
      lenTab[j], bitsTab[j] := len, bits;
    }
  }
}
