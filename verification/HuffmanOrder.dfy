/** Which tree and which bits the merge loop of a 4X Movie key frame gives (libavcodec/4xm.c,
    read_huffman_tables), said without the loop: the weight of a node is the sum of the frequency
    bytes of the symbols below it. */
module HuffmanOrder {
  import opened Sums
  import opened BitIO
  import opened Huffman4xm

  // ---------- weights ----------

  /** Does the way up from node s lead through node x? */
  ghost predicate Below(up: seq<int>, s: nat, x: nat)
    requires WellFounded(up) && s < NODES
    decreases NODES - s
  {
    s == x || (up[s] != -1 && Below(up, up[s], x))
  }

  /** The frequency bytes of the symbols below x, one for symbol 256, zero for all other symbols. */
  ghost function WeightTerms(c: seq<nat>, up: seq<int>, x: nat): (t: seq<nat>)
    requires Counts(c) && WellFounded(up)
    ensures |t| == SYMBOLS
    ensures forall s :: 0 <= s < SYMBOLS ==> t[s] == if Below(up, s, x) then (if s < 256 then c[s] else 1) else 0
  {
    seq(SYMBOLS, s requires 0 <= s < SYMBOLS => if Below(up, s, x) then (if s < 256 then c[s] else 1) else 0)
  }

  /** The weight of node x in a finished tree. */
  ghost function Weight(c: seq<nat>, up: seq<int>, x: nat): nat
    requires Counts(c) && WellFounded(up)
  {
    Sum(WeightTerms(c, up, x))
  }

  /** Node x comes before node y: it is lighter, or as light and of a smaller number. */
  ghost predicate Before(c: seq<nat>, up: seq<int>, x: nat, y: nat)
    requires Counts(c) && WellFounded(up)
  {
    Weight(c, up, x) < Weight(c, up, y) || (Weight(c, up, x) == Weight(c, up, y) && x < y)
  }

  /** Node y is there when node k is made: it holds symbols that occur, and hangs from no node
      before k. */
  ghost predicate PresentAt(c: seq<nat>, up: seq<int>, k: nat, y: nat)
    requires Counts(c) && WellFounded(up)
  {
    y < k && y < NODES && Weight(c, up, y) > 0 && (up[y] == -1 || up[y] >= k)
  }

  // ---------- the weights of the loop are these ----------

  /** Every node made so far that hangs from none has its weight in the array. */
  ghost predicate Weighed(c: seq<nat>, up: seq<int>, f: Forest, j: nat)
    requires Counts(c) && WellFounded(up)
  {
    Sized(f) && j <= NODES && forall x :: 0 <= x < j && f.up[x] == -1 ==> f.w[x] == Weight(c, up, x)
  }

  /** A symbol is below no other symbol. */
  lemma SymbolWeight(c: seq<nat>, up: seq<int>, x: nat)
    requires Counts(c) && WellFounded(up) && x < SYMBOLS
    requires forall y :: 0 <= y < NODES ==> up[y] == -1 || up[y] >= SYMBOLS
    ensures Weight(c, up, x) == Frequencies(c)[x]
  {
    var t := WeightTerms(c, up, x);
    forall s | 0 <= s < SYMBOLS && s != x ensures !Below(up, s, x) {
      if up[s] != -1 {
        AboveOnly(up, up[s], x);
      }
    }
    var rest := t[x := 0];
    SumUpdate(t, x, 0);
    SumZero(rest);
  }

  lemma {:induction false} AboveOnly(up: seq<int>, s: nat, x: nat)
    requires WellFounded(up) && x < s < NODES
    ensures !Below(up, s, x)
    decreases NODES - s
  {
    if up[s] != -1 {
      AboveOnly(up, up[s], x);
    }
  }

  /** What is below a node is below one of its two children. */
  lemma {:induction false} BelowChild(up: seq<int>, s: nat, k: nat, a: nat, b: nat)
    requires WellFounded(up) && s < NODES && k < NODES && s != k && a < NODES && b < NODES && up[a] == up[b] == k
    requires forall y :: 0 <= y < NODES && up[y] == k ==> y == a || y == b
    ensures Below(up, s, k) <==> Below(up, s, a) || Below(up, s, b)
    decreases NODES - s
  {
    if s == a || s == b {
      assert Below(up, up[s], k);
    } else if up[s] != -1 {
      if up[s] == k {
        assert false;
      }
      BelowChild(up, up[s], k, a, b);
    }
  }

  /** Of two siblings at most one is above a node. */
  lemma {:induction false} OneChild(up: seq<int>, s: nat, k: nat, a: nat, b: nat)
    requires WellFounded(up) && s < NODES && k < NODES && a != b && a < NODES && b < NODES && up[a] == up[b] == k
    ensures !(Below(up, s, a) && Below(up, s, b))
    decreases NODES - s
  {
    if s == a {
      AboveOnly(up, k, b);
    } else if s == b {
      AboveOnly(up, k, a);
    } else if up[s] != -1 {
      OneChild(up, up[s], k, a, b);
    }
  }

  /** A merge node weighs as much as its two children. */
  lemma MergedWeight(c: seq<nat>, up: seq<int>, k: nat, a: nat, b: nat)
    requires Counts(c) && WellFounded(up) && SYMBOLS <= k < NODES && a != b && a < NODES && b < NODES
    requires up[a] == up[b] == k && forall y :: 0 <= y < NODES && up[y] == k ==> y == a || y == b
    ensures Weight(c, up, k) == Weight(c, up, a) + Weight(c, up, b)
  {
    forall s | 0 <= s < SYMBOLS
      ensures WeightTerms(c, up, k)[s] == WeightTerms(c, up, a)[s] + WeightTerms(c, up, b)[s]
    {
      BelowChild(up, s, k, a, b);
      OneChild(up, s, k, a, b);
    }
    SumAdd(WeightTerms(c, up, a), WeightTerms(c, up, b), WeightTerms(c, up, k));
  }

  /** Only the two merged nodes hang from the node that joined them. */
  lemma OnlyMerged(r: Run, j: nat, y: nat)
    requires IsRun(r, j) && r.Turn? && Sized(Final(r)) && y < NODES && Final(r).up[y] == j
    requires forall x :: 0 <= x < NODES ==> r.f.up[x] == -1 || r.f.up[x] < j
    ensures y == r.a || y == r.b
  {
    if y < j && !Live(r.f.w, y) {
      DeadStaysPut(r, j, y);
    } else {
      FinalInv(r.rest, j + 1);
      FinalInv(r, j);
      if y != r.a && y != r.b {
        assert y < j;
        assert Live(r.rest.f.w, y);
        LaterLink(r.rest, j + 1, y);
      }
    }
  }

  /** What is live at j hangs from no node before j. */
  lemma {:induction false} LaterLink(r: Run, j: nat, y: nat)
    requires IsRun(r, j) && y < j && Live(r.f.w, y) && Sized(Final(r))
    ensures Final(r).up[y] == -1 || Final(r).up[y] >= j
  {
    if r.Turn? {
      if y == r.a || y == r.b {
        MergedDepth2(r, j, y);
      } else {
        LaterLink(r.rest, j + 1, y);
      }
    }
  }

  /** The state of the loop at node j, in a run that ends with the forest f. */
  ghost predicate OnTheWay(c: seq<nat>, r: Run, j: nat, f: Forest)
    requires Counts(c)
  {
    IsRun(r, j) && Binary(r.f, j) && Sized(f) && f == Final(r) && WellFounded(f.up) && Weighed(c, f.up, r.f, j)
  }

  lemma WayShape(c: seq<nat>, r: Run, j: nat, f: Forest)
    requires Counts(c) && OnTheWay(c, r, j, f)
    ensures Sized(f) && WellFounded(f.up)
  {
  }

  lemma NextOnTheWay(c: seq<nat>, r: Run, j: nat, f: Forest)
    requires Counts(c) && OnTheWay(c, r, j, f) && r.Turn?
    ensures OnTheWay(c, r.rest, j + 1, f)
    ensures f.up[r.a] == f.up[r.b] == j && !f.flag[r.a] && f.flag[r.b]
    ensures forall y :: 0 <= y < NODES && f.up[y] == j ==> y == r.a || y == r.b
  {
    hide Weighed, Binary;
    MergeKeepsBinary(r.f, j, r.a, r.b);
    MergedDepth(r, j);
    DeadStaysPut(r.rest, j + 1, r.a);
    DeadStaysPut(r.rest, j + 1, r.b);
    LinksBefore(r.f, j);
    forall y | 0 <= y < NODES && f.up[y] == j ensures y == r.a || y == r.b {
      OnlyMerged(r, j, y);
    }
    MergedWeight(c, f.up, j, r.a, r.b);
    WeighedMore(c, f.up, r.f, j, r.a, r.b);
  }

  lemma LinksBefore(f: Forest, j: nat)
    requires Binary(f, j)
    ensures forall x :: 0 <= x < NODES ==> f.up[x] == -1 || f.up[x] < j
  {
  }

  lemma WeighedMore(c: seq<nat>, up: seq<int>, f: Forest, j: nat, a: nat, b: nat)
    requires Counts(c) && WellFounded(up) && Weighed(c, up, f, j) && j < NODES && a < j && b < j && a != b
    requires f.up[a] == f.up[b] == -1 && Weight(c, up, j) == Weight(c, up, a) + Weight(c, up, b)
    ensures Weighed(c, up, Merge(f, j, a, b), j + 1)
  {
    hide Weight;
    var g := Merge(f, j, a, b);
    forall x | 0 <= x < j + 1 && g.up[x] == -1 ensures g.w[x] == Weight(c, up, x) {
    }
  }

  /** Present are the live nodes. */
  lemma PresentIsLive(c: seq<nat>, r: Run, j: nat, f: Forest, y: nat)
    requires Counts(c) && OnTheWay(c, r, j, f)
    ensures PresentAt(c, f.up, j, y) <==> y < j && Live(r.f.w, y)
  {
    if y < j && Live(r.f.w, y) {
      LaterLink(r, j, y);
    } else if y < j && PresentAt(c, f.up, j, y) {
      DeadStaysPut(r, j, y);
    }
  }

  /** Two nodes below node k are in order: siblings by their flags, and children of k come before
      all others that are there. */
  ghost predicate InOrder(c: seq<nat>, f: Forest, x: nat, y: nat)
    requires Counts(c) && Sized(f) && WellFounded(f.up) && x < NODES && y < NODES && f.up[x] != -1
  {
    && (f.up[y] == f.up[x] ==> (f.flag[x] == Before(c, f.up, y, x)) && (f.flag[y] == Before(c, f.up, x, y)))
    && (PresentAt(c, f.up, f.up[x], y) && f.up[y] != f.up[x] ==> Before(c, f.up, x, y))
  }

  lemma {:induction false} RunInOrder(c: seq<nat>, r: Run, j: nat, f: Forest, x: nat, y: nat)
    requires Counts(c) && OnTheWay(c, r, j, f) && x < NODES && y < NODES && x != y && f.up[x] >= j
    ensures InOrder(c, f, x, y)
  {
    hide OnTheWay, InOrder;
    WayShape(c, r, j, f);
    if r.Turn? {
      NextOnTheWay(c, r, j, f);
      if f.up[x] == j {
        TurnInOrder(c, r, j, f, x, y);
      } else {
        RunInOrder(c, r.rest, j + 1, f, x, y);
      }
    } else {
      NothingLater(c, r, j, f, x);
    }
  }

  /** After the loop no node hangs from a later one. */
  lemma NothingLater(c: seq<nat>, r: Run, j: nat, f: Forest, x: nat)
    requires Counts(c) && OnTheWay(c, r, j, f) && r.Stop? && x < NODES
    ensures f.up[x] < j
  {
  }

  /** The turn that made node j. */
  lemma TurnInOrder(c: seq<nat>, r: Run, j: nat, f: Forest, x: nat, y: nat)
    requires Counts(c) && OnTheWay(c, r, j, f) && r.Turn? && x < NODES && y < NODES && x != y && f.up[x] == j
    requires f.up[r.a] == f.up[r.b] == j && !f.flag[r.a] && f.flag[r.b]
    requires forall z :: 0 <= z < NODES && f.up[z] == j ==> z == r.a || z == r.b
    ensures InOrder(c, f, x, y)
  {
    hide Binary, Weight, Merge;
    PresentIsLive(c, r, j, f, y);
    TurnWeights(c, r, j, f, r.a);
    TurnWeights(c, r, j, f, r.b);
    if y < j && Live(r.f.w, y) {
      TurnWeights(c, r, j, f, y);
    }
  }

  lemma TurnWeights(c: seq<nat>, r: Run, j: nat, f: Forest, x: nat)
    requires Counts(c) && OnTheWay(c, r, j, f) && x < j && Live(r.f.w, x)
    ensures r.f.w[x] == Weight(c, f.up, x)
  {
  }

  lemma TreeOnTheWay(c: seq<nat>) returns (r: Run)
    requires Counts(c)
    ensures OnTheWay(c, r, SYMBOLS, Tree(c))
  {
    r := TreeRun(c);
    var f := Tree(c);
    StartInv(c);
    forall x | 0 <= x < SYMBOLS ensures Start(c).w[x] == Weight(c, f.up, x) {
      SymbolWeight(c, f.up, x);
    }
  }

  // ---------- the tree ----------

  /** Of two siblings the one with flag 0 is the lighter, or the one of smaller number where both
      are as light; and the siblings come before all other nodes that were there to be merged. */
  lemma TreeInOrder(c: seq<nat>, x: nat, y: nat)
    requires Counts(c) && x < NODES && y < NODES && x != y && Tree(c).up[x] != -1
    ensures WellFounded(Tree(c).up)
    ensures Tree(c).up[y] == Tree(c).up[x] ==>
      (Tree(c).flag[x] <==> Before(c, Tree(c).up, y, x)) && (Tree(c).flag[y] <==> Before(c, Tree(c).up, x, y))
    ensures PresentAt(c, Tree(c).up, Tree(c).up[x], y) && Tree(c).up[y] != Tree(c).up[x] ==>
      Before(c, Tree(c).up, x, y)
  {
    hide OnTheWay, Before, PresentAt;
    var r := TreeOnTheWay(c);
    TreeWellFounded(c);
    LinksAreNodes(c, x);
    RunInOrder(c, r, SYMBOLS, Tree(c), x, y);
  }

  lemma LinksAreNodes(c: seq<nat>, x: nat)
    requires Counts(c) && x < NODES
    ensures Tree(c).up[x] == -1 || Tree(c).up[x] >= SYMBOLS
  {
    var r := TreeRun(c);
  }

  ghost predicate TwoPresent(c: seq<nat>, up: seq<int>, k: nat)
    requires Counts(c) && WellFounded(up)
  {
    exists x, y :: x != y && PresentAt(c, up, k, x) && PresentAt(c, up, k, y)
  }

  lemma {:induction false} RunMerges(c: seq<nat>, r: Run, j: nat, f: Forest, k: nat)
    requires Counts(c) && OnTheWay(c, r, j, f) && j <= k < NODES
    ensures (exists x :: 0 <= x < NODES && f.up[x] == k) <==> TwoPresent(c, f.up, k)
  {
    hide OnTheWay, PresentAt;
    WayShape(c, r, j, f);
    if r.Turn? {
      NextOnTheWay(c, r, j, f);
      if k == j {
        TurnMerges(c, r, j, f);
      } else {
        RunMerges(c, r.rest, j + 1, f, k);
      }
    } else {
      forall x: nat | x < NODES ensures f.up[x] != k {
        NothingLater(c, r, j, f, x);
      }
      forall x, y | PresentAt(c, f.up, k, x) && PresentAt(c, f.up, k, y) ensures x == y {
        StillPresent(c, r, j, f, k, x);
        StillPresent(c, r, j, f, k, y);
        OneLeft(c, r, j, f, x, y);
      }
    }
  }

  lemma OneLeft(c: seq<nat>, r: Run, j: nat, f: Forest, x: nat, y: nat)
    requires Counts(c) && OnTheWay(c, r, j, f) && r.Stop? && j < NODES && Live(f.w, x) && Live(f.w, y)
    ensures x == y
  {
  }

  lemma TurnMerges(c: seq<nat>, r: Run, j: nat, f: Forest)
    requires Counts(c) && OnTheWay(c, r, j, f) && r.Turn?
    ensures TwoPresent(c, f.up, j) && r.a < NODES
  {
    hide PresentAt, Merge, Binary;
    PresentIsLive(c, r, j, f, r.a);
    PresentIsLive(c, r, j, f, r.b);
  }

  /** After the loop only live nodes are there. */
  lemma StillPresent(c: seq<nat>, r: Run, j: nat, f: Forest, k: nat, x: nat)
    requires Counts(c) && OnTheWay(c, r, j, f) && r.Stop? && j <= k < NODES && PresentAt(c, f.up, k, x)
    ensures Live(f.w, x)
  {
    if x >= j {
      Unused(c, r, j, f, x);
    }
  }

  /** A node that was not made is above no symbol. */
  lemma Unused(c: seq<nat>, r: Run, j: nat, f: Forest, x: nat)
    requires Counts(c) && OnTheWay(c, r, j, f) && r.Stop? && SYMBOLS <= j <= x < NODES
    ensures Weight(c, f.up, x) == 0
  {
    forall s | 0 <= s < SYMBOLS ensures !Below(f.up, s, x) {
      NotBelowUnused(f, j, s, x);
    }
    SumZero(WeightTerms(c, f.up, x));
  }

  lemma {:induction false} NotBelowUnused(f: Forest, j: nat, s: nat, x: nat)
    requires Binary(f, j) && WellFounded(f.up) && s < j <= x < NODES
    ensures !Below(f.up, s, x)
    decreases NODES - s
  {
    if f.up[s] != -1 {
      NotBelowUnused(f, j, f.up[s], x);
    }
  }

  /** A node is made exactly while two nodes are there to be merged. */
  lemma MergedIffTwoPresent(c: seq<nat>, k: nat)
    requires Counts(c) && SYMBOLS <= k < NODES
    ensures WellFounded(Tree(c).up)
    ensures (exists x :: 0 <= x < NODES && Tree(c).up[x] == k) <==> TwoPresent(c, Tree(c).up, k)
  {
    hide OnTheWay;
    var r := TreeOnTheWay(c);
    TreeWellFounded(c);
    RunMerges(c, r, SYMBOLS, Tree(c), k);
  }

  // ---------- the tables ----------

  /** The node n links above x. */
  ghost function Above(up: seq<int>, x: nat, n: nat): nat
    requires WellFounded(up) && x < NODES && n <= Depth(up, x)
    ensures Above(up, x, n) < NODES
    decreases n
  {
    if n == 0 then x else Above(up, up[x], n - 1)
  }

  lemma {:induction false} PathAt(f: Forest, x: nat, n: nat)
    requires Sized(f) && WellFounded(f.up) && x < NODES && n < Depth(f.up, x)
    ensures Path(f, x)[|Path(f, x)| - 1 - n] == f.flag[Above(f.up, x, n)]
    ensures f.up[Above(f.up, x, n)] != -1
    decreases n
  {
    if n > 0 {
      PathAt(f, f.up[x], n - 1);
    }
  }

  /** Bit n of the number with these binary digits, the least one first. */
  lemma {:induction false} BitOfValue(b: Bits, n: nat)
    requires n < |b|
    ensures (Value(b) / Pow2(n)) % 2 == if b[|b| - 1 - n] then 1 else 0
  {
    var front := b[..|b| - 1];
    if n == 0 {
      assert Pow2(0) == 1;
    } else {
      BitOfValue(front, n - 1);
      HalfFirst(Value(front), if b[|b| - 1] then 1 else 0, Pow2(n - 1));
    }
  }

  lemma HalfFirst(v: nat, d: nat, p: nat)
    requires d <= 1 && p > 0
    ensures (2 * v + d) / (2 * p) == v / p
  {
    var q, r := v / p, v % p;
    assert v == q * p + r;
    assert 2 * v + d == q * (2 * p) + (2 * r + d);
    Quotient(q, 2 * p, 2 * r + d);
  }

  lemma Quotient(q: nat, m: nat, r: nat)
    requires r < m
    ensures (q * m + r) / m == q
  {
    var v := q * m + r;
    var d := v / m;
    assert v == d * m + v % m;
    assert (d + 1) * m == d * m + m && (q + 1) * m == q * m + m;
    if d < q {
      Times(d + 1, q, m);
    } else if d > q {
      Times(q + 1, d, m);
    }
  }

  lemma Times(a: nat, b: nat, m: nat)
    requires a <= b
    ensures a * m <= b * m
  {
  }

  /** Every node that hangs from another has one sibling. */
  lemma OneSibling(c: seq<nat>, x: nat) returns (y: nat)
    requires Counts(c) && x < NODES && Tree(c).up[x] != -1
    ensures y < NODES && y != x && Tree(c).up[y] == Tree(c).up[x]
    ensures forall z :: 0 <= z < NODES && z != x && Tree(c).up[z] == Tree(c).up[x] ==> z == y
  {
    hide Binary, IsRun;
    var r := TreeRun(c);
    y := OtherChild(Tree(c), SYMBOLS + Turns(r), x);
    NoThirdChild(Tree(c), SYMBOLS + Turns(r), x, y);
  }

  lemma OtherChild(f: Forest, j: nat, x: nat) returns (y: nat)
    requires Binary(f, j) && x < NODES && f.up[x] != -1
    ensures y < NODES && y != x && f.up[y] == f.up[x]
  {
    assert HasChild(f, f.up[x], !f.flag[x]);
    y :| IsChild(f, y, f.up[x], !f.flag[x]);
  }

  lemma NoThirdChild(f: Forest, j: nat, x: nat, y: nat)
    requires Binary(f, j) && x < NODES && y < NODES && x != y && f.up[x] == f.up[y] != -1
    ensures forall z :: 0 <= z < NODES && z != x && f.up[z] == f.up[x] ==> z == y
  {
  }

  /** Bit n of the table entry of a symbol, counted from the least one, is set exactly when the node
      n links above the symbol comes after its sibling: when it is the heavier of the two, or the
      one of greater number where both are as heavy. */
  lemma BitOfCode(c: seq<nat>, s: nat, n: nat, sibling: nat)
    requires Counts(c) && s < SYMBOLS && n < |Code(c, s)| && sibling < NODES
    requires WellFounded(Tree(c).up) && n <= Depth(Tree(c).up, s)
    requires var x := Above(Tree(c).up, s, n); sibling != x && Tree(c).up[sibling] == Tree(c).up[x]
    ensures (Value(Code(c, s)) / Pow2(n)) % 2 == 1
        <==> Before(c, Tree(c).up, sibling, Above(Tree(c).up, s, n))
  {
    hide Before;
    var f, x := Tree(c), Above(Tree(c).up, s, n);
    PathAt(f, s, n);
    BitOfValue(Path(f, s), n);
    TreeInOrder(c, x, sibling);
  }
}
