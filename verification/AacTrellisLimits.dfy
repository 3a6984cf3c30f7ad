/** How far the section trellis of the AAC encoder is right (libavcodec/aaccoder.c,
    codebook_trellis_rate): for how many bands its cost is the number of bits written, and for
    how many its choice is the cheapest. */
module AacTrellisLimits {
  import opened AacSections
  import opened AacTrellis

  /** More bands than any window has. */
  function MostBands(short: bool): nat {
    if short then 20 else 92
  }

  lemma StagesAre(short: bool, bands: seq<Band>)
    requires ValidBands(bands)
    ensures Trellis(short, bands, Stages(short, bands))
  {
  }

  // ---------- the cost of the path and the bits written ----------

  /** The run that the trellis charges one field less than is written. */
  function ChargedShort(short: bool): nat {
    if short then 14 else 62
  }

  /** The first bands are silent, as many as make an undercharged run, and no other band may have
      codebook 0. */
  ghost predicate SilentStart(short: bool, bands: seq<Band>) {
    && ValidBands(bands) && ChargedShort(short) <= |bands|
    && (forall i :: 0 <= i < ChargedShort(short) ==> bands[i].zero)
    && forall i :: ChargedShort(short) <= i < |bands| ==> !bands[i].zero && bands[i].minBook > 0
  }

  /** Silent bands stay in one run. */
  lemma {:induction false} SilentRun(short: bool, bands: seq<Band>, st: seq<Stage>, k: nat)
    requires SilentStart(short, bands) && Trellis(short, bands, st) && 0 < k <= ChargedShort(short)
    ensures |st[k].row| == BOOKS && st[k].row[0].run == k && st[k].best == Best(st[k].row[0].cost, 0)
  {
    assert FollowsAt(short, bands, st, k - 1);
    assert bands[k - 1].zero;
    if k > 1 {
      SilentRun(short, bands, st, k - 1);
    }
  }

  /** The traced sections begin with the one section of the silent bands. */
  lemma {:induction false} SilentTraced(short: bool, bands: seq<Band>, st: seq<Stage>, k: nat, cb: nat)
    requires SilentStart(short, bands) && Trellis(short, bands, st) && ChargedShort(short) <= k <= |bands|
    requires Below(short, st, k) && Real(bands, k, cb)
    ensures Undercharged(short, Trace(st, k, cb)) > 0
  {
    var u := ChargedShort(short);
    var s, p := TraceStep(short, bands, st, k, cb);
    var before := Trace(st, s, p);
    assert Trace(st, k, cb)[..|before|] == before;
    if k == u {
      SilentRun(short, bands, st, k);
    } else {
      assert Real(bands, k, cb) && bands[u - 1].zero;
      assert s < u ==> Real(bands, u, cb);
      SilentTraced(short, bands, st, s, p);
    }
  }

  /** After a silent start the bits written are more than the cost of the path. */
  lemma SilentStartUndercharged(short: bool, bands: seq<Band>)
    requires SilentStart(short, bands) && Affordable(short, bands) && |bands| <= MostBands(short)
    ensures Tiles(bands, Chosen(short, bands), |bands|)
    ensures Written(short, bands, Chosen(short, bands)) > Stages(short, bands)[|bands|].best.cost
  {
    var st := Stages(short, bands);
    ChosenIsPaidFor(short, bands);
    AffordableIsBelow(short, bands);
    var cb := ChosenState(short, bands, st);
    SilentTraced(short, bands, st, |bands|, cb);
  }

  /** Silent bands, then bands that take four bits in every codebook. */
  function SilentBands(short: bool, n: nat): (bands: seq<Band>)
    ensures |bands| == n && ValidBands(bands)
    ensures forall i :: 0 <= i < n ==> bands[i] == Band(i < ChargedShort(short), 1, seq(BOOKS, _ => 4))
  {
    seq(n, i requires 0 <= i < n => Band(i < ChargedShort(short), 1, seq(BOOKS, _ => 4)))
  }

  lemma {:induction false} FewBits(bands: seq<Band>, books: seq<nat>, k: nat)
    requires ValidBands(bands) && k <= |bands| && k <= |books|
    requires forall i :: 0 <= i < k ==> books[i] < BOOKS && Spend(bands[i], books[i]) <= 4
    ensures SpectralBits(bands, books, k) <= 4 * k
  {
    hide Spend;
    if k > 0 {
      FewBits(bands, books, k - 1);
    }
  }

  lemma SilentBandsAffordable(short: bool, n: nat)
    requires ChargedShort(short) <= n <= MostBands(short)
    ensures SilentStart(short, SilentBands(short, n)) && Affordable(short, SilentBands(short, n))
  {
    var bands := SilentBands(short, n);
    var books := seq(n, i requires 0 <= i < n => if i < ChargedShort(short) then 0 else 1);
    FewBits(bands, books, n);
    assert CheapEnough(short, bands, books);
  }

  /** The bits written are the cost of the path. */
  ghost predicate CostIsExact(short: bool, bands: seq<Band>)
    requires Affordable(short, bands) && |bands| > 0
  {
    && Tiles(bands, Chosen(short, bands), |bands|)
    && Written(short, bands, Chosen(short, bands)) == Stages(short, bands)[|bands|].best.cost
  }

  lemma FewBandsExact(short: bool, bands: seq<Band>)
    requires Affordable(short, bands) && 0 < |bands| < ChargedShort(short)
    ensures CostIsExact(short, bands)
  {
    hide Stages, Chosen, Written, Affordable;
    ChosenIsPaidFor(short, bands);
    NoLongRuns(short, Chosen(short, bands));
  }

  /** With n bands the cost of the chosen path is always the number of bits written if and only
      if n is below 14 (short windows) or 62 (long windows). */
  lemma CostExactIffFewBands(short: bool, n: nat)
    requires 0 < n <= MostBands(short)
    ensures (forall bands :: |bands| == n && Affordable(short, bands) ==> CostIsExact(short, bands))
            <==> n < ChargedShort(short)
  {
    hide Stages, Chosen, Tiles, Written, Affordable, SilentStart;
    if n < ChargedShort(short) {
      forall bands | |bands| == n && Affordable(short, bands) ensures CostIsExact(short, bands) {
        FewBandsExact(short, bands);
      }
    } else {
      SilentBandsAffordable(short, n);
      SilentStartUndercharged(short, SilentBands(short, n));
      assert !CostIsExact(short, SilentBands(short, n));
    }
  }

  // ---------- from run_esc bands on the trellis can miss the optimum ----------

  /** Bits of a section header whose run needs no escape. */
  function Header(short: bool): nat {
    RunBits(short) + 4
  }

  /** What codebook 9 has spent more than codebook 2 on the first k bands. */
  function Lag(k: nat): nat {
    if k < 5 then k else 5
  }

  /** A band of the first kind: codebook 2 is the cheapest, 9 follows. */
  predicate StartsCheap(b: Band, lag: nat) {
    && ValidBand(b) && !b.zero && 0 < b.minBook <= 2 && b.bits[9] == b.bits[2] + lag
    && forall cb :: 1 <= cb < BOOKS && cb != 2 ==> b.bits[cb] >= b.bits[9]
  }

  /** A band of the second kind: codebook 2 cannot hold it, 9 is the cheapest. */
  predicate TurnsDear(b: Band) {
    && ValidBand(b) && !b.zero && 3 <= b.minBook <= 9
    && forall cb :: b.minBook <= cb < BOOKS && cb != 9 ==> b.bits[cb] > b.bits[9]
  }

  predicate MisleadingBand(short: bool, b: Band, i: nat) {
    var e := RunEsc(short);
    if i < e - 2 then StartsCheap(b, if i < 5 then 1 else 0)
    else if i < e then TurnsDear(b)
    else ValidBand(b) && b.zero
  }

  /** Bands of the first kind, the first five of them one bit dearer in codebook 9, then two of the
      second kind, in all as many as a run that needs an escape; the others are silent. */
  predicate Misleading(short: bool, bands: seq<Band>) {
    RunEsc(short) <= |bands| && forall i :: 0 <= i < |bands| ==> MisleadingBand(short, bands[i], i)
  }

  /** Codebook 2 as long as it can be, then codebook 9, then silence. */
  function Instead(short: bool, n: nat): seq<Section> {
    [Section(2, RunEsc(short) - 2), Section(9, 2)] + if n > RunEsc(short) then [Section(0, n - RunEsc(short))] else []
  }

  function InsteadBook(short: bool, i: nat): (book: nat)
    ensures book < BOOKS
  {
    if i < RunEsc(short) - 2 then 2 else if i < RunEsc(short) then 9 else 0
  }

  function InsteadBooks(short: bool, n: nat): (books: seq<nat>)
    ensures |books| == n && forall i :: 0 <= i < n ==> books[i] == InsteadBook(short, i)
  {
    seq(n, i requires 0 <= i < n => InsteadBook(short, i))
  }

  /** Spectral bits of the first k bands in these codebooks. */
  ghost function Spent(short: bool, bands: seq<Band>, k: nat): nat
    requires ValidBands(bands) && k <= |bands|
  {
    SpectralBits(bands, InsteadBooks(short, |bands|), k)
  }

  /** Misleading bands whose bits stay below the sentinel. */
  ghost predicate Misled(short: bool, bands: seq<Band>, st: seq<Stage>) {
    && Misleading(short, bands) && ValidBands(bands) && Trellis(short, bands, st)
    && Spent(short, bands, |bands|) + (|bands| + 1) * Header(short) < SENTINEL
  }

  lemma {:induction false} SpentGrows(short: bool, bands: seq<Band>, k: nat, n: nat)
    requires ValidBands(bands) && k <= n <= |bands|
    ensures Spent(short, bands, k) <= Spent(short, bands, n)
  {
    if k < n {
      SpentGrows(short, bands, k, n - 1);
    }
  }

  lemma SpentBelow(short: bool, bands: seq<Band>, st: seq<Stage>, k: nat)
    requires Misled(short, bands, st) && k <= |bands|
    ensures Spent(short, bands, k) + 4 * Header(short) < SENTINEL
  {
    hide Spent, Trellis;
    SpentGrows(short, bands, k, |bands|);
    assert (|bands| + 1) * Header(short) >= 4 * Header(short);
  }

  lemma SpentMore(short: bool, bands: seq<Band>, k: nat)
    requires ValidBands(bands) && 0 < k <= |bands|
    ensures Spent(short, bands, k) == Spent(short, bands, k - 1) + Spend(bands[k - 1], InsteadBook(short, k - 1))
  {
  }

  /** A codebook that is neither 2 nor 9: if it was never changed it is no cheaper than codebook 9,
      else a second header was paid. */
  predicate NoBargain(short: bool, node: Node, k: nat, spent: nat, extra: nat) {
    node.cost >= spent + if node.run == k then Header(short) + extra else 2 * Header(short)
  }

  ghost predicate OthersDear(short: bool, st: Stage, k: nat, spent: nat, extra: nat) {
    && |st.row| == BOOKS
    && forall cb :: 1 <= cb < BOOKS && cb != 2 && cb != 9 ==> NoBargain(short, st.row[cb], k, spent, extra)
  }

  /** One band more of the first kind. */
  lemma CheapStep(short: bool, before: Stage, b: Band, after: Stage, k: nat, spent: nat)
    requires k + 1 < RunEsc(short) && StartsCheap(b, if k < 5 then 1 else 0) && Follows(short, before, b, after)
    requires spent + b.bits[2] + 2 * Header(short) < SENTINEL
    requires before.row[2].cost == Header(short) + spent && before.row[2].run == k
    requires before.row[9].cost == Header(short) + spent + Lag(k) && before.row[9].run == k
    requires OthersDear(short, before, k, spent, Lag(k))
    requires if k == 0 then before.best.Infinite? else before.best == Best(Header(short) + spent, 2)
    ensures var more := spent + b.bits[2];
      && after.row[2] == Node(2, Header(short) + more, k + 1)
      && after.row[9] == Node(9, Header(short) + more + Lag(k + 1), k + 1)
      && OthersDear(short, after, k + 1, more, Lag(k + 1))
      && after.best == Best(Header(short) + more, 2)
  {
    hide Cheapest, NextBest, NextNode, Lag;
    var more := spent + b.bits[2];
    assert after.row[2] == NextNode(short, before, b, 2) && after.row[9] == NextNode(short, before, b, 9);
    StayCheap(short, before, b, k, spent);
    forall cb | 1 <= cb < BOOKS && cb != 2 && cb != 9
      ensures NoBargain(short, after.row[cb], k + 1, more, Lag(k + 1)) && after.row[cb].cost > Header(short) + more
    {
      assert NoBargain(short, before.row[cb], k, spent, Lag(k));
      assert after.row[cb] == NextNode(short, before, b, cb);
      StayDear(short, before, b, cb, k, spent);
    }
    LagPositive(k);
  }

  lemma LagPositive(k: nat)
    ensures Lag(k + 1) > 0
  {
  }

  /** The runs of codebooks 2 and 9 go on. */
  lemma StayCheap(short: bool, before: Stage, b: Band, k: nat, spent: nat)
    requires k + 1 < RunEsc(short) && StartsCheap(b, if k < 5 then 1 else 0) && |before.row| == BOOKS
    requires before.row[2].cost == Header(short) + spent && before.row[2].run == k
    requires before.row[9].cost == Header(short) + spent + Lag(k) && before.row[9].run == k
    requires if k == 0 then before.best.Infinite? else before.best == Best(Header(short) + spent, 2)
    ensures var more := spent + b.bits[2];
      && NextNode(short, before, b, 2) == Node(2, Header(short) + more, k + 1)
      && NextNode(short, before, b, 9) == Node(9, Header(short) + more + Lag(k + 1), k + 1)
  {
  }

  /** Another codebook stays dear. */
  lemma StayDear(short: bool, before: Stage, b: Band, cb: nat, k: nat, spent: nat)
    requires k + 1 < RunEsc(short) && StartsCheap(b, if k < 5 then 1 else 0) && |before.row| == BOOKS
    requires 1 <= cb < BOOKS && cb != 2 && cb != 9 && NoBargain(short, before.row[cb], k, spent, Lag(k))
    requires spent + b.bits[2] + 2 * Header(short) < SENTINEL
    requires if k == 0 then before.best.Infinite? else before.best == Best(Header(short) + spent, 2)
    ensures var node, more := NextNode(short, before, b, cb), spent + b.bits[2];
      NoBargain(short, node, k + 1, more, Lag(k + 1)) && node.cost > Header(short) + more
  {
  }

  /** The states while codebook 2 is the cheapest. */
  ghost predicate CheapStage(short: bool, st: Stage, k: nat, spent: nat) {
    && OthersDear(short, st, k, spent, Lag(k))
    && st.row[2].cost == Header(short) + spent && st.row[2].run == k
    && st.row[9].cost == Header(short) + spent + Lag(k) && st.row[9].run == k
    && if k == 0 then st.best.Infinite? else st.best == Best(Header(short) + spent, 2)
  }

  lemma FirstIsCheap(short: bool)
    ensures CheapStage(short, FirstStage(short), 0, 0)
  {
  }

  lemma {:induction false} CheapStages(short: bool, bands: seq<Band>, st: seq<Stage>, k: nat)
    requires Misled(short, bands, st) && k <= RunEsc(short) - 2
    ensures k < |st| && CheapStage(short, st[k], k, Spent(short, bands, k))
  {
    hide CheapStage, Follows, StartsCheap, Spent;
    if k == 0 {
      FirstIsCheap(short);
      NothingSpent(short, bands);
    } else {
      CheapStages(short, bands, st, k - 1);
      SpentMore(short, bands, k);
      SpentBelow(short, bands, st, k);
      assert FollowsAt(short, bands, st, k - 1);
      assert MisleadingBand(short, bands[k - 1], k - 1);
      CheapMore(short, st[k - 1], bands[k - 1], st[k], k - 1, Spent(short, bands, k - 1));
    }
  }

  lemma NothingSpent(short: bool, bands: seq<Band>)
    requires ValidBands(bands)
    ensures Spent(short, bands, 0) == 0
  {
  }

  lemma CheapMore(short: bool, before: Stage, b: Band, after: Stage, k: nat, spent: nat)
    requires k + 1 < RunEsc(short) && StartsCheap(b, if k < 5 then 1 else 0) && Follows(short, before, b, after)
    requires spent + Spend(b, 2) + 2 * Header(short) < SENTINEL && CheapStage(short, before, k, spent)
    ensures CheapStage(short, after, k + 1, spent + Spend(b, 2))
  {
    hide Follows;
    CheapStep(short, before, b, after, k, spent);
  }

  /** The states when only codebook 9 can go on: it has spent dear bits more than a first run. */
  ghost predicate DearStage(short: bool, st: Stage, k: nat, cost: nat, spent: nat) {
    && |st.row| == BOOKS && st.row[9].cost == cost && st.row[9].run == k
    && (forall cb :: 3 <= cb < BOOKS && cb != 9 ==> NoBargain(short, st.row[cb], k, spent + 1, 5))
  }

  /** The first band of the second kind. */
  lemma TurnStep(short: bool, before: Stage, b: Band, after: Stage, spent: nat)
    requires var k := RunEsc(short) - 2; CheapStage(short, before, k, spent)
    requires TurnsDear(b) && Follows(short, before, b, after) && spent + b.bits[9] + 3 * Header(short) < SENTINEL
    ensures var k, more := RunEsc(short) - 1, spent + b.bits[9];
      DearStage(short, after, k, Header(short) + more + 5, more) && after.best == Best(Header(short) + more + 5, 9)
  {
    hide Cheapest, NextBest;
    var k, more := RunEsc(short) - 1, spent + b.bits[9];
    assert after.row[9] == NextNode(short, before, b, 9);
    forall cb | 3 <= cb < BOOKS && cb != 9
      ensures NoBargain(short, after.row[cb], k, more + 1, 5) && after.row[cb].cost > Header(short) + more + 5
    {
      assert NoBargain(short, before.row[cb], k - 1, spent, 5);
      assert after.row[cb] == NextNode(short, before, b, cb);
    }
  }

  /** The second one: the run of codebook 9 reaches the escape value. */
  lemma EscapeStep(short: bool, before: Stage, b: Band, after: Stage, spent: nat)
    requires var k := RunEsc(short) - 1; DearStage(short, before, k, Header(short) + spent + 5, spent)
    requires before.best == Best(Header(short) + spent + 5, 9)
    requires TurnsDear(b) && Follows(short, before, b, after) && spent + b.bits[9] + 3 * Header(short) < SENTINEL
    ensures after.best.Best? && after.best.cost == 2 * Header(short) + spent + b.bits[9] + 1
    ensures |after.row| == BOOKS && after.row[0] == Dead()
  {
    hide Cheapest, NextBest;
    var cost := 2 * Header(short) + spent + b.bits[9] + 1;
    assert after.row[9] == NextNode(short, before, b, 9);
    forall cb | 3 <= cb < BOOKS && cb != 9 ensures after.row[cb].cost >= cost {
      assert NoBargain(short, before.row[cb], RunEsc(short) - 1, spent + 1, 5);
      assert after.row[cb] == NextNode(short, before, b, cb);
    }
    assert after.row[0] == NextNode(short, before, b, 0);
  }

  /** The cost of the path after the bands that are not silent. */
  lemma MisledEscape(short: bool, bands: seq<Band>, st: seq<Stage>)
    requires Misled(short, bands, st)
    ensures var e := RunEsc(short);
      && e < |st| && st[e].best.Best? && st[e].best.cost == 2 * Header(short) + Spent(short, bands, e) + 1
      && |st[e].row| == BOOKS && st[e].row[0] == Dead()
  {
    hide CheapStage, DearStage, Follows, TurnsDear, StartsCheap, Spent, NextBest;
    var e := RunEsc(short);
    CheapStages(short, bands, st, e - 2);
    SpentMore(short, bands, e - 1);
    SpentMore(short, bands, e);
    SpentBelow(short, bands, st, e - 1);
    SpentBelow(short, bands, st, e);
    assert FollowsAt(short, bands, st, e - 2) && FollowsAt(short, bands, st, e - 1);
    assert MisleadingBand(short, bands[e - 2], e - 2) && MisleadingBand(short, bands[e - 1], e - 1);
    DearIsSpent(bands[e - 2]);
    DearIsSpent(bands[e - 1]);
    TurnStep(short, st[e - 2], bands[e - 2], st[e - 1], Spent(short, bands, e - 2));
    EscapeStep(short, st[e - 1], bands[e - 1], st[e], Spent(short, bands, e - 1));
  }

  lemma DearIsSpent(b: Band)
    requires TurnsDear(b)
    ensures ValidBand(b) && Spend(b, 9) == b.bits[9]
  {
  }

  /** The silent bands are one more section. */
  lemma {:induction false} MisledSilent(short: bool, bands: seq<Band>, st: seq<Stage>, m: nat)
    requires Misled(short, bands, st) && RunEsc(short) + m <= |bands|
    ensures var e := RunEsc(short); var k := e + m;
      && k < |st| && |st[k].row| == BOOKS && st[k].best.Best?
      && st[k].best.cost
         == 2 * Header(short) + Spent(short, bands, e) + 1 + (if m == 0 then 0 else 4 + RunValueBits(short, m))
      && (if m == 0 then st[k].row[0] == Dead()
          else st[k].row[0].cost == st[k].best.cost && st[k].row[0].run == m)
  {
    hide Misleading, Spent;
    if m == 0 {
      MisledEscape(short, bands, st);
    } else {
      MisledSilent(short, bands, st, m - 1);
      SpentBelow(short, bands, st, RunEsc(short));
      var k := RunEsc(short) + m;
      SilentThere(short, bands, k - 1);
      assert FollowsAt(short, bands, st, k - 1);
      assert st[k].row[0] == NextNode(short, st[k - 1], bands[k - 1], 0);
    }
  }

  lemma SilentThere(short: bool, bands: seq<Band>, i: nat)
    requires Misleading(short, bands) && RunEsc(short) <= i < |bands|
    ensures ValidBand(bands[i]) && bands[i].zero
  {
    assert MisleadingBand(short, bands[i], i);
  }

  lemma InsteadTwo(short: bool)
    ensures var ss := [Section(2, RunEsc(short) - 2), Section(9, 2)];
      && Covered(ss) == RunEsc(short) && |SectionsCode(short, ss)| == 2 * Header(short)
      && forall i :: 0 <= i < RunEsc(short) ==> Books(ss)[i] == InsteadBook(short, i)
  {
    var ss := [Section(2, RunEsc(short) - 2), Section(9, 2)];
    var first := ss[..1];
    assert first[..0] == [] && first == [Section(2, RunEsc(short) - 2)];
    SectionsLast(short, first);
    SectionsLast(short, ss);
    RunCodeLength(short, RunEsc(short) - 2);
    RunCodeLength(short, 2);
    assert Covered(first) == RunEsc(short) - 2 && ss[1] == Section(9, 2);
    assert Books(first) == seq(RunEsc(short) - 2, _ => 2);
    assert |SectionsCode(short, first)| == Header(short);
  }

  lemma InsteadIs(short: bool, n: nat)
    requires RunEsc(short) <= n
    ensures var ss, m := Instead(short, n), n - RunEsc(short);
      && Covered(ss) == n && (forall i :: 0 <= i < |ss| ==> ss[i].run > 0)
      && Books(ss) == InsteadBooks(short, n)
      && |SectionsCode(short, ss)| == 2 * Header(short) + if m == 0 then 0 else 4 + RunBits(short) * RunFields(short, m)
  {
    InsteadTwo(short);
    var ss, two, m := Instead(short, n), [Section(2, RunEsc(short) - 2), Section(9, 2)], n - RunEsc(short);
    if m > 0 {
      assert ss[..|ss| - 1] == two;
      SectionsLast(short, ss);
      RunCodeLength(short, m);
    } else {
      assert ss == two;
    }
  }

  lemma InsteadAllowed(short: bool, bands: seq<Band>)
    requires Misleading(short, bands)
    ensures ValidBands(bands) && Admissible(bands, InsteadBooks(short, |bands|))
  {
    forall i | 0 <= i < |bands| ensures ValidBand(bands[i]) && Allowed(bands[i], InsteadBook(short, i)) {
      assert MisleadingBand(short, bands[i], i);
    }
  }

  /** Bits that stay below the sentinel in these codebooks. */
  ghost predicate InsteadCheap(short: bool, bands: seq<Band>) {
    ValidBands(bands) && Spent(short, bands, |bands|) + (|bands| + 1) * Header(short) < SENTINEL
  }

  lemma {:induction false} SilentSpend(short: bool, bands: seq<Band>, n: nat)
    requires Misleading(short, bands) && ValidBands(bands) && RunEsc(short) <= n <= |bands|
    ensures Spent(short, bands, n) == Spent(short, bands, RunEsc(short))
  {
    hide Misleading;
    if n > RunEsc(short) {
      SilentSpend(short, bands, n - 1);
      SilentThere(short, bands, n - 1);
      SpentMore(short, bands, n);
    }
  }

  /** The other sections are admissible, and cheap. */
  lemma InsteadWritten(short: bool, bands: seq<Band>)
    requires Misleading(short, bands) && InsteadCheap(short, bands)
    ensures Affordable(short, bands) && Tiles(bands, Instead(short, |bands|), |bands|)
    ensures var m := |bands| - RunEsc(short);
      Written(short, bands, Instead(short, |bands|))
      == Spent(short, bands, RunEsc(short)) + 2 * Header(short)
         + if m == 0 then 0 else 4 + RunBits(short) * RunFields(short, m)
  {
    var n := |bands|;
    InsteadIs(short, n);
    hide Instead, Books, SectionsCode, Covered, Misleading;
    InsteadAllowed(short, bands);
    SilentSpend(short, bands, n);
    assert CheapEnough(short, bands, InsteadBooks(short, n));
  }

  /** What the trellis chooses takes at least the bits of its path. */
  lemma ChosenAtLeast(short: bool, bands: seq<Band>)
    requires Affordable(short, bands) && 0 < |bands| <= MostBands(short)
    ensures Tiles(bands, Chosen(short, bands), |bands|)
    ensures Written(short, bands, Chosen(short, bands)) >= Stages(short, bands)[|bands|].best.cost
  {
    hide Stages, Chosen, Tiles, Written;
    ChosenIsPaidFor(short, bands);
  }

  /** On misleading bands the trellis misses cheaper sections by a bit: it keeps a run of codebook 9
      from the first band on, and does not see in time that the run will need an escape. */
  lemma TrellisMisses(short: bool, bands: seq<Band>)
    requires Misleading(short, bands) && InsteadCheap(short, bands) && |bands| <= MostBands(short)
    ensures Affordable(short, bands)
    ensures Tiles(bands, Chosen(short, bands), |bands|) && Tiles(bands, Instead(short, |bands|), |bands|)
    ensures Written(short, bands, Instead(short, |bands|)) < Written(short, bands, Chosen(short, bands))
  {
    hide Stages, Chosen, Tiles, Written, Instead, Affordable, MisleadingBand, Spent, Trellis;
    var m := |bands| - RunEsc(short);
    InsteadWritten(short, bands);
    StagesAre(short, bands);
    MisledSilent(short, bands, Stages(short, bands), m);
    ChosenAtLeast(short, bands);
    RunFieldsCharged(short, m);
    RunCodeLength(short, m);
  }

  // ---------- bands of four values that are misleading ----------

  /** The bits that the codebooks of ISO/IEC 14496-3 spend on the values 1 0 0 0. */
  const FIRST_BITS: seq<nat> := [0, 5, 4, 5, 5, 5, 8, 5, 10, 5, 12, 10]
  /** On the values 0 0 0 1. */
  const NEXT_BITS: seq<nat> := [0, 5, 5, 5, 6, 5, 8, 5, 10, 5, 12, 10]
  /** On the values 8 1 0 0, from codebook 9 on. */
  const LAST_BITS: seq<nat> := [0, 0, 0, 0, 0, 0, 0, 0, 0, 13, 16, 15]

  function MissedBand(short: bool, i: nat): Band {
    if i < 5 then Band(false, 1, FIRST_BITS)
    else if i < RunEsc(short) - 2 then Band(false, 1, NEXT_BITS)
    else if i < RunEsc(short) then Band(false, 9, LAST_BITS)
    else Band(true, 0, seq(BOOKS, _ => 0))
  }

  function MissedBands(short: bool, n: nat): (bands: seq<Band>)
    ensures |bands| == n && forall i :: 0 <= i < n ==> bands[i] == MissedBand(short, i)
  {
    seq(n, i requires 0 <= i < n => MissedBand(short, i))
  }

  lemma MissedIsMisleading(short: bool, n: nat)
    requires RunEsc(short) <= n <= MostBands(short)
    ensures Misleading(short, MissedBands(short, n)) && InsteadCheap(short, MissedBands(short, n))
  {
    var bands := MissedBands(short, n);
    forall i | 0 <= i < n ensures ValidBand(bands[i]) && MisleadingBand(short, bands[i], i) {
      MissedKinds(short, i);
    }
    MissedBits(short, n, n);
  }

  lemma MissedKinds(short: bool, i: nat)
    ensures ValidBand(MissedBand(short, i)) && MisleadingBand(short, MissedBand(short, i), i)
    ensures Spend(MissedBand(short, i), InsteadBook(short, i)) <= 13
  {
  }

  lemma {:induction false} MissedBits(short: bool, n: nat, k: nat)
    requires k <= n && ValidBands(MissedBands(short, n))
    ensures Spent(short, MissedBands(short, n), k) <= 13 * k
  {
    hide MissedBand, Spent;
    if k > 0 {
      MissedBits(short, n, k - 1);
      MissedKinds(short, k - 1);
      SpentMore(short, MissedBands(short, n), k);
    } else {
      NothingSpent(short, MissedBands(short, n));
    }
  }

  /** The trellis finds the cheapest sections of these bands. */
  ghost predicate FindsOptimum(short: bool, bands: seq<Band>)
    requires Affordable(short, bands) && |bands| > 0
  {
    && Tiles(bands, Chosen(short, bands), |bands|)
    && forall other :: Tiles(bands, other, |bands|) ==>
         Written(short, bands, Chosen(short, bands)) <= Written(short, bands, other)
  }

  /** With n bands the trellis always finds the optimum if and only if no run of n bands needs
      an escape. */
  lemma OptimalIffNoEscape(short: bool, n: nat)
    requires 0 < n <= MostBands(short)
    ensures (forall bands :: |bands| == n && Affordable(short, bands) ==> FindsOptimum(short, bands))
            <==> n < RunEsc(short)
  {
    hide Stages, Chosen, Tiles, Written, Affordable, Misleading, InsteadCheap;
    if n < RunEsc(short) {
      forall bands | |bands| == n && Affordable(short, bands) ensures FindsOptimum(short, bands) {
        FewBandsOptimal(short, bands);
      }
    } else {
      var bands := MissedBands(short, n);
      MissedIsMisleading(short, n);
      TrellisMisses(short, bands);
      assert !FindsOptimum(short, bands);
    }
  }

  lemma FewBandsOptimal(short: bool, bands: seq<Band>)
    requires Affordable(short, bands) && 0 < |bands| < RunEsc(short)
    ensures FindsOptimum(short, bands)
  {
    hide Stages, Chosen, Written, Affordable;
    ChosenTiles(short, bands);
    forall other | Tiles(bands, other, |bands|)
      ensures Written(short, bands, Chosen(short, bands)) <= Written(short, bands, other)
    {
      ChosenIsOptimal(short, bands, other);
    }
  }
}
