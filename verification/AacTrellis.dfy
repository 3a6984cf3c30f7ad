/** The section trellis of the AAC encoder (libavcodec/aaccoder.c, codebook_trellis_rate): a
    dynamic program over scalefactor bands that picks a codebook for every band so that
    spectral bits plus section bits are as few as possible, then walks its back pointers and
    writes the sections. */
module AacTrellis {
  import opened AacSections

  const BOOKS: nat := 12
  const SENTINEL: nat := 61450

  /** One scalefactor band of a window group: whether it is zero, the least codebook that can
      hold its values, and the spectral bits each codebook would spend on it. */
  datatype Band = Band(zero: bool, minBook: nat, bits: seq<nat>)

  predicate ValidBand(b: Band) {
    b.minBook < BOOKS && |b.bits| == BOOKS
  }

  predicate ValidBands(bands: seq<Band>) {
    forall i :: 0 <= i < |bands| ==> ValidBand(bands[i])
  }

  /** run_value_bits: what the trellis charges for the run field of a run this long. */
  function RunValueBits(short: bool, run: nat): nat {
    if short then (if run < 7 then 3 else if run < 15 then 6 else 9)
    else (if run < 31 then 5 else if run < 63 then 10 else 15)
  }

  /** BandCodingPath: back pointer, path cost, length of the current run. */
  datatype Node = Node(prev: int, cost: nat, run: nat)

  /** The cheapest state so far; its cost is infinite before the first band. */
  datatype Best = Infinite | Best(cost: nat, book: nat)

  datatype Stage = Stage(row: seq<Node>, best: Best)

  function Dead(): Node {
    Node(-1, SENTINEL, 0)
  }

  /** Stay in codebook book from the previous band, or get here from the cheapest state. */
  function Choose(short: bool, here: Node, best: Best, bits: nat, book: nat): Node {
    var stay := here.cost + bits
      + (if RunValueBits(short, here.run) != RunValueBits(short, here.run + 1) then RunBits(short) else 0);
    if best.Best? && best.cost + bits + RunBits(short) + 4 < stay then
      Node(best.book, best.cost + bits + RunBits(short) + 4, 1)
    else
      Node(book, stay, here.run + 1)
  }

  /** May the band be coded with this codebook? */
  predicate Allowed(b: Band, book: int) {
    if b.zero then book == 0 else b.minBook <= book < BOOKS
  }

  function Spend(b: Band, book: nat): nat
    requires ValidBand(b) && book < BOOKS
  {
    if b.zero then 0 else b.bits[book]
  }

  function NextNode(short: bool, st: Stage, b: Band, cb: nat): Node
    requires |st.row| == BOOKS && ValidBand(b) && cb < BOOKS
  {
    if Allowed(b, cb) then Choose(short, st.row[cb], st.best, Spend(b, cb), cb) else Dead()
  }

  /** The first cheapest among states startcb..n-1. */
  function Cheapest(row: seq<Node>, startcb: nat, n: nat): (best: Best)
    requires startcb <= n <= |row|
    ensures n > startcb ==> best.Best? && startcb <= best.book < n && row[best.book].cost == best.cost
    ensures forall i :: startcb <= i < n ==> best.cost <= row[i].cost
    decreases n, row
  {
    if n == startcb then Infinite
    else
      var best := Cheapest(row, startcb, n - 1);
      if best.Infinite? || row[n - 1].cost < best.cost then Best(row[n - 1].cost, n - 1) else best
  }

  function NextBest(row: seq<Node>, b: Band): (best: Best)
    requires |row| == BOOKS && ValidBand(b)
    ensures best.Best? && Allowed(b, best.book) && best.book < BOOKS && row[best.book].cost == best.cost
    ensures forall cb :: 0 <= cb < BOOKS && Allowed(b, cb) ==> best.cost <= row[cb].cost
  {
    if b.zero then Best(row[0].cost, 0) else Cheapest(row, b.minBook, BOOKS)
  }

  ghost predicate Follows(short: bool, before: Stage, b: Band, after: Stage) {
    && ValidBand(b) && |before.row| == BOOKS == |after.row|
    && (forall cb :: 0 <= cb < BOOKS ==> after.row[cb] == NextNode(short, before, b, cb))
    && after.best == NextBest(after.row, b)
  }

  ghost predicate FollowsAt(short: bool, bands: seq<Band>, st: seq<Stage>, k: int) {
    0 <= k < |bands| && |st| == |bands| + 1 && Follows(short, st[k], bands[k], st[k + 1])
  }

  function FirstStage(short: bool): Stage {
    Stage(seq(BOOKS, _ => Node(-1, RunBits(short) + 4, 0)), Infinite)
  }

  /** st holds the states of the trellis after 0, 1, .. bands. */
  ghost predicate Trellis(short: bool, bands: seq<Band>, st: seq<Stage>) {
    && |st| == |bands| + 1
    && ValidBands(bands)
    && st[0] == FirstStage(short)
    && (forall k :: 0 <= k < |bands| ==> FollowsAt(short, bands, st, k))
    && (forall k :: 0 <= k <= |bands| ==> |st[k].row| == BOOKS)
    && (forall k :: 0 < k <= |bands| ==> st[k].best.Best?)
  }

  /** The states after k bands that stand for real choices, not for the sentinel. */
  ghost predicate Real(bands: seq<Band>, k: int, book: int) {
    0 <= k <= |bands| && 0 <= book < BOOKS && (k > 0 ==> Allowed(bands[k - 1], book))
  }

  lemma BestIsReal(short: bool, bands: seq<Band>, st: seq<Stage>, k: nat)
    requires Trellis(short, bands, st) && 0 < k <= |bands|
    ensures st[k].best.Best? && Real(bands, k, st[k].best.book)
    ensures st[k].row[st[k].best.book].cost == st[k].best.cost
    ensures forall cb :: Real(bands, k, cb) ==> st[k].best.cost <= st[k].row[cb].cost
  {
    assert FollowsAt(short, bands, st, k - 1);
  }

  // ---------- lower bound: no admissible choice is cheaper ----------

  ghost predicate Admissible(bands: seq<Band>, books: seq<nat>) {
    |books| == |bands| && forall i :: 0 <= i < |bands| ==> books[i] < BOOKS && Allowed(bands[i], books[i])
  }

  /** Spectral bits of the first k bands under an assignment of codebooks. */
  ghost function SpectralBits(bands: seq<Band>, books: seq<nat>, k: nat): nat
    requires ValidBands(bands) && k <= |bands| && k <= |books|
    requires forall i :: 0 <= i < k ==> books[i] < BOOKS
  {
    if k == 0 then 0 else SpectralBits(bands, books, k - 1) + Spend(bands[k - 1], books[k - 1])
  }

  /** Number of maximal runs of equal codebooks among the first k. */
  ghost function Runs(books: seq<nat>, k: nat): nat
    requires k <= |books|
  {
    if k == 0 then 0
    else if k == 1 then 1
    else Runs(books, k - 1) + (if books[k - 1] == books[k - 2] then 0 else 1)
  }

  /** The cost an assignment has when no run needs an escape. */
  ghost function PlainCost(short: bool, bands: seq<Band>, books: seq<nat>, k: nat): nat
    requires ValidBands(bands) && k <= |bands| && k <= |books|
    requires forall i :: 0 <= i < k ==> books[i] < BOOKS
  {
    SpectralBits(bands, books, k) + Runs(books, k) * (RunBits(short) + 4)
  }

  lemma PlainCostStep(short: bool, bands: seq<Band>, books: seq<nat>, k: nat)
    requires ValidBands(bands) && Admissible(bands, books) && 1 < k <= |bands|
    ensures PlainCost(short, bands, books, k) == PlainCost(short, bands, books, k - 1)
        + Spend(bands[k - 1], books[k - 1]) + (if books[k - 1] == books[k - 2] then 0 else RunBits(short) + 4)
  {
    var r, h := Runs(books, k - 1), RunBits(short) + 4;
    assert (r + 1) * h == r * h + h;
  }

  lemma {:induction false} RunsShort(short: bool, bands: seq<Band>, st: seq<Stage>, k: nat, cb: nat)
    requires Trellis(short, bands, st) && k <= |bands| && cb < BOOKS
    ensures st[k].row[cb].run <= k
  {
    if k > 0 {
      RunsShort(short, bands, st, k - 1, cb);
      assert FollowsAt(short, bands, st, k - 1);
    }
  }

  /** One band more costs at most its spectral bits, plus a section header on a change. */
  lemma StepNotDearer(short: bool, st: Stage, b: Band, cb: nat, last: nat, cost: nat)
    requires ValidBand(b) && |st.row| == BOOKS && last < BOOKS && cb < BOOKS && Allowed(b, cb)
    requires st.row[last].cost <= cost
    requires cb != last ==> st.best.Best? && st.best.cost <= cost
    requires st.row[cb].run + 1 < RunEsc(short)
    ensures NextNode(short, st, b, cb).cost
         <= cost + Spend(b, cb) + (if cb == last then 0 else RunBits(short) + 4)
  {
  }

  /** While no run can reach the escape value, a state never costs more than any admissible
      assignment that ends in it. */
  lemma {:induction false} NeverDearer(short: bool, bands: seq<Band>, st: seq<Stage>, books: seq<nat>, k: nat)
    requires Trellis(short, bands, st) && Admissible(bands, books)
    requires 0 < k <= |bands| && k < RunEsc(short)
    ensures st[k].row[books[k - 1]].cost <= PlainCost(short, bands, books, k)
  {
    var n := k - 1;
    var cb := books[n];
    RunsShort(short, bands, st, n, cb);
    assert FollowsAt(short, bands, st, n);
    if n == 0 {
      assert SpectralBits(bands, books, 0) == 0 && Runs(books, 1) == 1;
      StepNotDearer(short, st[n], bands[0], cb, cb, RunBits(short) + 4);
    } else {
      NeverDearer(short, bands, st, books, n);
      BestIsReal(short, bands, st, n);
      assert Real(bands, n, books[n - 1]);
      StepNotDearer(short, st[n], bands[n], cb, books[n - 1], PlainCost(short, bands, books, n));
      PlainCostStep(short, bands, books, k);
    }
  }

  // ---------- every real state is paid for by the sections its back pointers lead to ----------

  /** Before the n-th band the cheapest cost, section header included, is below the sentinel. */
  ghost predicate Below(short: bool, st: seq<Stage>, n: nat) {
    n <= |st| && forall k :: 0 < k < n ==> st[k].best.Best? && st[k].best.cost + RunBits(short) + 4 < SENTINEL
  }

  /** Spectral bits of bands s..k-1 all coded with one codebook. */
  ghost function SpendRange(bands: seq<Band>, cb: nat, s: nat, k: nat): nat
    requires ValidBands(bands) && s <= k <= |bands| && cb < BOOKS
  {
    if s == k then 0 else SpendRange(bands, cb, s, k - 1) + Spend(bands[k - 1], cb)
  }

  /** The state (k, cb) closes a run that started after band s, where it was cheapest to change. */
  ghost predicate NodeOk(short: bool, bands: seq<Band>, st: seq<Stage>, k: nat, cb: nat)
    requires Trellis(short, bands, st) && 0 < k <= |bands| && cb < BOOKS
  {
    var run, cost := st[k].row[cb].run, st[k].row[cb].cost;
    1 <= run <= k &&
    var s := k - run;
    var start := if s == 0 then 0 else st[s].best.cost;
    && (forall i :: s < i <= k ==> Real(bands, i, cb))
    && (s > 0 ==> st[s + 1].row[cb].prev == st[s].best.book)
    && cost == start + SpendRange(bands, cb, s, k) + 4 + RunValueBits(short, run)
  }

  lemma FirstBand(short: bool, bands: seq<Band>, st: seq<Stage>, cb: nat)
    requires Trellis(short, bands, st) && |bands| > 0 && Real(bands, 1, cb)
    ensures NodeOk(short, bands, st, 1, cb)
  {
    assert SpendRange(bands, cb, 0, 0) == 0;
    assert FollowsAt(short, bands, st, 0);
  }

  /** A new run: the sum over its single band. */
  lemma NewRun(short: bool, bands: seq<Band>, st: seq<Stage>, k: nat, cb: nat)
    requires Trellis(short, bands, st) && 0 < k < |bands| && Real(bands, k + 1, cb)
    requires st[k + 1].row[cb] == Node(st[k].best.book, st[k].best.cost + Spend(bands[k], cb) + RunBits(short) + 4, 1)
    ensures NodeOk(short, bands, st, k + 1, cb)
  {
    assert SpendRange(bands, cb, k, k) == 0;
  }

  /** One band more in the same run. */
  lemma LongerRun(short: bool, bands: seq<Band>, st: seq<Stage>, k: nat, cb: nat, bits: nat)
    requires Trellis(short, bands, st) && 0 < k < |bands| && Real(bands, k + 1, cb)
    requires Real(bands, k, cb) && NodeOk(short, bands, st, k, cb)
    requires var run := st[k].row[cb].run;
      bits == if RunValueBits(short, run) != RunValueBits(short, run + 1) then RunBits(short) else 0
    requires st[k + 1].row[cb] == Node(cb, st[k].row[cb].cost + Spend(bands[k], cb) + bits, st[k].row[cb].run + 1)
    ensures NodeOk(short, bands, st, k + 1, cb)
  {
    var run := st[k].row[cb].run;
    assert RunValueBits(short, run + 1) == RunValueBits(short, run) + bits;
  }

  lemma LaterBand(short: bool, bands: seq<Band>, st: seq<Stage>, k: nat, cb: nat)
    requires Trellis(short, bands, st) && 0 < k < |bands| && Real(bands, k + 1, cb)
    requires st[k].best.cost + RunBits(short) + 4 < SENTINEL
    requires Real(bands, k, cb) ==> NodeOk(short, bands, st, k, cb)
    ensures NodeOk(short, bands, st, k + 1, cb)
  {
    assert FollowsAt(short, bands, st, k);
    assert FollowsAt(short, bands, st, k - 1);
    var run := st[k].row[cb].run;
    if st[k + 1].row[cb].run == 1 {
      NewRun(short, bands, st, k, cb);
    } else {
      var bits := if RunValueBits(short, run) != RunValueBits(short, run + 1) then RunBits(short) else 0;
      LongerRun(short, bands, st, k, cb, bits);
    }
  }

  lemma {:induction false} RealNodesOk(short: bool, bands: seq<Band>, st: seq<Stage>, k: nat, cb: nat)
    requires Trellis(short, bands, st) && 0 < k <= |bands| && Below(short, st, k) && Real(bands, k, cb)
    ensures NodeOk(short, bands, st, k, cb)
  {
    if k == 1 {
      FirstBand(short, bands, st, cb);
    } else {
      if Real(bands, k - 1, cb) {
        RealNodesOk(short, bands, st, k - 1, cb);
      }
      LaterBand(short, bands, st, k - 1, cb);
    }
  }

  /** Later costs are never below earlier ones or the sentinel, so it is enough to look at
      the final cost. */
  lemma {:induction false} FinalCostDecides(short: bool, bands: seq<Band>, st: seq<Stage>, n: nat)
    requires Trellis(short, bands, st) && 0 < n <= |bands|
    requires st[n].best.cost + RunBits(short) + 4 < SENTINEL
    ensures Below(short, st, n)
  {
    if n > 1 {
      BestIsReal(short, bands, st, n);
      BestIsReal(short, bands, st, n - 1);
      assert FollowsAt(short, bands, st, n - 1);
      var cb := st[n].best.book;
      if !Real(bands, n - 1, cb) {
        assert FollowsAt(short, bands, st, n - 2);
      }
      FinalCostDecides(short, bands, st, n - 1);
    }
  }

  // ---------- the back pointers ----------

  /** The sections reached by following back pointers from state cb after k bands. */
  ghost function Trace(st: seq<Stage>, k: nat, cb: int): seq<Section>
    requires k < |st| && forall i :: 0 <= i < |st| ==> |st[i].row| == BOOKS
    decreases k
  {
    if k == 0 || !(0 <= cb < BOOKS) || !(1 <= st[k].row[cb].run <= k) then []
    else
      var s := k - st[k].row[cb].run;
      Trace(st, s, st[s + 1].row[cb].prev) + [Section(cb, st[k].row[cb].run)]
  }

  /** What the trellis charges for the section headers. */
  ghost function HeaderBits(short: bool, ss: seq<Section>): nat {
    if ss == [] then 0
    else HeaderBits(short, ss[..|ss| - 1]) + 4 + RunValueBits(short, ss[|ss| - 1].run)
  }

  ghost predicate AllAllowed(bands: seq<Band>, books: seq<nat>) {
    |books| <= |bands| && forall i :: 0 <= i < |books| ==> books[i] < BOOKS && Allowed(bands[i], books[i])
  }

  lemma {:induction false} SpectralOfRun(bands: seq<Band>, books: seq<nat>, cb: nat, k: nat)
    requires ValidBands(bands) && cb < BOOKS && |books| <= k <= |bands| && AllAllowed(bands, books)
    ensures var longer := books + seq(k - |books|, _ => cb);
      SpectralBits(bands, longer, k) == SpectralBits(bands, books, |books|) + SpendRange(bands, cb, |books|, k)
    decreases k
  {
    var longer := books + seq(k - |books|, _ => cb);
    if k == |books| {
      assert longer == books;
    } else {
      SpectralOfRun(bands, books, cb, k - 1);
      SpectralPrefix(bands, books + seq(k - 1 - |books|, _ => cb), longer, k - 1);
    }
  }

  lemma {:induction false} SpectralPrefix(bands: seq<Band>, books: seq<nat>, books': seq<nat>, k: nat)
    requires ValidBands(bands) && k <= |bands| && k <= |books| && k <= |books'|
    requires forall i :: 0 <= i < k ==> books[i] == books'[i] < BOOKS
    ensures SpectralBits(bands, books, k) == SpectralBits(bands, books', k)
  {
    if k > 0 {
      SpectralPrefix(bands, books, books', k - 1);
    }
  }

  /** Sections that tile the bands they cover, with positive runs and admissible codebooks. */
  ghost predicate Tiles(bands: seq<Band>, ss: seq<Section>, k: nat) {
    && Covered(ss) == k
    && (forall i :: 0 <= i < |ss| ==> ss[i].run > 0)
    && AllAllowed(bands, Books(ss))
  }

  lemma AppendSection(short: bool, bands: seq<Band>, ss: seq<Section>, cb: nat, s: nat, k: nat)
    requires ValidBands(bands) && s < k <= |bands| && Tiles(bands, ss, s) && cb < BOOKS
    requires forall i :: s < i <= k ==> Real(bands, i, cb)
    ensures var longer := ss + [Section(cb, k - s)];
      && Tiles(bands, longer, k)
      && SpectralBits(bands, Books(longer), k) == SpectralBits(bands, Books(ss), s) + SpendRange(bands, cb, s, k)
      && HeaderBits(short, longer) == HeaderBits(short, ss) + 4 + RunValueBits(short, k - s)
  {
    var longer := ss + [Section(cb, k - s)];
    assert longer[..|longer| - 1] == ss;
    assert Real(bands, k, cb);
    forall i | 0 <= i < k ensures Books(longer)[i] < BOOKS && Allowed(bands[i], Books(longer)[i]) {
      if i >= s {
        assert Real(bands, i + 1, cb);
      } else {
        assert Books(longer)[i] == Books(ss)[i];
      }
    }
    SpectralOfRun(bands, Books(ss), cb, k);
  }

  /** One step back: the run ending at (k, cb) starts after band s, coming from state p. */
  lemma TraceStep(short: bool, bands: seq<Band>, st: seq<Stage>, k: nat, cb: nat) returns (s: nat, p: nat)
    requires Trellis(short, bands, st) && 0 < k <= |bands| && Below(short, st, k) && Real(bands, k, cb)
    ensures s < k && p < BOOKS && Trace(st, k, cb) == Trace(st, s, p) + [Section(cb, k - s)]
    ensures s == k - st[k].row[cb].run
    ensures s == 0 ==> Trace(st, s, p) == Trace(st, s, st[1].row[cb].prev) == []
    ensures s > 0 ==> Real(bands, s, p) && p == st[s + 1].row[cb].prev
    ensures forall i :: s < i <= k ==> Real(bands, i, cb)
    ensures st[k].row[cb].cost == (if s == 0 then 0 else st[s].row[p].cost)
                                + SpendRange(bands, cb, s, k) + 4 + RunValueBits(short, k - s)
  {
    RealNodesOk(short, bands, st, k, cb);
    s := k - st[k].row[cb].run;
    if s == 0 {
      p := 0;
      assert Trace(st, 0, st[1].row[cb].prev) == [];
    } else {
      BestIsReal(short, bands, st, s);
      p := st[s].best.book;
    }
  }

  /** The traced sections tile the bands with admissible codebooks, every run is positive,
      and their cost is the cost of the state. */
  lemma {:induction false} TraceIsPaidFor(short: bool, bands: seq<Band>, st: seq<Stage>, k: nat, cb: nat)
    requires Trellis(short, bands, st) && 0 < k <= |bands| && Below(short, st, k) && Real(bands, k, cb)
    ensures Tiles(bands, Trace(st, k, cb), k)
    ensures st[k].row[cb].cost
         == SpectralBits(bands, Books(Trace(st, k, cb)), k) + HeaderBits(short, Trace(st, k, cb))
  {
    var s, p := TraceStep(short, bands, st, k, cb);
    var before := Trace(st, s, p);
    if s > 0 {
      TraceIsPaidFor(short, bands, st, s, p);
    }
    assert Tiles(bands, before, s);
    AppendSection(short, bands, before, cb, s, k);
  }

  // ---------- the section bits written for the traced sections ----------

  /** Sections whose run field the trellis undercharges by one field. */
  ghost function Undercharged(short: bool, ss: seq<Section>): nat {
    if ss == [] then 0
    else Undercharged(short, ss[..|ss| - 1]) + (if ss[|ss| - 1].run == (if short then 14 else 62) then 1 else 0)
  }

  lemma RunFieldsCharged(short: bool, run: nat)
    requires run <= if short then 20 else 92
    ensures |RunCode(short, run)|
         == RunValueBits(short, run) + (if run == (if short then 14 else 62) then RunBits(short) else 0)
  {
    var esc := RunEsc(short);
    RunCodeLength(short, run);
    if run >= esc {
      assert RunFields(short, run) == 1 + RunFields(short, run - esc);
      if run >= 2 * esc {
        assert RunFields(short, run - esc) == 1 + RunFields(short, run - 2 * esc);
        assert RunFields(short, run - 2 * esc) == 1;
      }
    }
  }

  lemma NoSections(short: bool, ss: seq<Section>)
    requires ss == []
    ensures SectionsCode(short, ss) == []
  {
  }

  /** The section bits written are what the trellis charged, plus one field for each run of
      exactly 14 (short windows) or 62 (long windows). */
  lemma {:induction false} WrittenHeaderBits(short: bool, ss: seq<Section>)
    requires forall i :: 0 <= i < |ss| ==> ss[i].run <= if short then 20 else 92
    ensures |SectionsCode(short, ss)| == HeaderBits(short, ss) + RunBits(short) * Undercharged(short, ss)
  {
    hide RunCode, RunValueBits, SectionsCode;
    if ss == [] {
      NoSections(short, ss);
    } else {
      var n := |ss| - 1;
      WrittenHeaderBits(short, ss[..n]);
      SectionsLast(short, ss);
      RunFieldsCharged(short, ss[n].run);
      var u, r := Undercharged(short, ss[..n]), RunBits(short);
      assert r * (u + 1) == r * u + r;
    }
  }

  // ---------- the chosen sections ----------

  function NextStage(short: bool, st: Stage, b: Band): (r: Stage)
    requires |st.row| == BOOKS && ValidBand(b)
    ensures Follows(short, st, b, r)
  {
    var row := seq(BOOKS, cb requires 0 <= cb < BOOKS => NextNode(short, st, b, cb));
    Stage(row, NextBest(row, b))
  }

  lemma ExtendTrellis(short: bool, bands: seq<Band>, before: seq<Stage>, last: Stage)
    requires ValidBands(bands) && |bands| > 0 && Trellis(short, bands[..|bands| - 1], before)
    requires Follows(short, before[|bands| - 1], bands[|bands| - 1], last)
    ensures Trellis(short, bands, before + [last])
  {
    var st := before + [last];
    forall k | 0 <= k < |bands| ensures FollowsAt(short, bands, st, k) {
      if k < |bands| - 1 {
        assert FollowsAt(short, bands[..|bands| - 1], before, k);
      }
    }
  }

  ghost function Stages(short: bool, bands: seq<Band>): (st: seq<Stage>)
    requires ValidBands(bands)
    ensures Trellis(short, bands, st)
  {
    if bands == [] then [FirstStage(short)]
    else
      var n := |bands| - 1;
      var before := Stages(short, bands[..n]);
      var last := NextStage(short, before[n], bands[n]);
      ExtendTrellis(short, bands, before, last);
      before + [last]
  }

  /** The sections the encoder writes. */
  ghost function Chosen(short: bool, bands: seq<Band>): seq<Section>
    requires ValidBands(bands)
  {
    var st := Stages(short, bands);
    Trace(st, |bands|, Cheapest(st[|bands|].row, 0, BOOKS).book)
  }

  /** Spectral bits plus section bits of a sectioning. */
  ghost function Written(short: bool, bands: seq<Band>, ss: seq<Section>): nat
    requires ValidBands(bands) && Tiles(bands, ss, |bands|)
  {
    SpectralBits(bands, Books(ss), |bands|) + |SectionsCode(short, ss)|
  }

  /** Some choice of codebooks, one section header a band, stays below the sentinel. */
  ghost predicate Affordable(short: bool, bands: seq<Band>) {
    ValidBands(bands) && exists books :: CheapEnough(short, bands, books)
  }

  ghost predicate CheapEnough(short: bool, bands: seq<Band>, books: seq<nat>)
    requires ValidBands(bands)
  {
    && Admissible(bands, books)
    && SpectralBits(bands, books, |bands|) + (|bands| + 1) * (RunBits(short) + 4) < SENTINEL
  }

  lemma {:induction false} BestBounded(short: bool, bands: seq<Band>, st: seq<Stage>, books: seq<nat>, k: nat)
    requires Trellis(short, bands, st) && Admissible(bands, books) && 0 < k <= |bands|
    ensures st[k].best.cost <= SpectralBits(bands, books, k) + k * (RunBits(short) + 4)
  {
    var cb := books[k - 1];
    assert FollowsAt(short, bands, st, k - 1);
    BestIsReal(short, bands, st, k);
    assert Real(bands, k, cb);
    var h := RunBits(short) + 4;
    if k == 1 {
      assert SpectralBits(bands, books, 0) == 0;
    } else {
      BestBounded(short, bands, st, books, k - 1);
      assert k * h == (k - 1) * h + h;
    }
  }

  lemma AffordableIsBelow(short: bool, bands: seq<Band>)
    requires Affordable(short, bands) && |bands| > 0
    ensures var st := Stages(short, bands);
      Below(short, st, |bands|) && st[|bands|].best.cost + RunBits(short) + 4 < SENTINEL
  {
    var st := Stages(short, bands);
    var books :| CheapEnough(short, bands, books);
    BestBounded(short, bands, st, books, |bands|);
    var n, h := |bands|, RunBits(short) + 4;
    assert (n + 1) * h == n * h + h;
    FinalCostDecides(short, bands, st, n);
  }

  /** The final scan picks a real state of the least cost. */
  lemma ChosenState(short: bool, bands: seq<Band>, st: seq<Stage>) returns (cb: nat)
    requires Trellis(short, bands, st) && |bands| > 0 && st[|bands|].best.cost < SENTINEL
    ensures cb == Cheapest(st[|bands|].row, 0, BOOKS).book && Real(bands, |bands|, cb)
    ensures st[|bands|].row[cb].cost == st[|bands|].best.cost
  {
    var n := |bands|;
    BestIsReal(short, bands, st, n);
    assert FollowsAt(short, bands, st, n - 1);
    cb := Cheapest(st[n].row, 0, BOOKS).book;
  }

  lemma ChosenTiles(short: bool, bands: seq<Band>)
    requires Affordable(short, bands) && 0 < |bands|
    ensures Tiles(bands, Chosen(short, bands), |bands|)
    ensures Stages(short, bands)[|bands|].best.cost
         == SpectralBits(bands, Books(Chosen(short, bands)), |bands|) + HeaderBits(short, Chosen(short, bands))
  {
    var st := Stages(short, bands);
    AffordableIsBelow(short, bands);
    var cb := ChosenState(short, bands, st);
    TraceIsPaidFor(short, bands, st, |bands|, cb);
  }

  /** The chosen sections tile the bands with admissible codebooks and positive runs, and their
      spectral and section bits are the chosen path's cost, up to one run field for each run of
      exactly 14 (short windows) or 62 (long windows). */
  lemma ChosenIsPaidFor(short: bool, bands: seq<Band>)
    requires Affordable(short, bands) && 0 < |bands| <= if short then 20 else 92
    ensures var ss := Chosen(short, bands);
      && Tiles(bands, ss, |bands|)
      && Written(short, bands, ss)
         == Stages(short, bands)[|bands|].best.cost + RunBits(short) * Undercharged(short, ss)
  {
    ChosenTiles(short, bands);
    var ss := Chosen(short, bands);
    RunsWithin(ss);
    WrittenHeaderBits(short, ss);
  }

  lemma {:induction false} RunsWithin(ss: seq<Section>)
    ensures forall i :: 0 <= i < |ss| ==> ss[i].run <= Covered(ss)
  {
    if ss != [] {
      RunsWithin(ss[..|ss| - 1]);
    }
  }

  lemma {:induction false} NoLongRuns(short: bool, ss: seq<Section>)
    requires Covered(ss) < if short then 14 else 62
    ensures Undercharged(short, ss) == 0
  {
    if ss != [] {
      NoLongRuns(short, ss[..|ss| - 1]);
    }
  }

  lemma {:induction false} RunsAtMostSections(ss: seq<Section>)
    requires forall i :: 0 <= i < |ss| ==> ss[i].run > 0
    ensures Runs(Books(ss), |Books(ss)|) <= |ss|
  {
    if ss != [] {
      var n := |ss| - 1;
      RunsAtMostSections(ss[..n]);
      RunsOfConstant(Books(ss[..n]), ss[n].book, ss[n].run);
    }
  }

  lemma {:induction false} RunsOfConstant(books: seq<nat>, book: nat, m: nat)
    requires m > 0
    ensures var longer := books + seq(m, _ => book);
      Runs(longer, |longer|) <= Runs(books, |books|) + 1
    decreases m
  {
    var longer := books + seq(m, _ => book);
    if m == 1 {
      RunsPrefix(books, longer, |books|);
    } else {
      var less := books + seq(m - 1, _ => book);
      RunsOfConstant(books, book, m - 1);
      RunsPrefix(less, longer, |less|);
    }
  }

  lemma {:induction false} RunsPrefix(books: seq<nat>, books': seq<nat>, k: nat)
    requires k <= |books| && k <= |books'|
    requires forall i :: 0 <= i < k ==> books[i] == books'[i]
    ensures Runs(books, k) == Runs(books', k)
  {
    if k > 1 {
      RunsPrefix(books, books', k - 1);
    }
  }

  /** Every section costs at least a codebook number and one run field. */
  lemma {:induction false} HeadersCost(short: bool, ss: seq<Section>)
    ensures |SectionsCode(short, ss)| >= |ss| * (RunBits(short) + 4)
  {
    if ss != [] {
      var n, h := |ss| - 1, RunBits(short) + 4;
      HeadersCost(short, ss[..n]);
      SectionsLast(short, ss);
      RunCodeLength(short, ss[n].run);
      assert RunFields(short, ss[n].run) >= 1;
      FieldsAtLeastOne(RunBits(short), RunFields(short, ss[n].run));
      assert (n + 1) * h == n * h + h;
    }
  }

  lemma FieldsAtLeastOne(r: nat, f: nat)
    requires f >= 1
    ensures r * f >= r
  {
  }

  /** While no run can reach the escape value, no other sectioning of the bands writes fewer
      bits than the chosen one. */
  lemma ChosenIsOptimal(short: bool, bands: seq<Band>, other: seq<Section>)
    requires Affordable(short, bands) && 0 < |bands| < RunEsc(short)
    requires Tiles(bands, other, |bands|)
    ensures Tiles(bands, Chosen(short, bands), |bands|)
    ensures Written(short, bands, Chosen(short, bands)) <= Written(short, bands, other)
  {
    var st, books, n := Stages(short, bands), Books(other), |bands|;
    ChosenIsPaidFor(short, bands);
    NoLongRuns(short, Chosen(short, bands));
    NeverDearer(short, bands, st, books, n);
    BestIsReal(short, bands, st, n);
    assert Real(bands, n, books[n - 1]);
    RunsAtMostSections(other);
    HeadersCost(short, other);
    ProductMonotone(Runs(books, n), |other|, RunBits(short) + 4);
  }

  lemma ProductMonotone(a: nat, b: nat, h: nat)
    requires a <= b
    ensures a * h <= b * h
  {
  }

  /** For long windows (at most 51 bands) the cost of the chosen path is exactly the number of
      spectral and section bits written. */
  lemma LongCostIsExact(bands: seq<Band>)
    requires Affordable(false, bands) && 0 < |bands| <= 51
    ensures Tiles(bands, Chosen(false, bands), |bands|)
    ensures Written(false, bands, Chosen(false, bands)) == Stages(false, bands)[|bands|].best.cost
  {
    ChosenIsPaidFor(false, bands);
    NoLongRuns(false, Chosen(false, bands));
  }
}
