/** codebook_trellis_rate in place: the path matrix, the back-pointer stack and the section
    bits (libavcodec/aaccoder.c), proved against the trellis of module AacTrellis. */
module AacSectionCoder {
  import opened Sums
  import opened BitIO
  import opened AacSections
  import opened AacTrellis

  /** One band as the encoder's arrays and the bit counts of its cost function describe it. */
  ghost function BandOf(zero: bool, minBook: nat, swb: nat, spend: (nat, nat) -> nat): (b: Band)
    ensures b.zero == zero && b.minBook == minBook && |b.bits| == BOOKS
    ensures forall cb :: 0 <= cb < BOOKS ==> b.bits[cb] == spend(swb, cb)
  {
    Band(zero, minBook, seq(BOOKS, cb requires 0 <= cb < BOOKS => spend(swb, cb)))
  }

  /** The bands of the window group whose entries start at base = 16 * win. */
  ghost function BandsOf(zeroes: seq<bool>, bandType: seq<nat>, base: nat, maxSfb: nat,
                         spend: (nat, nat) -> nat): (bands: seq<Band>)
    requires base + maxSfb <= |zeroes| && base + maxSfb <= |bandType|
    ensures |bands| == maxSfb
    ensures forall i :: 0 <= i < maxSfb ==> bands[i] == BandOf(zeroes[base + i], bandType[base + i], i, spend)
  {
    seq(maxSfb, i requires 0 <= i < maxSfb => BandOf(zeroes[base + i], bandType[base + i], i, spend))
  }

  /** The branch for a zero band: only codebook 0 stays in play. */
  method ZeroBand(short: bool, here: seq<Node>, best: Best, ghost b: Band, ghost after: Stage)
    returns (row: seq<Node>, nextBest: Best)
    requires b.zero && Follows(short, Stage(here, best), b, after)
    ensures Stage(row, nextBest) == after
  {
    assert after.row[0] == NextNode(short, Stage(here, best), b, 0);
    row := [Choose(short, here[0], best, 0, 0)];
    nextBest := Best(row[0].cost, 0);
    for cb := 1 to BOOKS
      invariant |row| == cb && forall c :: 0 <= c < cb ==> row[c] == after.row[c]
    {
      assert after.row[cb] == NextNode(short, Stage(here, best), b, cb);
      row := row + [Dead()];
    }
  }

  /** The codebooks a coded band may use, the cheapest of them remembered. */
  method LiveStates(short: bool, here: seq<Node>, best: Best, swb: nat, startcb: nat, spend: (nat, nat) -> nat,
                    ghost full: seq<Node>) returns (row: seq<Node>, nextBest: Best)
    requires |here| == BOOKS == |full| && startcb < BOOKS
    requires forall cb :: startcb <= cb < BOOKS ==> full[cb] == Choose(short, here[cb], best, spend(swb, cb), cb)
    ensures row == full[startcb..] && nextBest == Cheapest(full, startcb, |full|)
  {
    row, nextBest := [], Infinite;
    for cb := startcb to BOOKS
      invariant |row| == cb - startcb && forall i :: 0 <= i < |row| ==> row[i] == full[startcb + i]
      invariant nextBest == Cheapest(full, startcb, cb)
    {
      var node := Choose(short, here[cb], best, spend(swb, cb), cb);
      assert node == full[cb];
      row := row + [node];
      if nextBest.Infinite? || node.cost < nextBest.cost {
        nextBest := Best(node.cost, cb);
      }
    }
  }

  /** The branch for a coded band: codebooks below its minimum are out of play. */
  method CodedBand(short: bool, here: seq<Node>, best: Best, swb: nat, startcb: nat, spend: (nat, nat) -> nat,
                   ghost b: Band, ghost after: Stage) returns (row: seq<Node>, nextBest: Best)
    requires !b.zero && b.minBook == startcb && Follows(short, Stage(here, best), b, after)
    requires forall cb :: 0 <= cb < BOOKS ==> b.bits[cb] == spend(swb, cb)
    ensures Stage(row, nextBest) == after
  {
    forall cb | startcb <= cb < BOOKS
      ensures after.row[cb] == Choose(short, here[cb], best, spend(swb, cb), cb)
    {
      assert after.row[cb] == NextNode(short, Stage(here, best), b, cb);
    }
    row := [];
    for cb := 0 to startcb
      invariant row == after.row[..cb]
    {
      assert after.row[cb] == NextNode(short, Stage(here, best), b, cb);
      row := row + [Dead()];
    }
    var live;
    live, nextBest := LiveStates(short, here, best, swb, startcb, spend, after.row);
    row := row + live;
  }

  ghost predicate RowsOf(path: seq<seq<Node>>, st: seq<Stage>) {
    |path| <= |st| && forall k :: 0 <= k < |path| ==> path[k] == st[k].row
  }

  /** One row more, whichever branch the band takes. */
  method NextPathRow(short: bool, here: seq<Node>, best: Best, zero: bool, startcb: nat, swb: nat,
                     spend: (nat, nat) -> nat, ghost after: Stage) returns (row: seq<Node>, nextBest: Best)
    requires |here| == BOOKS && startcb < BOOKS
    requires Follows(short, Stage(here, best), BandOf(zero, startcb, swb, spend), after)
    ensures Stage(row, nextBest) == after
  {
    ghost var b := BandOf(zero, startcb, swb, spend);
    if zero {
      row, nextBest := ZeroBand(short, here, best, b, after);
    } else {
      row, nextBest := CodedBand(short, here, best, swb, startcb, spend, b, after);
    }
  }

  /** Fills the path matrix, row by row. */
  method FillPath(short: bool, zeroes: seq<bool>, bandType: seq<nat>, base: nat, maxSfb: nat,
                  spend: (nat, nat) -> nat, ghost bands: seq<Band>, ghost st: seq<Stage>) returns (path: seq<seq<Node>>)
    requires base + maxSfb <= |zeroes| && base + maxSfb <= |bandType|
    requires bands == BandsOf(zeroes, bandType, base, maxSfb, spend)
    requires Trellis(short, bands, st)
    ensures |path| == maxSfb + 1 && RowsOf(path, st)
  {
    path := [seq(BOOKS, _ => Node(-1, RunBits(short) + 4, 0))];
    var best := Infinite;
    for swb := 0 to maxSfb
      invariant |path| == swb + 1 && RowsOf(path, st)
      invariant best == st[swb].best
    {
      assert FollowsAt(short, bands, st, swb);
      assert st[swb] == Stage(path[swb], best);
      var row;
      row, best := NextPathRow(short, path[swb], best, zeroes[base + swb], bandType[base + swb], swb, spend,
                               st[swb + 1]);
      path := path + [row];
    }
  }

  ghost function Reverse(s: seq<Section>): (r: seq<Section>)
    ensures |r| == |s| && forall i :: 0 <= i < |s| ==> r[i] == s[|s| - 1 - i]
  {
    seq(|s|, i requires 0 <= i < |s| => s[|s| - 1 - i])
  }

  /** The final scan: the first cheapest state of the last row. */
  method FindCheapest(row: seq<Node>) returns (idx: nat)
    requires |row| == BOOKS
    ensures idx == Cheapest(row, 0, BOOKS).book
  {
    idx := 0;
    for cb := 1 to BOOKS
      invariant 0 <= idx < BOOKS
      invariant Cheapest(row, 0, cb) == Best(row[idx].cost, idx)
    {
      if row[cb].cost < row[idx].cost {
        idx := cb;
      }
    }
  }

  /** Follows the back pointers into a stack; the assertion idx >= 0 never fails. */
  method Backtrace(path: seq<seq<Node>>, short: bool, maxSfb: nat, ghost bands: seq<Band>, ghost st: seq<Stage>)
    returns (stack: seq<Section>)
    requires |bands| == maxSfb && |path| == maxSfb + 1 && RowsOf(path, st)
    requires Trellis(short, bands, st) && Below(short, st, maxSfb)
    requires maxSfb > 0 ==> st[maxSfb].best.cost < SENTINEL
    ensures |stack| <= maxSfb
    ensures Reverse(stack) == Trace(st, maxSfb, Cheapest(st[maxSfb].row, 0, BOOKS).book)
  {
    stack := [];
    var idx: int := FindCheapest(path[maxSfb]);
    ghost var all := Trace(st, maxSfb, idx);
    if maxSfb > 0 {
      ghost var chosen := ChosenState(short, bands, st);
    }
    var ppos := maxSfb;
    while ppos > 0
      invariant 0 <= ppos && ppos + |stack| <= maxSfb
      invariant 0 < ppos ==> Real(bands, ppos, idx)
      invariant Trace(st, ppos, idx) + Reverse(stack) == all
    {
      assert idx >= 0;
      var cb := idx;
      ghost var s, p := TraceStep(short, bands, st, ppos, cb);
      var run := path[ppos][cb].run;
      ghost var before := stack;
      stack := stack + [Section(cb, run)];
      idx := path[ppos - run + 1][cb].prev;
      ppos := ppos - run;
      assert Reverse(stack) == [Section(cb, run)] + Reverse(before);
    }
  }

  lemma FieldValuesFit()
    ensures Pow2(3) == 8 && Pow2(4) == 16 && Pow2(5) == 32
  {
    assert Pow2(1) == 2 && Pow2(2) == 4;
  }

  lemma EscapeWritten(before: Bits, short: bool, count: nat)
    requires count >= RunEsc(short)
    ensures before + RunCode(short, count)
         == (before + ToBits(RunBits(short), RunEsc(short))) + RunCode(short, count - RunEsc(short))
  {
  }

  /** The run fields of one section: escapes, then the rest. */
  method WriteRun(pb: PutBitContext, short: bool, run: nat)
    modifies pb
    ensures pb.bits == old(pb.bits) + RunCode(short, run)
  {
    FieldValuesFit();
    var count: nat := run;
    while count >= RunEsc(short)
      invariant pb.bits + RunCode(short, count) == old(pb.bits) + RunCode(short, run)
    {
      EscapeWritten(pb.bits, short, count);
      pb.PutBits(RunBits(short), RunEsc(short));
      count := count - RunEsc(short);
    }
    pb.PutBits(RunBits(short), count);
  }

  /** From (z0, b0) to (z, b) the entries from base on become the given codebooks and their
      zero flags; all others stay. */
  ghost predicate Recorded(z0: seq<bool>, b0: seq<nat>, z: seq<bool>, b: seq<nat>, base: nat, books: seq<nat>) {
    && |z| == |z0| && |b| == |b0| && base + |books| <= |z| && base + |books| <= |b|
    && (forall i :: 0 <= i < |z| ==> z[i] == if base <= i < base + |books| then books[i - base] == 0 else z0[i])
    && (forall i :: 0 <= i < |b| ==> b[i] == if base <= i < base + |books| then books[i - base] else b0[i])
  }

  lemma RecordedMore(z0: seq<bool>, b0: seq<nat>, z1: seq<bool>, b1: seq<nat>, z2: seq<bool>, b2: seq<nat>,
                     base: nat, books: seq<nat>, more: seq<nat>)
    requires Recorded(z0, b0, z1, b1, base, books)
    requires Recorded(z1, b1, z2, b2, base + |books|, more)
    ensures Recorded(z0, b0, z2, b2, base, books + more)
  {
  }

  /** Records one section in the band arrays. */
  method MarkBands(s: Section, start: nat, zeroes: array<bool>, bandType: array<nat>)
    requires start + s.run <= zeroes.Length && start + s.run <= bandType.Length
    modifies zeroes, bandType
    ensures Recorded(old(zeroes[..]), old(bandType[..]), zeroes[..], bandType[..], start, seq(s.run, _ => s.book))
  {
    for j := 0 to s.run
      invariant forall i :: 0 <= i < zeroes.Length ==>
        zeroes[i] == if start <= i < start + j then s.book == 0 else old(zeroes[i])
      invariant forall i :: 0 <= i < bandType.Length ==>
        bandType[i] == if start <= i < start + j then s.book else old(bandType[i])
    {
      bandType[start + j] := s.book;
      zeroes[start + j] := s.book == 0;
    }
  }

  lemma {:induction false} CoveredMonotone(ss: seq<Section>, m: nat)
    requires m <= |ss|
    ensures Covered(ss[..m]) <= Covered(ss)
  {
    if m < |ss| {
      assert ss[..|ss| - 1][..m] == ss[..m];
      CoveredMonotone(ss[..|ss| - 1], m);
    } else {
      assert ss[..m] == ss;
    }
  }

  /** Writes one section. */
  method WriteSection(s: Section, short: bool, start: nat, pb: PutBitContext,
                      zeroes: array<bool>, bandType: array<nat>)
    requires s.book < 16 && start + s.run <= zeroes.Length && start + s.run <= bandType.Length
    modifies pb, zeroes, bandType
    ensures pb.bits == old(pb.bits) + SectionCode(short, s)
    ensures Recorded(old(zeroes[..]), old(bandType[..]), zeroes[..], bandType[..], start, seq(s.run, _ => s.book))
  {
    FieldValuesFit();
    pb.PutBits(4, s.book);
    MarkBands(s, start, zeroes, bandType);
    WriteRun(pb, short, s.run);
  }

  /** Writes the stacked sections, last in first out, and records them in the band arrays. */
  method WriteSections(stack: seq<Section>, short: bool, base: nat, pb: PutBitContext,
                       zeroes: array<bool>, bandType: array<nat>)
    requires base + Covered(Reverse(stack)) <= zeroes.Length && base + Covered(Reverse(stack)) <= bandType.Length
    requires forall i :: 0 <= i < |stack| ==> stack[i].book < 16
    modifies pb, zeroes, bandType
    ensures pb.bits == old(pb.bits) + SectionsCode(short, Reverse(stack))
    ensures Recorded(old(zeroes[..]), old(bandType[..]), zeroes[..], bandType[..], base, Books(Reverse(stack)))
  {
    ghost var ss := Reverse(stack);
    ghost var z0, b0 := zeroes[..], bandType[..];
    var start := base;
    for m := 0 to |stack|
      invariant start == base + Covered(ss[..m])
      invariant pb.bits == old(pb.bits) + SectionsCode(short, ss[..m])
      invariant Recorded(z0, b0, zeroes[..], bandType[..], base, Books(ss[..m]))
    {
      var s := stack[|stack| - 1 - m];
      ghost var z1, b1 := zeroes[..], bandType[..];
      CoveredMonotone(ss, m + 1);
      AppendOne(short, ss, m, s, old(pb.bits));
      WriteSection(s, short, start, pb, zeroes, bandType);
      RecordedMore(z0, b0, z1, b1, zeroes[..], bandType[..], base, Books(ss[..m]), seq(s.run, _ => s.book));
      start := start + s.run;
    }
    assert ss[..|ss|] == ss;
  }

  lemma AppendOne(short: bool, ss: seq<Section>, m: nat, s: Section, before: Bits)
    requires m < |ss| && s == ss[m]
    ensures Covered(ss[..m + 1]) == Covered(ss[..m]) + s.run
    ensures (before + SectionsCode(short, ss[..m])) + SectionCode(short, s) == before + SectionsCode(short, ss[..m + 1])
    ensures Books(ss[..m + 1]) == Books(ss[..m]) + seq(s.run, _ => s.book)
  {
    assert ss[..m + 1][..m] == ss[..m];
    SectionsLast(short, ss[..m + 1]);
  }

  lemma {:induction false} BooksInSections(ss: seq<Section>)
    requires forall i :: 0 <= i < |ss| ==> ss[i].run > 0
    requires forall i :: 0 <= i < |Books(ss)| ==> Books(ss)[i] < BOOKS
    ensures forall i :: 0 <= i < |ss| ==> ss[i].book < BOOKS
  {
    if ss != [] {
      var n := |ss| - 1;
      assert Books(ss)[|Books(ss)| - 1] == ss[n].book;
      assert Books(ss)[..|Books(ss[..n])|] == Books(ss[..n]);
      BooksInSections(ss[..n]);
    }
  }

  lemma PathStaysReal(short: bool, bands: seq<Band>)
    requires ValidBands(bands) && (bands != [] ==> Affordable(short, bands))
    ensures var st := Stages(short, bands);
      Below(short, st, |bands|) && (|bands| > 0 ==> st[|bands|].best.cost < SENTINEL)
  {
    if bands != [] {
      AffordableIsBelow(short, bands);
    }
  }

  lemma ChosenFits(short: bool, bands: seq<Band>)
    requires ValidBands(bands) && |bands| <= 51
    requires bands != [] ==> Affordable(short, bands)
    ensures Covered(Chosen(short, bands)) == |bands|
    ensures forall i :: 0 <= i < |Chosen(short, bands)| ==> Chosen(short, bands)[i].book < BOOKS
  {
    if bands != [] {
      TilesFits(bands, Chosen(short, bands));
      ChosenTiles(short, bands);
    }
  }

  lemma TilesFits(bands: seq<Band>, ss: seq<Section>)
    ensures Tiles(bands, ss, |bands|) ==> forall i :: 0 <= i < |ss| ==> ss[i].book < BOOKS
  {
    if Tiles(bands, ss, |bands|) {
      BooksInSections(ss);
    }
  }

  lemma StackBooks(stack: seq<Section>, ss: seq<Section>)
    requires Reverse(stack) == ss && forall i :: 0 <= i < |ss| ==> ss[i].book < BOOKS
    ensures forall i :: 0 <= i < |stack| ==> stack[i].book < 16
  {
    assert forall i :: 0 <= i < |stack| ==> stack[i] == ss[|stack| - 1 - i];
  }

  /** codebook_trellis_rate for the window group whose entries start at base = 16 * win: the
      bits of the chosen sections are appended and their codebooks recorded; the entries of
      the other window groups stay. */
  method CodebookTrellisRate(pb: PutBitContext, zeroes: array<bool>, bandType: array<nat>, base: nat, maxSfb: nat,
                             short: bool, spend: (nat, nat) -> nat)
    requires maxSfb <= 51 && base + maxSfb <= zeroes.Length && base + maxSfb <= bandType.Length
    requires ValidBands(BandsOf(zeroes[..], bandType[..], base, maxSfb, spend))
    requires maxSfb > 0 ==> Affordable(short, BandsOf(zeroes[..], bandType[..], base, maxSfb, spend))
    modifies pb, zeroes, bandType
    ensures var ss := Chosen(short, BandsOf(old(zeroes[..]), old(bandType[..]), base, maxSfb, spend));
      && pb.bits == old(pb.bits) + SectionsCode(short, ss)
      && |Books(ss)| == maxSfb
      && Recorded(old(zeroes[..]), old(bandType[..]), zeroes[..], bandType[..], base, Books(ss))
  {
    ghost var bands := BandsOf(zeroes[..], bandType[..], base, maxSfb, spend);
    ghost var st := Stages(short, bands);
    var path := FillPath(short, zeroes[..], bandType[..], base, maxSfb, spend, bands, st);
    PathStaysReal(short, bands);
    ChosenFits(short, bands);
    var stack := Backtrace(path, short, maxSfb, bands, st);
    ghost var ss := Chosen(short, bands);
    assert Reverse(stack) == ss;
    StackBooks(stack, ss);
    WriteSections(stack, short, base, pb, zeroes, bandType);
  }
}
