/** Of which sections the encoder's choice is the cheapest, counted on the bits that are written
    (codebook_trellis_rate of libavcodec/aaccoder.c, encode_individual_channel of
    libavcodec/aacenc.c). */
module AacCheapest {
  import opened BitIO
  import opened CodeLists
  import opened AacSections
  import opened AacSpectral
  import opened AacSpectrum
  import opened AacStream
  import opened AacTrellis
  import opened AacSectionCoder
  import opened AacTwoLoop
  import opened AacQuantise
  import opened AacEncoder

  // ---------- sections that could have been chosen ----------

  /** Sections of all groups that the encoder could have chosen: positive runs that cover the
      bands of every group, with codebooks allowed for them. */
  ghost predicate Admits(ics: Ics, e: Element, spends: Spends, ss: seq<seq<Section>>) {
    && Sectionable(IsShort(ics), e.zeroes, e.bandType, ics.groups, ics.maxSfb, spends) && |ss| == |ics.groups|
    && forall g :: 0 <= g < |ss| ==> GroupAdmits(ics, e, spends, ss, g)
  }

  ghost predicate GroupAdmits(ics: Ics, e: Element, spends: Spends, ss: seq<seq<Section>>, g: nat)
    requires g < |ss| == |ics.groups|
  {
    && GroupSectionable(IsShort(ics), e.zeroes, e.bandType, ics.groups, ics.maxSfb, spends, g)
    && Tiles(GroupBands(e.zeroes, e.bandType, ics.groups, ics.maxSfb, spends, g), ss[g], ics.maxSfb)
  }

  lemma TilesAllowed(zeroes: seq<bool>, bandType: seq<nat>, base: nat, maxSfb: nat, spend: (nat, nat) -> nat,
                     ss: seq<Section>)
    requires base + maxSfb <= |zeroes| && base + maxSfb <= |bandType|
    requires Tiles(BandsOf(zeroes, bandType, base, maxSfb, spend), ss, maxSfb)
    ensures BooksAllowed(zeroes, bandType, base, maxSfb, Books(ss))
  {
    var bands := BandsOf(zeroes, bandType, base, maxSfb, spend);
    forall i | 0 <= i < maxSfb
      ensures Books(ss)[i] <= 11 && (if zeroes[base + i] then Books(ss)[i] == 0 else bandType[base + i] <= Books(ss)[i])
    {
      assert Allowed(bands[i], Books(ss)[i]);
    }
  }

  lemma AdmitsAllowed(ics: Ics, e: Element, spends: Spends, ss: seq<seq<Section>>)
    requires Admits(ics, e, spends, ss)
    ensures forall g :: 0 <= g < |ss| ==> |GroupBooks(ss)[g]| == ics.maxSfb
    ensures forall g :: 0 <= g < |ss| ==>
      BooksAllowed(e.zeroes, e.bandType, 16 * Windows(ics.groups, g), ics.maxSfb, GroupBooks(ss)[g])
  {
    hide Tiles, BandsOf, BooksAllowed, Books, Windows;
    forall g | 0 <= g < |ss|
      ensures |GroupBooks(ss)[g]| == ics.maxSfb
      ensures BooksAllowed(e.zeroes, e.bandType, 16 * Windows(ics.groups, g), ics.maxSfb, GroupBooks(ss)[g])
    {
      assert GroupAdmits(ics, e, spends, ss, g);
      TilesAllowed(e.zeroes, e.bandType, 16 * Windows(ics.groups, g), ics.maxSfb, spends(Windows(ics.groups, g)),
                   ss[g]);
      AllowedLength(e.zeroes, e.bandType, 16 * Windows(ics.groups, g), ics.maxSfb, GroupBooks(ss)[g]);
    }
  }

  /** The spectrum fits whatever sections are admitted. */
  lemma AdmittedFits(fmt: Format, ics: Ics, e: Element, numSwb: nat, spends: Spends, ss: seq<seq<Section>>)
    requires Ready(fmt, ics, e, numSwb, spends) && Admits(ics, e, spends, ss)
    ensures var lay := LayoutOf(fmt, ics);
      ValidLayout(lay) && ValidBooks(lay, GroupBooks(ss)) && SpectrumFits(fmt.tables, Jobs(lay, GroupBooks(ss)), e.q)
  {
    hide Sectionable, Quantised, Transmits, BooksAllowed, ScalesReady, ValidLayout, Windows, Spread, Within, Jobs,
      GroupAdmits, ValidBook;
    ReadyFacts(fmt, ics, e, numSwb, spends);
    AdmitsAllowed(ics, e, spends, ss);
    AllTransmit(LayoutOf(fmt, ics), e, GroupBooks(ss));
    QuantisedFacts(LayoutOf(fmt, ics), e);
  }

  lemma {:induction false} NoBookNoCost(t: Tables, q: seq<int>, first: nat, start: nat, size: nat, n: nat)
    requires |t.books| == 11
    ensures WindowsCost(t, 0, q, first, start, size, n) == 0
  {
    if n > 0 {
      NoBookNoCost(t, q, first, start, size, n - 1);
    }
  }

  /** A band in one window more. */
  lemma OneWindowBits(t: Tables, jobs: seq<Job>, q: seq<int>, k: nat, len: nat, book: nat, first: nat, start: nat,
                      size: nat, n: nat)
    requires SpectrumFits(t, jobs, q) && BandRow(jobs, k, len, book, first, start, size) && n < len && book <= 11
    requires |t.books| == 11 && forall m :: 0 <= m < |jobs| ==> jobs[m].start + jobs[m].len <= |q|
    ensures k + n < |jobs|
    ensures |SpectrumTo(t, jobs, q, k + n + 1)| - |SpectrumTo(t, jobs, q, k + n)|
         == WindowsCost(t, book, q, first, start, size, n + 1) - WindowsCost(t, book, q, first, start, size, n)
  {
    hide *;
    RowJob(jobs, k, len, book, first, start, size, n);
    OneJobBits(t, jobs, q, k + n);
    CostOfLast(t, book, q, first, start, size, n, jobs[k + n].start);
  }

  /** A band takes the bits that the cost call counts for it. */
  lemma {:induction false} BandBits(t: Tables, jobs: seq<Job>, q: seq<int>, k: nat, len: nat, book: nat, first: nat,
                                    start: nat, size: nat, n: nat)
    requires SpectrumFits(t, jobs, q) && BandRow(jobs, k, len, book, first, start, size) && n <= len && book <= 11
    requires |t.books| == 11 && forall m :: 0 <= m < |jobs| ==> jobs[m].start + jobs[m].len <= |q|
    ensures k + n <= |jobs|
    ensures |SpectrumTo(t, jobs, q, k + n)|
        == |SpectrumTo(t, jobs, q, k)| + WindowsCost(t, book, q, first, start, size, n)
  {
    hide SpectrumTo, SpectrumFits, WindowsCost, BandRow;
    RowInside(jobs, k, len, book, first, start, size);
    if n > 0 {
      BandBits(t, jobs, q, k, len, book, first, start, size, n - 1);
      OneWindowBits(t, jobs, q, k, len, book, first, start, size, n - 1);
    } else {
      NoWindowsNoCost(t, book, q, first, start, size);
    }
  }

  lemma CostOfLast(t: Tables, cb: nat, q: seq<int>, first: nat, start: nat, size: nat, n: nat, at: nat)
    requires |t.books| == 11 && at == (first + n) * WINDOW + start
    ensures WindowsCost(t, cb, q, first, start, size, n + 1)
         == WindowsCost(t, cb, q, first, start, size, n) + WindowCost(t, cb, q, at, size)
  {
    hide WindowCost;
    assert first + (n + 1 - 1) == first + n;
  }

  lemma NoWindowsNoCost(t: Tables, cb: nat, q: seq<int>, first: nat, start: nat, size: nat)
    requires |t.books| == 11
    ensures WindowsCost(t, cb, q, first, start, size, 0) == 0
  {
  }

  lemma OneJobBits(t: Tables, jobs: seq<Job>, q: seq<int>, k: nat)
    requires SpectrumFits(t, jobs, q) && k < |jobs| && jobs[k].book <= 11
    requires |t.books| == 11 && forall m :: 0 <= m < |jobs| ==> jobs[m].start + jobs[m].len <= |q|
    ensures var job := jobs[k];
      |SpectrumTo(t, jobs, q, k + 1)| == |SpectrumTo(t, jobs, q, k)| + WindowCost(t, job.book, q, job.start, job.len)
  {
    hide SpectrumTo, SpectrumFits, BandCode, AllFit, ValidBook;
    JobMore(t, jobs, q, k);
  }

  /** The trellis is told the bits that the spectrum takes, in every codebook it may choose. */
  ghost predicate TrueSpends(t: Tables, lay: Layout, e: Element, spends: Spends, g: nat) {
    && |t.books| == 11 && ValidLayout(lay) && g < |lay.groups| && |e.zeroes| == |e.bandType| == ENTRIES
    && 16 * Windows(lay.groups, g) + lay.maxSfb <= ENTRIES
    && forall i, cb :: 0 <= i < lay.maxSfb && MayChoose(e, 16 * Windows(lay.groups, g), i, cb)
         ==> spends(Windows(lay.groups, g))(i, cb)
             == WindowsCost(t, cb, e.q, Windows(lay.groups, g), lay.offsets[i], lay.offsets[i + 1] - lay.offsets[i],
                            lay.groups[g])
  }

  /** May band i of the group whose entries start at base get the codebook? */
  predicate MayChoose(e: Element, base: nat, i: nat, cb: nat)
    requires base + i < |e.zeroes| && base + i < |e.bandType|
  {
    !e.zeroes[base + i] && e.bandType[base + i] <= cb < BOOKS
  }

  lemma SpendOfBand(t: Tables, lay: Layout, e: Element, spends: Spends, g: nat, i: nat, book: nat)
    requires TrueSpends(t, lay, e, spends, g) && i < lay.maxSfb
    requires var b := GroupBands(e.zeroes, e.bandType, lay.groups, lay.maxSfb, spends, g)[i];
      ValidBand(b) && Allowed(b, book) && book < BOOKS
    ensures Spend(GroupBands(e.zeroes, e.bandType, lay.groups, lay.maxSfb, spends, g)[i], book)
         == WindowsCost(t, book, e.q, Windows(lay.groups, g), lay.offsets[i], lay.offsets[i + 1] - lay.offsets[i],
                        lay.groups[g])
  {
    hide WindowsCost, Windows;
    assert !e.zeroes[16 * Windows(lay.groups, g) + i] ==> MayChoose(e, 16 * Windows(lay.groups, g), i, book);
    NoBookNoCost(t, e.q, Windows(lay.groups, g), lay.offsets[i], lay.offsets[i + 1] - lay.offsets[i], lay.groups[g]);
  }

  /** A group's spectrum takes the spectral bits that the trellis counts. */
  lemma {:induction false} GroupBits(t: Tables, lay: Layout, e: Element, spends: Spends, books: seq<seq<nat>>, g: nat,
                                     i: nat)
    requires TrueSpends(t, lay, e, spends, g) && ValidBooks(lay, books) && i <= lay.maxSfb
    requires SpectrumFits(t, Jobs(lay, books), e.q)
    requires forall m :: 0 <= m < |Jobs(lay, books)| ==> Jobs(lay, books)[m].start + Jobs(lay, books)[m].len <= |e.q|
    requires var bands := GroupBands(e.zeroes, e.bandType, lay.groups, lay.maxSfb, spends, g);
      ValidBands(bands) && AllAllowed(bands, books[g])
    requires JobIndex(lay, books, g, lay.maxSfb) <= |Jobs(lay, books)|
    ensures JobIndex(lay, books, g, i) <= |Jobs(lay, books)| && JobIndex(lay, books, g, 0) <= |Jobs(lay, books)|
    ensures |SpectrumTo(t, Jobs(lay, books), e.q, JobIndex(lay, books, g, i))|
         == |SpectrumTo(t, Jobs(lay, books), e.q, JobIndex(lay, books, g, 0))|
            + SpectralBits(GroupBands(e.zeroes, e.bandType, lay.groups, lay.maxSfb, spends, g), books[g], i)
  {
    hide SpectrumTo, SpectrumFits, JobIndex, BandRow, WindowsCost, GroupJobs, Windows, Spend, BandsOf;
    JobsOrdered(lay, books, g, 0);
    JobsOrdered(lay, books, g, i);
    if i > 0 {
      var bands := GroupBands(e.zeroes, e.bandType, lay.groups, lay.maxSfb, spends, g);
      GroupBits(t, lay, e, spends, books, g, i - 1);
      BandRowAt(lay, books, g, i - 1);
      assert Allowed(bands[i - 1], books[g][i - 1]);
      SpendOfBand(t, lay, e, spends, g, i - 1, books[g][i - 1]);
      BandBits(t, Jobs(lay, books), e.q, JobIndex(lay, books, g, i - 1), lay.groups[g], books[g][i - 1],
               Windows(lay.groups, g), lay.offsets[i - 1], lay.offsets[i] - lay.offsets[i - 1], lay.groups[g]);
    }
  }

  ghost predicate CanCount(t: Tables, lay: Layout, q: seq<int>, ss: seq<seq<Section>>, g: nat) {
    && ValidLayout(lay) && ValidBooks(lay, GroupBooks(ss)) && |t.books| == 11 && g <= |lay.groups| == |ss|
    && var jobs := Jobs(lay, GroupBooks(ss));
       |GroupJobs(lay, GroupBooks(ss), g)| <= |jobs|
           && forall m :: 0 <= m < |jobs| ==> jobs[m].start + jobs[m].len <= |q|
  }

  /** Section and spectral bits of the first g groups. */
  ghost function CodedBits(t: Tables, lay: Layout, q: seq<int>, ss: seq<seq<Section>>, g: nat): nat
    requires CanCount(t, lay, q, ss, g)
  {
    |Cat(SectionData(lay.short), ss, g)|
      + |SpectrumTo(t, Jobs(lay, GroupBooks(ss)), q, |GroupJobs(lay, GroupBooks(ss), g)|)|
  }

  /** Spectral and section bits of one group, as its trellis counts them. */
  ghost function GroupWritten(ics: Ics, e: Element, spends: Spends, ss: seq<seq<Section>>, g: nat): nat
    requires g < |ss| == |ics.groups| && GroupAdmits(ics, e, spends, ss, g)
  {
    Written(IsShort(ics), GroupBands(e.zeroes, e.bandType, ics.groups, ics.maxSfb, spends, g), ss[g])
  }

  /** One group more takes the bits its trellis counts. */
  lemma CodedBitsMore(fmt: Format, ics: Ics, e: Element, numSwb: nat, spends: Spends, ss: seq<seq<Section>>, g: nat)
    requires Ready(fmt, ics, e, numSwb, spends) && Admits(ics, e, spends, ss) && g < |ics.groups|
    requires TrueSpends(fmt.tables, LayoutOf(fmt, ics), e, spends, g)
    ensures var lay := LayoutOf(fmt, ics);
      && CanCount(fmt.tables, lay, e.q, ss, g) && CanCount(fmt.tables, lay, e.q, ss, g + 1)
      && GroupAdmits(ics, e, spends, ss, g)
      && CodedBits(fmt.tables, lay, e.q, ss, g + 1)
         == CodedBits(fmt.tables, lay, e.q, ss, g) + GroupWritten(ics, e, spends, ss, g)
  {
    hide Sectionable, Quantised, Transmits, ScalesReady, ValidLayout, Windows, Spread, Within, ValidBook, SpectrumTo,
      GroupJobs, JobIndex, TrueSpends, Books, SpectralBits, SectionsCode, BandsOf, ValidBooks, SpectrumFits,
      BooksAllowed;
    var lay := LayoutOf(fmt, ics);
    ReadyFacts(fmt, ics, e, numSwb, spends);
    AdmittedFits(fmt, ics, e, numSwb, spends, ss);
    AdmitsAllowed(ics, e, spends, ss);
    assert GroupAdmits(ics, e, spends, ss, g);
    var books := GroupBooks(ss);
    CodableFacts(fmt.tables, Jobs(lay, books), e.q);
    JobsInside(lay, books, g);
    JobsInside(lay, books, g + 1);
    GroupEdges(lay, books, g);
    GroupBits(fmt.tables, lay, e, spends, books, g, lay.maxSfb);
  }

  /** The chosen sections are admitted. */
  lemma ChosenIsAdmitted(fmt: Format, ics: Ics, e: Element, numSwb: nat, spends: Spends)
    requires Ready(fmt, ics, e, numSwb, spends) && ics.maxSfb > 0
    ensures Admits(ics, e, spends, Chosens(ics, e, spends))
  {
    hide Tiles, Chosen, Books, BandsOf, Affordable, ValidBands, Spread, Within, Quantised;
    var ss := Chosens(ics, e, spends);
    forall g | 0 <= g < |ss| ensures GroupAdmits(ics, e, spends, ss, g) {
      SectionsAt(IsShort(ics), e.zeroes, e.bandType, ics.groups, ics.maxSfb, spends, g);
      ChosenTiles(IsShort(ics), GroupBands(e.zeroes, e.bandType, ics.groups, ics.maxSfb, spends, g));
    }
  }

  lemma GroupIsCheapest(ics: Ics, e: Element, spends: Spends, other: seq<seq<Section>>, g: nat)
    requires Admits(ics, e, spends, other) && Admits(ics, e, spends, Chosens(ics, e, spends)) && g < |ics.groups|
    requires 0 < ics.maxSfb < RunEsc(IsShort(ics))
    ensures GroupAdmits(ics, e, spends, other, g) && GroupAdmits(ics, e, spends, Chosens(ics, e, spends), g)
    ensures GroupWritten(ics, e, spends, Chosens(ics, e, spends), g) <= GroupWritten(ics, e, spends, other, g)
  {
    hide Tiles, Chosen, BandsOf, Affordable, ValidBands, Written;
    assert GroupAdmits(ics, e, spends, other, g) && GroupAdmits(ics, e, spends, Chosens(ics, e, spends), g);
    SectionsAt(IsShort(ics), e.zeroes, e.bandType, ics.groups, ics.maxSfb, spends, g);
    ChosenIsOptimal(IsShort(ics), GroupBands(e.zeroes, e.bandType, ics.groups, ics.maxSfb, spends, g), other[g]);
  }

  lemma {:induction false} GroupsAreCheapest(fmt: Format, ics: Ics, e: Element, numSwb: nat, spends: Spends,
                                            other: seq<seq<Section>>, g: nat)
    requires Ready(fmt, ics, e, numSwb, spends) && Admits(ics, e, spends, other) && g <= |ics.groups|
    requires 0 < ics.maxSfb < RunEsc(IsShort(ics))
    requires forall j :: 0 <= j < |ics.groups| ==> TrueSpends(fmt.tables, LayoutOf(fmt, ics), e, spends, j)
    ensures var lay, ss := LayoutOf(fmt, ics), Chosens(ics, e, spends);
      && CanCount(fmt.tables, lay, e.q, ss, g) && CanCount(fmt.tables, lay, e.q, other, g)
      && CodedBits(fmt.tables, lay, e.q, ss, g) <= CodedBits(fmt.tables, lay, e.q, other, g)
    decreases g
  {
    hide Ready, Admits, CanCount, CodedBits, TrueSpends, GroupWritten, LayoutOf, GroupAdmits, Sectionable, ValidFormat,
      ValidIcsFor;
    ReadyParts(fmt, ics, e, numSwb, spends);
    ChosenIsAdmitted(fmt, ics, e, numSwb, spends);
    var ss := Chosens(ics, e, spends);
    if g > 0 {
      GroupsAreCheapest(fmt, ics, e, numSwb, spends, other, g - 1);
      CodedBitsMore(fmt, ics, e, numSwb, spends, ss, g - 1);
      CodedBitsMore(fmt, ics, e, numSwb, spends, other, g - 1);
      GroupIsCheapest(ics, e, spends, other, g - 1);
    } else {
      NothingCoded(fmt, ics, e, numSwb, spends, ss);
      NothingCoded(fmt, ics, e, numSwb, spends, other);
    }
  }

  lemma ReadyParts(fmt: Format, ics: Ics, e: Element, numSwb: nat, spends: Spends)
    requires Ready(fmt, ics, e, numSwb, spends)
    ensures ValidFormat(fmt) && ValidIcsFor(fmt, ics)
    ensures Sectionable(IsShort(ics), e.zeroes, e.bandType, ics.groups, ics.maxSfb, spends)
  {
  }

  lemma NothingCoded(fmt: Format, ics: Ics, e: Element, numSwb: nat, spends: Spends, ss: seq<seq<Section>>)
    requires Ready(fmt, ics, e, numSwb, spends) && Admits(ics, e, spends, ss)
    ensures CanCount(fmt.tables, LayoutOf(fmt, ics), e.q, ss, 0)
        && CodedBits(fmt.tables, LayoutOf(fmt, ics), e.q, ss, 0) == 0
  {
    hide Sectionable, Quantised, Transmits, ScalesReady, ValidLayout, Windows, Spread, Within, ValidBook, BooksAllowed,
      Jobs, SpectrumFits, GroupJobs, GroupAdmits, SpectrumTo;
    ReadyFacts(fmt, ics, e, numSwb, spends);
    AdmittedFits(fmt, ics, e, numSwb, spends, ss);
    var lay, books := LayoutOf(fmt, ics), GroupBooks(ss);
    CodableFacts(fmt.tables, Jobs(lay, books), e.q);
    NoJobs(lay, books);
  }

  lemma SentBits(fmt: Format, ics: Ics, e: Element, numSwb: nat, spends: Spends)
    requires Ready(fmt, ics, e, numSwb, spends)
    requires ValidChannel(fmt, SentChannel(fmt, ics, e, numSwb, spends))
    requires CanCount(fmt.tables, LayoutOf(fmt, ics), e.q, Chosens(ics, e, spends), |ics.groups|)
    ensures var ch := SentChannel(fmt, ics, e, numSwb, spends);
      |SectionBits(ch)| + |SpectrumBits(fmt, ch)|
        == CodedBits(fmt.tables, LayoutOf(fmt, ics), e.q, Chosens(ics, e, spends), |ics.groups|)
  {
    hide Sectionable, Quantised, Spread, Within, ValidChannel, Cat, ValidTables, SectionsOf;
    WholeSpectrum(fmt.tables, LayoutOf(fmt, ics), GroupBooks(Chosens(ics, e, spends)), e.q);
  }

  // ---------- counted as written ----------

  /** What is written: every band in use is rounded at the scalefactor of the first window of its
      group, and no codebook from the least one on cuts it differently. */
  ghost predicate WrittenAtHeads(lay: Layout, e: Element, value: Value) {
    && |lay.offsets| == lay.maxSfb + 1 && |e.zeroes| == |e.bandType| == |e.sfIdx| == ENTRIES && |e.q| == COEFS
    && forall p, cb :: 0 <= p < COEFS && !InTail(lay, p) && 0 <= cb < BOOKS ==> WrittenAt(lay, e, value, p, cb)
  }

  ghost predicate WrittenAt(lay: Layout, e: Element, value: Value, p: nat, cb: nat)
    requires p < |e.q|
  {
    var a := HeadEntry(lay, p);
    a < |e.sfIdx| && a < |e.zeroes| && a < |e.bandType| && !e.zeroes[a] && e.bandType[a] <= cb
    ==> e.q[p] == Cut(cb, value(p, e.sfIdx[a]))
  }

  /** Every window has its group's scalefactors. */
  ghost predicate SameScales(groups: seq<nat>, maxSfb: nat, sfIdx: seq<int>) {
    forall g, w, i :: 0 <= g < |groups| && 0 <= w < groups[g] && 0 <= i < maxSfb ==> SameScale(groups, sfIdx, g, w, i)
  }

  ghost predicate SameScale(groups: seq<nat>, sfIdx: seq<int>, g: nat, w: nat, i: nat) {
    g < |groups| && var a, b := 16 * (Windows(groups, g) + w) + i, 16 * Windows(groups, g) + i;
    a < |sfIdx| && b < |sfIdx| && sfIdx[a] == sfIdx[b]
  }

  /** A window of a band is counted as it is written. */
  lemma WindowAsWritten(fmt: Format, ics: Ics, e: Element, value: Value, g: nat, w: nat, i: nat, cb: nat)
    requires ValidFormat(fmt) && ValidIcsFor(fmt, ics) && g < |ics.groups| && w < ics.groups[g] && i < ics.maxSfb
    requires WrittenAtHeads(LayoutOf(fmt, ics), e, value) && SameScale(ics.groups, e.sfIdx, g, w, i) && cb < BOOKS
    requires 16 * Windows(ics.groups, g) + i < ENTRIES && MayChoose(e, 16 * Windows(ics.groups, g), i, cb)
    ensures var q := Counted(IsShort(ics), Offsets(fmt, ics), e.sfIdx, value)(cb);
      var at := (Windows(ics.groups, g) + w) * WINDOW;
      && |q| == COEFS && at + Offsets(fmt, ics)[i + 1] <= COEFS
      && q[at + Offsets(fmt, ics)[i]..at + Offsets(fmt, ics)[i + 1]]
         == e.q[at + Offsets(fmt, ics)[i]..at + Offsets(fmt, ics)[i + 1]]
  {
    hide ValidTables, HeadEntry, OwnEntry, InTail, Windows, ValidLayout, Counted, LayoutOf, ValidOffsets;
    var offsets, at := Offsets(fmt, ics), (Windows(ics.groups, g) + w) * WINDOW;
    var q := Counted(IsShort(ics), offsets, e.sfIdx, value)(cb);
    BandInside(fmt, ics, i);
    PlaceOf(fmt, ics, g, w, i, offsets[i + 1] - 1);
    CountedAt(IsShort(ics), offsets, e.sfIdx, value, cb, at + offsets[i + 1] - 1);
    forall p | at + offsets[i] <= p < at + offsets[i + 1]
      ensures |q| == COEFS && p < COEFS && q[p] == e.q[p]
    {
      PlaceOf(fmt, ics, g, w, i, p - at);
      CountedAt(IsShort(ics), offsets, e.sfIdx, value, cb, p);
      assert WrittenAt(LayoutOf(fmt, ics), e, value, p, cb);
    }
    SamePart(q, e.q, at + offsets[i], at + offsets[i + 1]);
  }

  lemma SamePart(a: seq<int>, b: seq<int>, lo: nat, hi: nat)
    requires lo <= hi <= |a| && hi <= |b| && forall p :: lo <= p < hi ==> a[p] == b[p]
    ensures a[lo..hi] == b[lo..hi]
  {
  }

  /** So is a band in all windows of its group. */
  lemma {:induction false} BandAsWritten(fmt: Format, ics: Ics, e: Element, value: Value, g: nat, i: nat, cb: nat,
                                         n: nat)
    requires ValidFormat(fmt) && ValidIcsFor(fmt, ics) && g < |ics.groups| && n <= ics.groups[g] && i < ics.maxSfb
    requires WrittenAtHeads(LayoutOf(fmt, ics), e, value) && SameScales(ics.groups, ics.maxSfb, e.sfIdx) && cb < BOOKS
    requires 16 * Windows(ics.groups, g) + i < ENTRIES && MayChoose(e, 16 * Windows(ics.groups, g), i, cb)
    requires |fmt.tables.books| == 11
    ensures var offsets, first := Offsets(fmt, ics), Windows(ics.groups, g);
      && offsets[i] <= offsets[i + 1]
      && WindowsCost(fmt.tables, cb, Counted(IsShort(ics), offsets, e.sfIdx, value)(cb), first, offsets[i],
                     offsets[i + 1] - offsets[i], n)
         == WindowsCost(fmt.tables, cb, e.q, first, offsets[i], offsets[i + 1] - offsets[i], n)
  {
    hide ValidFormat, ValidIcsFor, Windows, Counted, LayoutOf, WrittenAtHeads, SameScale, WindowsCost, MayChoose;
    BandInside(fmt, ics, i);
    NoWindowsNoCost(fmt.tables, cb, e.q, Windows(ics.groups, g), Offsets(fmt, ics)[i],
                    Offsets(fmt, ics)[i + 1] - Offsets(fmt, ics)[i]);
    NoWindowsNoCost(fmt.tables, cb, Counted(IsShort(ics), Offsets(fmt, ics), e.sfIdx, value)(cb),
                    Windows(ics.groups, g), Offsets(fmt, ics)[i], Offsets(fmt, ics)[i + 1] - Offsets(fmt, ics)[i]);
    if n > 0 {
      BandAsWritten(fmt, ics, e, value, g, i, cb, n - 1);
      assert SameScale(ics.groups, e.sfIdx, g, n - 1, i);
      WindowAsWritten(fmt, ics, e, value, g, n - 1, i, cb);
      WrittenLength(LayoutOf(fmt, ics), e, value);
      var offsets := Offsets(fmt, ics);
      WindowAgain(fmt.tables, cb, Counted(IsShort(ics), offsets, e.sfIdx, value)(cb), e.q, Windows(ics.groups, g),
                  offsets[i], offsets[i + 1] - offsets[i], n);
    }
  }

  /** One window more that is the same in both spectra. */
  lemma WindowAgain(t: Tables, cb: nat, a: seq<int>, b: seq<int>, first: nat, start: nat, size: nat, n: nat)
    requires |t.books| == 11 && n > 0 && |a| == |b|
    requires var at := (first + (n - 1)) * WINDOW + start; at + size <= |a| && a[at..at + size] == b[at..at + size]
    requires WindowsCost(t, cb, a, first, start, size, n - 1) == WindowsCost(t, cb, b, first, start, size, n - 1)
    ensures WindowsCost(t, cb, a, first, start, size, n) == WindowsCost(t, cb, b, first, start, size, n)
  {
    hide CostOf;
  }

  lemma WrittenLength(lay: Layout, e: Element, value: Value)
    requires WrittenAtHeads(lay, e, value)
    ensures |e.q| == COEFS
  {
  }

  /** With the same scalefactor in all windows of a group the trellis is told the bits that are
      written. */
  lemma CountedIsTrue(fmt: Format, ics: Ics, e: Element, numSwb: nat, groupLen: seq<nat>, numWindows: nat,
                      value: Value, g: nat)
    requires Prepared(fmt, ics, e, numSwb) && Grouped(ics.groups, groupLen, numWindows) && g < |ics.groups|
    requires WrittenAtHeads(LayoutOf(fmt, ics), e, value) && SameScales(ics.groups, ics.maxSfb, e.sfIdx)
    ensures |fmt.tables.books| == 11
    ensures TrueSpends(fmt.tables, LayoutOf(fmt, ics), e, SpendsFor(fmt, ics, e, groupLen, value), g)
  {
    hide Spread, Within, Quantised, ValidTables, LeastKnown, ShortTables, Windows, WrittenAtHeads, SameScales, Counted,
      WindowsCost, Grouped, SpendsOf, ValidLayout;
    EntriesInRange(ics.groups, ics.maxSfb, g);
    var offsets, lay := Offsets(fmt, ics), LayoutOf(fmt, ics);
    var counted := Counted(IsShort(ics), offsets, e.sfIdx, value);
    SpendsCount(fmt, ics, counted, groupLen, numWindows, g);
    forall i, cb | 0 <= i < lay.maxSfb && MayChoose(e, 16 * Windows(ics.groups, g), i, cb)
      ensures SpendsFor(fmt, ics, e, groupLen, value)(Windows(ics.groups, g))(i, cb)
           == WindowsCost(fmt.tables, cb, e.q, Windows(lay.groups, g), lay.offsets[i],
                          lay.offsets[i + 1] - lay.offsets[i], lay.groups[g])
    {
      assert CountsBand(fmt.tables, lay, counted, SpendsFor(fmt, ics, e, groupLen, value), g, i, cb);
      BandAsWritten(fmt, ics, e, value, g, i, cb, ics.groups[g]);
      OffsetsOf(fmt, ics, i);
    }
  }

  /** A coefficient of a band in use that its least codebook holds, or that no other codebook from
      that on could cut. */
  ghost predicate LeastHolds(lay: Layout, e: Element, value: Value, p: nat) {
    var a := HeadEntry(lay, p);
    a < |e.sfIdx| && a < |e.zeroes| && a < |e.bandType| && !e.zeroes[a]
    ==> e.bandType[a] == ESC_BOOK
        || (e.bandType[a] < BOOKS && Abs(value(p, e.sfIdx[a])) <= Reach(e.bandType[a]))
  }

  lemma ReachGrows(small: nat, large: nat)
    requires small <= large < BOOKS
    ensures Reach(small) <= Reach(large)
  {
  }

  /** Where the least codebook of every band holds its coefficients, as find_min_book finds it, they
      are written as they were rounded. */
  lemma HeldIsWritten(lay: Layout, e: Element, value: Value)
    requires |lay.offsets| == lay.maxSfb + 1 && |e.zeroes| == |e.bandType| == |e.sfIdx| == ENTRIES
    requires e.q == Rounded(lay, e.zeroes, e.bandType, e.sfIdx, value)
    requires forall p :: 0 <= p < COEFS && !InTail(lay, p) ==> LeastHolds(lay, e, value, p)
    ensures WrittenAtHeads(lay, e, value)
  {
    hide HeadEntry, Reach;
    forall p, cb | 0 <= p < COEFS && !InTail(lay, p) && 0 <= cb < BOOKS ensures WrittenAt(lay, e, value, p, cb) {
      assert LeastHolds(lay, e, value, p);
      var a := HeadEntry(lay, p);
      if a < ENTRIES && !e.zeroes[a] && e.bandType[a] <= cb {
        ReachGrows(e.bandType[a], cb);
      }
    }
  }

  /** Groups of one window, as long windows are, have no other scalefactors. */
  lemma SingleWindowsSame(groups: seq<nat>, maxSfb: nat, sfIdx: seq<int>)
    requires Apart(groups, maxSfb) && |sfIdx| == ENTRIES && forall g :: 0 <= g < |groups| ==> groups[g] == 1
    ensures SameScales(groups, maxSfb, sfIdx)
  {
    hide Windows;
    forall g, w, i | 0 <= g < |groups| && 0 <= w < groups[g] && 0 <= i < maxSfb
      ensures SameScale(groups, sfIdx, g, w, i)
    {
      EntriesInRange(groups, maxSfb, g);
    }
  }

  /** The section and spectral bits of the channel that is sent are the fewest of all admitted
      sections. */
  ghost predicate FewestSent(fmt: Format, ics: Ics, e: Element, numSwb: nat, spends: Spends) {
    Ready(fmt, ics, e, numSwb, spends) && ValidChannel(fmt, SentChannel(fmt, ics, e, numSwb, spends)) &&
    var ch, lay := SentChannel(fmt, ics, e, numSwb, spends), LayoutOf(fmt, ics);
    forall other :: Admits(ics, e, spends, other) ==>
      && CanCount(fmt.tables, lay, e.q, other, |ics.groups|)
      && |SectionBits(ch)| + |SpectrumBits(fmt, ch)| <= CodedBits(fmt.tables, lay, e.q, other, |ics.groups|)
  }

  /** When no run can reach the escape value and all windows of a group have the same
      scalefactors, nothing cheaper could be sent, counted on the real code words, sign bits and
      escapes. */
  lemma SentIsCheapest(fmt: Format, ics: Ics, e: Element, numSwb: nat, groupLen: seq<nat>, numWindows: nat,
                       value: Value)
    requires Prepared(fmt, ics, e, numSwb) && Grouped(ics.groups, groupLen, numWindows)
    requires 0 < ics.maxSfb < RunEsc(IsShort(ics)) && ValidFormat(fmt) && ValidIcsFor(fmt, ics)
    requires WrittenAtHeads(LayoutOf(fmt, ics), e, value) && SameScales(ics.groups, ics.maxSfb, e.sfIdx)
    ensures |fmt.tables.books| == 11
    ensures FewestSent(fmt, ics, e, numSwb, SpendsFor(fmt, ics, e, groupLen, value))
  {
    hide Ready, Prepared, Admits, TrueSpends, SpendsOf, GroupAdmits, ValidChannel, Sectionable, CanCount, CodedBits,
      WrittenAtHeads, SameScales, ValidFormat, ValidIcsFor, LayoutOf, SentChannel, SpectrumBits, SectionBits,
      SpendsFor;
    PreparedIsReady(fmt, ics, e, numSwb, groupLen, numWindows, value);
    var spends := SpendsFor(fmt, ics, e, groupLen, value);
    SentIsValid(fmt, ics, e, numSwb, spends);
    ReadyParts(fmt, ics, e, numSwb, spends);
    forall g | 0 <= g < |ics.groups| ensures TrueSpends(fmt.tables, LayoutOf(fmt, ics), e, spends, g) {
      CountedIsTrue(fmt, ics, e, numSwb, groupLen, numWindows, value, g);
    }
    forall other | Admits(ics, e, spends, other)
      ensures var ch, lay := SentChannel(fmt, ics, e, numSwb, spends), LayoutOf(fmt, ics);
        && CanCount(fmt.tables, lay, e.q, other, |ics.groups|)
        && |SectionBits(ch)| + |SpectrumBits(fmt, ch)| <= CodedBits(fmt.tables, lay, e.q, other, |ics.groups|)
    {
      GroupsAreCheapest(fmt, ics, e, numSwb, spends, other, |ics.groups|);
      SentBits(fmt, ics, e, numSwb, spends);
    }
  }

  /** One cheaper group makes cheaper sections. */
  lemma {:induction false} CheaperGroup(fmt: Format, ics: Ics, e: Element, numSwb: nat, spends: Spends,
                                        a: seq<seq<Section>>, b: seq<seq<Section>>, g: nat, k: nat)
    requires Ready(fmt, ics, e, numSwb, spends) && Admits(ics, e, spends, a) && Admits(ics, e, spends, b)
    requires g < |ics.groups| && k <= |ics.groups| && |a| == |b| == |ics.groups|
    requires forall j :: 0 <= j < |ics.groups| ==> TrueSpends(fmt.tables, LayoutOf(fmt, ics), e, spends, j)
    requires forall j :: 0 <= j < |ics.groups| && j != g ==> a[j] == b[j]
    requires GroupAdmits(ics, e, spends, a, g) && GroupAdmits(ics, e, spends, b, g)
    requires GroupWritten(ics, e, spends, a, g) < GroupWritten(ics, e, spends, b, g)
    ensures var lay := LayoutOf(fmt, ics);
      && CanCount(fmt.tables, lay, e.q, a, k) && CanCount(fmt.tables, lay, e.q, b, k)
      && CodedBits(fmt.tables, lay, e.q, a, k) + (if g < k then 1 else 0) <= CodedBits(fmt.tables, lay, e.q, b, k)
    decreases k
  {
    hide Ready, Admits, CanCount, CodedBits, TrueSpends, GroupWritten, LayoutOf, GroupAdmits, ValidFormat,
      ValidIcsFor;
    ReadyParts(fmt, ics, e, numSwb, spends);
    if k > 0 {
      CheaperGroup(fmt, ics, e, numSwb, spends, a, b, g, k - 1);
      CodedBitsMore(fmt, ics, e, numSwb, spends, a, k - 1);
      CodedBitsMore(fmt, ics, e, numSwb, spends, b, k - 1);
      if k - 1 != g {
        SameGroup(ics, e, spends, a, b, k - 1);
      }
    } else {
      NothingCoded(fmt, ics, e, numSwb, spends, a);
      NothingCoded(fmt, ics, e, numSwb, spends, b);
    }
  }

  lemma SameGroup(ics: Ics, e: Element, spends: Spends, a: seq<seq<Section>>, b: seq<seq<Section>>, j: nat)
    requires j < |ics.groups| == |a| == |b| && a[j] == b[j]
    requires GroupAdmits(ics, e, spends, a, j) && GroupAdmits(ics, e, spends, b, j)
    ensures GroupWritten(ics, e, spends, a, j) == GroupWritten(ics, e, spends, b, j)
  {
  }

  /** Which sections are admitted does not depend on what is counted. */
  lemma AdmitsEither(ics: Ics, e: Element, spends: Spends, others: Spends, ss: seq<seq<Section>>)
    requires Admits(ics, e, spends, ss)
    requires Sectionable(IsShort(ics), e.zeroes, e.bandType, ics.groups, ics.maxSfb, others)
    ensures Admits(ics, e, others, ss)
  {
    hide Books, Covered, Affordable, ValidBands, Windows, Apart;
    forall g | 0 <= g < |ss| ensures GroupAdmits(ics, e, others, ss, g) {
      assert GroupAdmits(ics, e, spends, ss, g);
      assert GroupSectionable(IsShort(ics), e.zeroes, e.bandType, ics.groups, ics.maxSfb, others, g);
      TilesEither(e.zeroes, e.bandType, 16 * Windows(ics.groups, g), ics.maxSfb, spends(Windows(ics.groups, g)),
                  others(Windows(ics.groups, g)), ss[g]);
    }
  }

  lemma TilesEither(zeroes: seq<bool>, bandType: seq<nat>, base: nat, maxSfb: nat, spend: (nat, nat) -> nat,
                    other: (nat, nat) -> nat, ss: seq<Section>)
    requires base + maxSfb <= |zeroes| && base + maxSfb <= |bandType|
    requires Tiles(BandsOf(zeroes, bandType, base, maxSfb, spend), ss, maxSfb)
    ensures Tiles(BandsOf(zeroes, bandType, base, maxSfb, other), ss, maxSfb)
  {
    hide Books, Covered;
    var bands, bands' := BandsOf(zeroes, bandType, base, maxSfb, spend), BandsOf(zeroes, bandType, base, maxSfb, other);
    forall i | 0 <= i < |Books(ss)| ensures Books(ss)[i] < BOOKS && Allowed(bands'[i], Books(ss)[i]) {
      assert Allowed(bands[i], Books(ss)[i]);
    }
  }

  /** The bit counts of what is written. */
  function WrittenSpends(fmt: Format, ics: Ics, e: Element, groupLen: seq<nat>): Spends
    requires |fmt.tables.books| == 11
  {
    SpendsOf(fmt.tables, (cb: nat) => e.q, Offsets(fmt, ics), groupLen)
  }

  lemma WrittenIsTrue(fmt: Format, ics: Ics, e: Element, numSwb: nat, groupLen: seq<nat>, numWindows: nat, g: nat)
    requires Prepared(fmt, ics, e, numSwb) && Grouped(ics.groups, groupLen, numWindows) && g < |ics.groups|
    ensures |fmt.tables.books| == 11 && ValidFormat(fmt) && ValidIcsFor(fmt, ics)
    ensures TrueSpends(fmt.tables, LayoutOf(fmt, ics), e, WrittenSpends(fmt, ics, e, groupLen), g)
  {
    hide Spread, Within, Quantised, ValidTables, LeastKnown, ShortTables, Windows, WindowsCost, Grouped, SpendsOf;
    EntriesInRange(ics.groups, ics.maxSfb, g);
    SpendsCount(fmt, ics, (cb: nat) => e.q, groupLen, numWindows, g);
    var lay, spends := LayoutOf(fmt, ics), WrittenSpends(fmt, ics, e, groupLen);
    forall i, cb | 0 <= i < lay.maxSfb && MayChoose(e, 16 * Windows(ics.groups, g), i, cb)
      ensures spends(Windows(ics.groups, g))(i, cb)
           == WindowsCost(fmt.tables, cb, e.q, Windows(lay.groups, g), lay.offsets[i],
                          lay.offsets[i + 1] - lay.offsets[i], lay.groups[g])
    {
      assert CountsBand(fmt.tables, lay, (cb: nat) => e.q, spends, g, i, cb);
    }
  }
}
