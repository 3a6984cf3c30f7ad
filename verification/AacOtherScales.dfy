/** When the section trellis of the AAC encoder counts the bits that are written. It counts every
    window of a group at the window's own scalefactor (codebook_trellis_rate of
    libavcodec/aaccoder.c), while the group is written at the scalefactor of its first window
    (encode_spectral_coeffs of libavcodec/aacenc.c). */
module AacOtherScales {
  import opened CodeLists
  import opened AacSections
  import opened AacSpectral
  import opened AacSpectrum
  import opened AacStream
  import opened AacTrellis
  import opened AacSectionCoder
  import opened AacTwoLoop
  import opened AacQuantise
  import opened AacEncoder
  import opened AacCheapest
  import AacMissed

  // ---------- one section with another codebook ----------

  /** The sections with another codebook in the section of band i. */
  ghost function Rebook(ss: seq<Section>, i: nat, cb: nat): (r: seq<Section>)
    requires i < Covered(ss)
    ensures |r| == |ss| && Covered(r) == Covered(ss)
  {
    var n := |ss| - 1;
    var before := ss[..n];
    if i < Covered(before) then
      var r := Rebook(before, i, cb);
      assert (r + [ss[n]])[..n] == r;
      r + [ss[n]]
    else
      assert (before + [Section(cb, ss[n].run)])[..n] == before;
      before + [Section(cb, ss[n].run)]
  }

  lemma SectionLength(short: bool, s: Section, cb: nat)
    ensures |SectionCode(short, Section(cb, s.run))| == |SectionCode(short, s)|
  {
  }

  lemma BooksLast(ss: seq<Section>, last: Section)
    ensures Books(ss + [last]) == Books(ss) + seq(last.run, _ => last.book)
    ensures Covered(ss + [last]) == Covered(ss) + last.run
  {
    assert (ss + [last])[..|ss|] == ss;
  }

  lemma SectionsMore(short: bool, ss: seq<Section>, last: Section)
    ensures |SectionsCode(short, ss + [last])| == |SectionsCode(short, ss)| + |SectionCode(short, last)|
  {
    assert (ss + [last])[..|ss|] == ss;
    SectionsLast(short, ss + [last]);
  }

  /** The section bits stay, and only bands that had the codebook of band i get the other one. */
  lemma {:induction false} Rebooked(short: bool, ss: seq<Section>, i: nat, cb: nat)
    requires i < Covered(ss) && forall k :: 0 <= k < |ss| ==> ss[k].run > 0
    ensures var r := Rebook(ss, i, cb);
      && |SectionsCode(short, r)| == |SectionsCode(short, ss)|
      && (forall k :: 0 <= k < |r| ==> r[k].run > 0) && Books(r)[i] == cb
      && forall j :: 0 <= j < Covered(ss) ==>
           Books(r)[j] == Books(ss)[j] || (Books(r)[j] == cb && Books(ss)[j] == Books(ss)[i])
  {
    hide SectionCode, Books, Covered, SectionsCode;
    var n := |ss| - 1;
    if ss == [] {
      NothingCovered(ss);
    } else {
      var before, last := ss[..n], ss[n];
      assert ss == before + [last];
      BooksLast(before, last);
      SectionsMore(short, before, last);
      SectionLength(short, last, cb);
      if i < Covered(before) {
        Rebooked(short, before, i, cb);
        BooksLast(Rebook(before, i, cb), last);
        SectionsMore(short, Rebook(before, i, cb), last);
      } else {
        BooksLast(before, Section(cb, last.run));
        SectionsMore(short, before, Section(cb, last.run));
      }
    }
  }

  lemma NothingCovered(ss: seq<Section>)
    ensures ss == [] ==> Covered(ss) == 0
  {
  }

  /** All bands but band i are silent. */
  ghost predicate OnlyBand(bands: seq<Band>, i: nat) {
    && ValidBands(bands) && i < |bands| && !bands[i].zero && bands[i].minBook > 0
    && forall j :: 0 <= j < |bands| && j != i ==> bands[j].zero
  }

  lemma {:induction false} OnlyBits(bands: seq<Band>, books: seq<nat>, i: nat, k: nat)
    requires OnlyBand(bands, i) && k <= |bands| == |books| && forall j :: 0 <= j < |books| ==> books[j] < BOOKS
    ensures SpectralBits(bands, books, k) == if i < k then Spend(bands[i], books[i]) else 0
  {
    if k > 0 {
      OnlyBits(bands, books, i, k - 1);
    }
  }

  /** Another codebook for the only band changes the bits by what the band takes. */
  lemma RebookWritten(short: bool, bands: seq<Band>, ss: seq<Section>, i: nat, cb: nat)
    requires OnlyBand(bands, i) && Tiles(bands, ss, |bands|) && cb < BOOKS && Allowed(bands[i], cb)
    ensures Books(ss)[i] < BOOKS && Allowed(bands[i], Books(ss)[i]) && Tiles(bands, Rebook(ss, i, cb), |bands|)
    ensures Written(short, bands, Rebook(ss, i, cb)) + Spend(bands[i], Books(ss)[i])
         == Written(short, bands, ss) + Spend(bands[i], cb)
  {
    hide SectionsCode, Books, Covered, Rebook, SpectralBits, Spend;
    Rebooked(short, ss, i, cb);
    var r := Rebook(ss, i, cb);
    assert Allowed(bands[i], Books(ss)[i]);
    forall j | 0 <= j < |bands| ensures Books(r)[j] < BOOKS && Allowed(bands[j], Books(r)[j])
    {
      assert Allowed(bands[j], Books(ss)[j]);
    }
    OnlyBits(bands, Books(ss), i, |bands|);
    OnlyBits(bands, Books(r), i, |bands|);
  }

  // ---------- what codebooks spend on a pair ----------

  const ZERO_WORDS: seq<nat> := [0, 0, 0, 0, 0, 1, 4, 1, 5, 1, 6, 4]
  const ONES_WORDS: seq<nat> := [0, 0, 0, 0, 0, 5, 4, 4, 3, 4, 4, 4]
  const THREE_WORDS: seq<nat> := [0, 0, 0, 0, 0, 8, 7, 7, 6, 8, 6, 7]
  const FOUR_WORDS: seq<nat> := [0, 0, 0, 0, 0, 11, 9, 8, 7, 9, 7, 8]

  /** Lengths in ff_aac_spectral_bits of the words for the pairs 0 0, 1 1, 0 3 and 0 4, and for other
      pairs with a zero in codebooks 5 and 7. */
  predicate PairWords(books: seq<CodeBook>) {
    && |books| == 11
    && (forall cb :: 5 <= cb <= 11 ==> CommonPairs(books, cb))
    && HasPair(books, 5, 0, 1, 4) && HasPair(books, 5, 0, 2, 7)
    && HasPair(books, 7, 0, 1, 3) && HasPair(books, 7, 0, 2, 6)
    && HasPair(books, 7, 0, 6, 10) && HasPair(books, 7, 0, 7, 11)
  }

  predicate CommonPairs(books: seq<CodeBook>, cb: nat) {
    && 5 <= cb <= 11
    && HasPair(books, cb, 0, 0, ZERO_WORDS[cb]) && HasPair(books, cb, 1, 1, ONES_WORDS[cb])
    && HasPair(books, cb, 0, 3, THREE_WORDS[cb]) && HasPair(books, cb, 0, 4, FOUR_WORDS[cb])
  }

  predicate HasPair(books: seq<CodeBook>, cb: nat, a: nat, b: nat, len: nat) {
    |books| == 11 && 5 <= cb <= 11 && AacMissed.HasWord(books[cb - 1], AacMissed.PairIndex(cb, a, b), len)
  }

  /** The bits of a pair. */
  function PairBits(books: seq<CodeBook>, cb: nat, a: nat, b: nat): int
    requires |books| == 11 && Book(cb)
  {
    VectorCoster(books[cb - 1], cb)([a, b])
  }

  lemma PairBitsAre(books: seq<CodeBook>, cb: nat, a: nat, b: nat, len: nat)
    requires HasPair(books, cb, a, b, len) && a <= MaxVal(cb) && b <= MaxVal(cb) && a < 16 && b < 16
    ensures PairBits(books, cb, a, b)
         == len + if Unsigned(cb) then (if a == 0 then 0 else 1) + (if b == 0 then 0 else 1) else 0
  {
    AacMissed.PairCost(books[cb - 1], cb, a, b, len);
  }

  /** Bits of the pairs 1 1 and 0 b together. */
  function BothBits(books: seq<CodeBook>, cb: nat, b: nat): int
    requires |books| == 11 && Book(cb)
  {
    PairBits(books, cb, 1, 1) + PairBits(books, cb, 0, b)
  }

  const THREE_BITS: seq<nat> := [0, 0, 0, 0, 0, 13, 11, 14, 12, 15, 13, 14]
  const FOUR_BITS: seq<nat> := [0, 0, 0, 0, 0, 16, 13, 15, 13, 16, 14, 15]

  lemma CommonBits(books: seq<CodeBook>, cb: nat)
    requires PairWords(books) && 5 <= cb <= 11
    ensures PairBits(books, cb, 0, 0) == ZERO_WORDS[cb]
    ensures BothBits(books, cb, 3) == THREE_BITS[cb] && BothBits(books, cb, 4) == FOUR_BITS[cb]
  {
    hide HasPair, PairBits;
    assert CommonPairs(books, cb);
    PairBitsAre(books, cb, 0, 0, ZERO_WORDS[cb]);
    PairBitsAre(books, cb, 1, 1, ONES_WORDS[cb]);
    PairBitsAre(books, cb, 0, 3, THREE_WORDS[cb]);
    PairBitsAre(books, cb, 0, 4, FOUR_WORDS[cb]);
  }

  /** The pair 0 b as codebook cb counts it. */
  function CutPair(cb: nat, b: nat): (c: nat)
    ensures c <= Reach(cb)
  {
    if b <= Reach(cb) then b else Reach(cb)
  }

  /** Counted with a value of at most 3 or of at least 6 codebook 5 is cheaper than 7. */
  lemma FiveIsCheaper(books: seq<CodeBook>, b: nat)
    requires PairWords(books) && |books| == 11 && (b <= 3 || b >= 6)
    ensures BothBits(books, 5, CutPair(5, b)) < BothBits(books, 7, CutPair(7, b))
  {
    hide HasPair, PairBits;
    assert CommonPairs(books, 5) && CommonPairs(books, 7);
    PairBitsAre(books, 5, 1, 1, 5);
    PairBitsAre(books, 7, 1, 1, 4);
    PairBitsAre(books, 5, 0, 0, 1);
    PairBitsAre(books, 7, 0, 0, 1);
    PairBitsAre(books, 5, 0, 1, 4);
    PairBitsAre(books, 7, 0, 1, 3);
    PairBitsAre(books, 5, 0, 2, 7);
    PairBitsAre(books, 7, 0, 2, 6);
    PairBitsAre(books, 5, 0, 3, 8);
    PairBitsAre(books, 7, 0, 3, 7);
    PairBitsAre(books, 5, 0, 4, 11);
    PairBitsAre(books, 7, 0, 6, 10);
    PairBitsAre(books, 7, 0, 7, 11);
  }

  /** A pair, then zeros. */
  function PairFirst(size: nat, a: int, b: int): (vals: seq<int>)
    ensures |vals| == size
  {
    seq(size, k => if k == 0 then a else if k == 1 then b else 0)
  }

  lemma {:induction false} TotalOfPair<V>(cost: V -> int, vs: seq<V>, p: V, z: V, k: nat)
    requires 0 < k <= |vs| && vs[0] == p && forall j :: 0 < j < |vs| ==> vs[j] == z
    ensures Total(cost, vs, k) == cost(p) + (k - 1) * cost(z)
  {
    if k > 1 {
      TotalOfPair(cost, vs, p, z, k - 1);
      assert (k - 1) * cost(z) == (k - 2) * cost(z) + cost(z);
    } else {
      assert Total(cost, vs, 0) == 0;
    }
  }

  /** The bits of a window of the band. */
  function PairWindow(books: seq<CodeBook>, cb: nat, size: nat, a: nat, b: nat): int
    requires |books| == 11 && Book(cb)
  {
    PairBits(books, cb, a, b) + (size / 2 - 1) * PairBits(books, cb, 0, 0)
  }

  lemma PairFirstCost(books: seq<CodeBook>, cb: nat, size: nat, a: nat, b: nat)
    requires |books| == 11 && 5 <= cb <= 11 && size >= 2 && size % 4 == 0
    ensures BandCost(books[cb - 1], cb, PairFirst(size, a, b)) == PairWindow(books, cb, size, a, b)
  {
    hide VectorCoster;
    var vals := PairFirst(size, a, b);
    var vs := Vectors(cb, vals);
    assert vs[0] == [a, b];
    forall j | 0 < j < |vs| ensures vs[j] == [0, 0] {
      assert vs[j] == vals[2 * j..2 * j + 2];
    }
    TotalOfPair(VectorCoster(books[cb - 1], cb), vs, [a, b], [0, 0], size / 2);
  }

  /** The band in the windows of its group: the first starts with the pair 1 1, number w with 0 b,
      and the rest is zero. */
  ghost predicate TwoPairs(q: seq<int>, first: nat, start: nat, size: nat, len: nat, w: nat, b: nat) {
    forall v :: 0 <= v < len ==> OneWindow(q, first, start, size, w, b, v)
  }

  function Left(v: nat): nat {
    if v == 0 then 1 else 0
  }

  function Right(w: nat, b: nat, v: nat): nat {
    if v == 0 then 1 else if v == w then b else 0
  }

  ghost predicate OneWindow(q: seq<int>, first: nat, start: nat, size: nat, w: nat, b: nat, v: nat) {
    WindowIs(q, (first + v) * WINDOW + start, size, Left(v), Right(w, b, v))
  }

  ghost predicate WindowIs(q: seq<int>, at: nat, size: nat, a: nat, b: nat) {
    at + size <= |q| && q[at..at + size] == PairFirst(size, a, b)
  }

  lemma PairWindowCost(t: Tables, cb: nat, q: seq<int>, at: nat, size: nat, a: nat, b: nat)
    requires |t.books| == 11 && 5 <= cb <= 11 && size >= 2 && size % 4 == 0 && WindowIs(q, at, size, a, b)
    ensures WindowCost(t, cb, q, at, size) == PairWindow(t.books, cb, size, a, b)
  {
    hide PairBits, BandCost, PairFirst, PairWindow;
    PairFirstCost(t.books, cb, size, a, b);
  }

  /** The bits of the band in its first n windows. */
  lemma {:induction false} PairWindowsCost(t: Tables, cb: nat, q: seq<int>, first: nat, start: nat, size: nat, len: nat,
                                           w: nat, b: nat, n: nat)
    requires |t.books| == 11 && 5 <= cb <= 11 && size >= 2 && size % 4 == 0 && n <= len && w > 0
    requires TwoPairs(q, first, start, size, len, w, b)
    ensures var z := PairBits(t.books, cb, 0, 0);
      WindowsCost(t, cb, q, first, start, size, n)
      == n * PairWindow(t.books, cb, size, 0, 0) + (if 0 < n then PairBits(t.books, cb, 1, 1) - z else 0)
         + if w < n then PairBits(t.books, cb, 0, b) - z else 0
  {
    hide PairBits, WindowCost, WindowIs;
    if n > 0 {
      PairWindowsCost(t, cb, q, first, start, size, len, w, b, n - 1);
      assert OneWindow(q, first, start, size, w, b, n - 1);
      PairWindowCost(t, cb, q, (first + (n - 1)) * WINDOW + start, size, Left(n - 1), Right(w, b, n - 1));
      var z := PairWindow(t.books, cb, size, 0, 0);
      assert n * z == (n - 1) * z + z;
    }
  }

  /** All pairs of the band but those two. */
  function ZeroPairs(size: nat, len: nat): int {
    len * (size / 2) - 2
  }

  /** The bits of the band. */
  function TwoPairsBits(books: seq<CodeBook>, cb: nat, size: nat, len: nat, b: nat): int
    requires |books| == 11 && Book(cb)
  {
    ZeroPairs(size, len) * PairBits(books, cb, 0, 0) + BothBits(books, cb, b)
  }

  lemma TwoPairsCost(t: Tables, cb: nat, q: seq<int>, first: nat, start: nat, size: nat, len: nat, w: nat, b: nat)
    requires |t.books| == 11 && 5 <= cb <= 11 && size >= 2 && size % 4 == 0 && 0 < w < len
    requires TwoPairs(q, first, start, size, len, w, b)
    ensures WindowsCost(t, cb, q, first, start, size, len) == TwoPairsBits(t.books, cb, size, len, b)
  {
    hide PairBits, TwoPairs, WindowsCost;
    PairWindowsCost(t, cb, q, first, start, size, len, w, b, len);
    ZerosTogether(len, size / 2, PairBits(t.books, cb, 0, 0));
  }

  lemma ZerosTogether(len: nat, n: nat, z: int)
    ensures len * (z + (n - 1) * z) == (len * n - 2) * z + 2 * z
  {
    assert z + (n - 1) * z == n * z;
    assert len * (n * z) == len * n * z;
  }

  /** The codebook that takes the fewest bits when the pair is written with 4, or with 3. */
  function BestBook(b: nat): nat {
    if b == 3 then 5 else 7
  }

  /** As written it is cheaper than all others. */
  lemma BestIsCheaper(books: seq<CodeBook>, cb: nat, size: nat, len: nat, b: nat)
    requires PairWords(books) && |books| == 11 && 5 <= cb <= 11 && size >= 4 && len >= 2 && (b == 3 || b == 4)
    requires cb != BestBook(b)
    ensures TwoPairsBits(books, BestBook(b), size, len, b) < TwoPairsBits(books, cb, size, len, b)
  {
    hide PairWords, PairBits, BothBits;
    CommonBits(books, cb);
    CommonBits(books, BestBook(b));
    AtLeastFour(len, size / 2);
    FewestZeros(ZeroPairs(size, len), ZERO_WORDS[cb]);
  }

  lemma AtLeastFour(a: nat, b: nat)
    requires a >= 2 && b >= 2
    ensures a * b >= 4
  {
  }

  lemma FewestZeros(n: int, z: nat)
    requires n >= 2
    ensures z >= 1 ==> n * z >= n
    ensures z >= 4 ==> n * z >= n + 6
  {
    if z >= 1 {
      assert n * z == n + n * (z - 1);
    }
    if z >= 4 {
      assert n * (z - 1) >= n * 3;
    }
  }

  /** As counted the other of codebooks 5 and 7 is cheaper. */
  lemma OtherIsCheaper(books: seq<CodeBook>, size: nat, len: nat, b: nat, own: nat)
    requires PairWords(books) && |books| == 11
    requires if b == 3 then own == 4 else b == 4 && (own <= 3 || own >= 6)
    ensures var best := BestBook(b);
      TwoPairsBits(books, 12 - best, size, len, CutPair(12 - best, own))
      < TwoPairsBits(books, best, size, len, CutPair(best, own))
  {
    hide PairWords, PairBits, BothBits;
    CommonBits(books, 5);
    CommonBits(books, 7);
    if b == 4 {
      FiveIsCheaper(books, own);
    }
  }

  // ---------- a group whose windows differ ----------

  ghost predicate InFrame(fmt: Format, ics: Ics, sfIdx: seq<int>, g: nat, w: nat, i: nat) {
    && ValidFormat(fmt) && ValidIcsFor(fmt, ics) && Apart(ics.groups, ics.maxSfb) && |sfIdx| == ENTRIES
    && g < |ics.groups| && 0 < w < ics.groups[g] && i < ics.maxSfb
    && 16 * (Windows(ics.groups, g) + w) + i < ENTRIES && 16 * Windows(ics.groups, g) + i < ENTRIES
  }

  /** The scalefactors of band i for window w and for the head of its group. */
  ghost function OwnScale(fmt: Format, ics: Ics, sfIdx: seq<int>, g: nat, w: nat, i: nat): int
    requires InFrame(fmt, ics, sfIdx, g, w, i)
  {
    sfIdx[16 * (Windows(ics.groups, g) + w) + i]
  }

  ghost function HeadScale(fmt: Format, ics: Ics, sfIdx: seq<int>, g: nat, w: nat, i: nat): int
    requires InFrame(fmt, ics, sfIdx, g, w, i)
  {
    sfIdx[16 * Windows(ics.groups, g) + i]
  }

  /** What the great coefficient is at the head's scalefactor, before and after rounding. */
  function Level(own: int, head: int): real {
    if own > head then 3.6 else if own == head - 1 then 3.5 else 4.5
  }

  function RoundedLevel(own: int, head: int): nat {
    if own == head - 1 then 3 else 4
  }

  /** Where band i starts in window v of group g. */
  ghost function PairAt(fmt: Format, ics: Ics, g: nat, v: nat, i: nat): nat
    requires g < |ics.groups| && i < |Offsets(fmt, ics)|
  {
    (Windows(ics.groups, g) + v) * WINDOW + Offsets(fmt, ics)[i]
  }

  /** Two coefficients in the first window of the group and one in window w, all others zero. */
  ghost function PairMags(fmt: Format, ics: Ics, gain: Gains, sfIdx: seq<int>, g: nat, w: nat, i: nat): nat -> real
    requires InFrame(fmt, ics, sfIdx, g, w, i) && Steps(gain)
  {
    var first, at, head := PairAt(fmt, ics, g, 0, i), PairAt(fmt, ics, g, w, i), HeadScale(fmt, ics, sfIdx, g, w, i);
    var level := Level(OwnScale(fmt, ics, sfIdx, g, w, i), head);
    (p: nat) =>
      if p == at + 1 then level / gain(head) else if first <= p < first + 2 then 1.0 / gain(head) else 0.0
  }

  /** What the great coefficient is at the scalefactor of its own window. */
  function OwnLevel(gain: Gains, own: int, head: int): int
    requires Steps(gain)
  {
    assert gain(head) > 0.0;
    RoundMag(Level(own, head) / gain(head), gain(own))
  }

  /** One step below the head's scalefactor 3 becomes 4; from two steps below 4 becomes at least 6,
      above it at most 3. */
  lemma OwnLevelIs(gain: Gains, own: int, head: int)
    requires Steps(gain) && own != head
    ensures if own > head then 0 <= OwnLevel(gain, own, head) <= 3
            else if own == head - 1 then OwnLevel(gain, own, head) == 4
            else OwnLevel(gain, own, head) >= 6
  {
    var x, a, b := Level(own, head), gain(head), gain(own);
    assert a > 0.0 && b > 0.0;
    if own > head {
      GainsFall(gain, head, own);
      Inverse(a, b);
      Regained(x, a, b, 1.0 / 1.13);
      assert x / a * b >= 0.0;
    } else if own == head - 1 {
      assert OneStep(gain(own), gain(own + 1));
      Regained(x, a, b, 1.13);
      Regained(x, a, b, 1.14);
    } else {
      assert OneStep(gain(own), gain(own + 1));
      GainsFall(gain, own + 1, head);
      Regained(x, a, b, 1.2769);
    }
  }

  lemma Inverse(a: real, b: real)
    requires 1.13 * b <= a
    ensures b <= 1.0 / 1.13 * a
  {
  }

  lemma HeadLevelIs(gain: Gains, own: int, head: int)
    requires Steps(gain)
    ensures gain(head) > 0.0 && RoundMag(1.0 / gain(head), gain(head)) == 1
    ensures RoundMag(Level(own, head) / gain(head), gain(head)) == RoundedLevel(own, head)
  {
    assert gain(head) > 0.0;
    TimesInverse(1.0, gain(head));
    TimesInverse(Level(own, head), gain(head));
  }

  // ---------- what the search makes of coefficients ----------

  /** The element that the search leaves for these coefficients, scalefactors and silent flags: the
      least codebook of every band is that of its greatest magnitude. */
  ghost function FoundElement(fmt: Format, ics: Ics, gain: Gains, sfIdx: seq<int>, zeroes: seq<bool>, mags: nat -> real)
    : (e: Element)
    requires ValidFormat(fmt) && ValidIcsFor(fmt, ics) && Steps(gain) && |sfIdx| == |zeroes| == ENTRIES
    ensures e.sfIdx == sfIdx && e.zeroes == zeroes && |e.bandType| == ENTRIES && |e.q| == COEFS
  {
    var lay := LayoutOf(fmt, ics);
    var bandType := seq(ENTRIES, a requires 0 <= a < ENTRIES => FoundBook(lay, gain, sfIdx, mags, a));
    Element(zeroes, bandType, sfIdx, Rounded(lay, zeroes, bandType, sfIdx, RoundOf(mags, gain)))
  }

  ghost function FoundBook(lay: Layout, gain: Gains, sfIdx: seq<int>, mags: nat -> real, a: nat): (cb: nat)
    requires |lay.offsets| == lay.maxSfb + 1 && a < |sfIdx| && Steps(gain)
    ensures cb < BOOKS
  {
    GainPositive(gain, sfIdx[a]);
    FindMinBook(GreatestMag(lay, mags, a, COEFS), gain(sfIdx[a]))
  }

  /** The frame, and scalefactors that the search may leave. */
  ghost predicate Searched(fmt: Format, ics: Ics, numSwb: nat, groupLen: seq<nat>, numWindows: nat, sfIdx: seq<int>) {
    && ValidFormat(fmt) && ShortTables(fmt.tables) && ValidIcs(ics) && ValidIcsFor(fmt, ics)
    && Apart(ics.groups, ics.maxSfb) && 0 < numSwb && ics.maxSfb <= numSwb && |sfIdx| == ENTRIES
    && Grouped(ics.groups, groupLen, numWindows)
    && Spread(Heads(ics.groups, numSwb, |ics.groups|), sfIdx)
    && Within(Heads(ics.groups, numSwb, |ics.groups|), sfIdx, 0, 255)
  }

  lemma FoundIsPrepared(fmt: Format, ics: Ics, numSwb: nat, groupLen: seq<nat>, numWindows: nat, gain: Gains,
                        sfIdx: seq<int>, zeroes: seq<bool>, mags: nat -> real)
    requires Searched(fmt, ics, numSwb, groupLen, numWindows, sfIdx) && Steps(gain) && |zeroes| == ENTRIES
    ensures ValidFormat(fmt) && ValidIcsFor(fmt, ics) && |sfIdx| == ENTRIES
    ensures Prepared(fmt, ics, FoundElement(fmt, ics, gain, sfIdx, zeroes, mags), numSwb)
  {
    hide Spread, Within, Quantised, ValidTables, ShortTables, Windows, Rounded, Grouped, FoundBook, Steps;
    var e := FoundElement(fmt, ics, gain, sfIdx, zeroes, mags);
    forall k | 0 <= k < |ics.groups| ensures LeastKnown(e.bandType, 16 * Windows(ics.groups, k), ics.maxSfb) {
      EntriesInRange(ics.groups, ics.maxSfb, k);
    }
    RoundedIsQuantised(fmt, ics, e.zeroes, e.bandType, sfIdx, RoundOf(mags, gain));
  }

  /** What is written is what was rounded, at most cut to the greatest escape. */
  lemma FoundIsWritten(fmt: Format, ics: Ics, gain: Gains, sfIdx: seq<int>, zeroes: seq<bool>, mags: nat -> real)
    requires ValidFormat(fmt) && ValidIcsFor(fmt, ics) && Steps(gain) && |sfIdx| == |zeroes| == ENTRIES
    ensures WrittenAtHeads(LayoutOf(fmt, ics), FoundElement(fmt, ics, gain, sfIdx, zeroes, mags), RoundOf(mags, gain))
  {
    hide ValidFormat, ValidIcsFor, HeadEntry, InTail, ValidLayout, FindMinBook, RoundMag, Rounded, LayoutOf;
    var lay, e := LayoutOf(fmt, ics), FoundElement(fmt, ics, gain, sfIdx, zeroes, mags);
    LayoutShape(fmt, ics);
    forall p | 0 <= p < COEFS && !InTail(lay, p) ensures LeastHolds(lay, e, RoundOf(mags, gain), p) {
      var a := HeadEntry(lay, p);
      if a < ENTRIES {
        GainPositive(gain, sfIdx[a]);
        assert Mag(mags(p)) <= GreatestMag(lay, mags, a, COEFS);
        MinBookHolds(Mag(mags(p)), GreatestMag(lay, mags, a, COEFS), gain(sfIdx[a]));
        assert e.bandType[a] == FoundBook(lay, gain, sfIdx, mags, a);
      }
    }
    HeldIsWritten(lay, e, RoundOf(mags, gain));
  }

  // ---------- the band with the two pairs ----------

  /** Bands are multiples of four wide. */
  lemma WidthOfBand(fmt: Format, ics: Ics, i: nat)
    requires ValidFormat(fmt) && ValidIcsFor(fmt, ics) && i < ics.maxSfb
    ensures i + 1 < |Offsets(fmt, ics)| && (Offsets(fmt, ics)[i + 1] - Offsets(fmt, ics)[i]) % 4 == 0
    ensures Offsets(fmt, ics)[i] + 4 <= Offsets(fmt, ics)[i + 1] <= if IsShort(ics) then WINDOW else COEFS
  {
    hide ValidTables, Windows;
    var a, b := Offsets(fmt, ics)[i], Offsets(fmt, ics)[i + 1];
    assert a < b && a % 4 == 0 && b % 4 == 0;
  }

  lemma WindowsThere(fmt: Format, ics: Ics, g: nat, v: nat)
    requires ValidIcsFor(fmt, ics) && g < |ics.groups| && v < ics.groups[g]
    ensures Windows(ics.groups, g) + v < if IsShort(ics) then 8 else 1
  {
    WindowsMonotone(ics.groups, g + 1, |ics.groups|);
  }

  lemma BandSize(fmt: Format, ics: Ics, sfIdx: seq<int>, g: nat, w: nat, i: nat, v: nat)
    requires InFrame(fmt, ics, sfIdx, g, w, i) && v < ics.groups[g]
    ensures i + 1 < |Offsets(fmt, ics)| && (Offsets(fmt, ics)[i + 1] - Offsets(fmt, ics)[i]) % 4 == 0
    ensures Offsets(fmt, ics)[i] + 4 <= Offsets(fmt, ics)[i + 1]
    ensures Offsets(fmt, ics)[i + 1] <= WINDOW
    ensures (Windows(ics.groups, g) + v) * WINDOW + Offsets(fmt, ics)[i + 1] <= COEFS
  {
    hide ValidFormat, ValidIcsFor, Apart, Windows, Offsets;
    WidthOfBand(fmt, ics, i);
    WindowsThere(fmt, ics, g, v);
    WindowsThere(fmt, ics, g, w);
  }

  ghost function OnlyHead(ics: Ics, g: nat, i: nat): (zeroes: seq<bool>)
    requires g < |ics.groups|
    ensures |zeroes| == ENTRIES
    ensures forall a :: 0 <= a < ENTRIES ==> zeroes[a] == (a != 16 * Windows(ics.groups, g) + i)
  {
    seq(ENTRIES, a => a != 16 * Windows(ics.groups, g) + i)
  }

  /** The element: this band is the only one in use. */
  ghost function PairElement(fmt: Format, ics: Ics, gain: Gains, sfIdx: seq<int>, g: nat, w: nat, i: nat): (e: Element)
    requires InFrame(fmt, ics, sfIdx, g, w, i) && Steps(gain)
    ensures e.sfIdx == sfIdx && |e.zeroes| == |e.bandType| == ENTRIES && |e.q| == COEFS
    ensures e.zeroes == OnlyHead(ics, g, i)
  {
    FoundElement(fmt, ics, gain, sfIdx, OnlyHead(ics, g, i), PairMags(fmt, ics, gain, sfIdx, g, w, i))
  }

  ghost function PairValue(fmt: Format, ics: Ics, gain: Gains, sfIdx: seq<int>, g: nat, w: nat, i: nat): Value
    requires InFrame(fmt, ics, sfIdx, g, w, i) && Steps(gain)
  {
    RoundOf(PairMags(fmt, ics, gain, sfIdx, g, w, i), gain)
  }

  /** Coefficient k of the band in window v. */
  function PairPart<T>(v: nat, w: nat, k: nat, one: T, great: T, none: T): T {
    if v == 0 && k < 2 then one else if v == w && k == 1 then great else none
  }

  lemma PairMagAt(fmt: Format, ics: Ics, gain: Gains, sfIdx: seq<int>, g: nat, w: nat, i: nat, v: nat, k: nat)
    requires InFrame(fmt, ics, sfIdx, g, w, i) && Steps(gain) && v < ics.groups[g] && i + 1 < |Offsets(fmt, ics)|
    requires Offsets(fmt, ics)[i] + k < Offsets(fmt, ics)[i + 1]
    ensures var head := HeadScale(fmt, ics, sfIdx, g, w, i);
      gain(head) > 0.0 &&
      PairMags(fmt, ics, gain, sfIdx, g, w, i)(PairAt(fmt, ics, g, v, i) + k)
      == PairPart(v, w, k, 1.0 / gain(head), Level(OwnScale(fmt, ics, sfIdx, g, w, i), head) / gain(head), 0.0)
  {
    hide ValidFormat, ValidIcsFor, Apart, Windows;
    GainPositive(gain, HeadScale(fmt, ics, sfIdx, g, w, i));
    BandSize(fmt, ics, sfIdx, g, w, i, v);
  }

  lemma NoneIsZero(g: real)
    requires g > 0.0
    ensures RoundMag(0.0, g) == 0
  {
    assert 0.0 * g == 0.0;
  }

  /** At the head's scalefactor. */
  lemma PairAtHead(fmt: Format, ics: Ics, gain: Gains, sfIdx: seq<int>, g: nat, w: nat, i: nat, v: nat, k: nat)
    requires InFrame(fmt, ics, sfIdx, g, w, i) && Steps(gain) && v < ics.groups[g] && i + 1 < |Offsets(fmt, ics)|
    requires Offsets(fmt, ics)[i] + k < Offsets(fmt, ics)[i + 1]
    ensures var own, head := OwnScale(fmt, ics, sfIdx, g, w, i), HeadScale(fmt, ics, sfIdx, g, w, i);
      PairValue(fmt, ics, gain, sfIdx, g, w, i)(PairAt(fmt, ics, g, v, i) + k, head)
      == PairPart(v, w, k, 1, RoundedLevel(own, head), 0)
  {
    hide PairMags, InFrame, Level, Steps, RoundMag, OwnScale, HeadScale, PairAt;
    var own, head := OwnScale(fmt, ics, sfIdx, g, w, i), HeadScale(fmt, ics, sfIdx, g, w, i);
    PairMagAt(fmt, ics, gain, sfIdx, g, w, i, v, k);
    HeadLevelIs(gain, own, head);
    NoneIsZero(gain(head));
    LevelPositive(own, head, gain(head));
  }

  lemma LevelPositive(own: int, head: int, g: real)
    requires g > 0.0
    ensures Level(own, head) / g >= 1.0 / g > 0.0
  {
    var x := Level(own, head);
    assert x / g - 1.0 / g == (x - 1.0) / g;
  }

  /** At the scalefactor of the window. */
  lemma PairAtOwn(fmt: Format, ics: Ics, gain: Gains, sfIdx: seq<int>, g: nat, w: nat, i: nat, v: nat, k: nat)
    requires InFrame(fmt, ics, sfIdx, g, w, i) && Steps(gain) && v < ics.groups[g] && i + 1 < |Offsets(fmt, ics)|
    requires Offsets(fmt, ics)[i] + k < Offsets(fmt, ics)[i + 1]
    requires 16 * (Windows(ics.groups, g) + v) + i < ENTRIES == |sfIdx|
    ensures var own, head := OwnScale(fmt, ics, sfIdx, g, w, i), HeadScale(fmt, ics, sfIdx, g, w, i);
      PairValue(fmt, ics, gain, sfIdx, g, w, i)(PairAt(fmt, ics, g, v, i) + k,
                                                sfIdx[16 * (Windows(ics.groups, g) + v) + i])
      == PairPart(v, w, k, 1, OwnLevel(gain, own, head), 0)
  {
    hide PairMags, ValidFormat, ValidIcsFor, Apart, Windows, Level, Steps, RoundMag, PairAt;
    var own, head := OwnScale(fmt, ics, sfIdx, g, w, i), HeadScale(fmt, ics, sfIdx, g, w, i);
    var sf := sfIdx[16 * (Windows(ics.groups, g) + v) + i];
    PairMagAt(fmt, ics, gain, sfIdx, g, w, i, v, k);
    HeadLevelIs(gain, own, head);
    GainPositive(gain, sf);
    NoneIsZero(gain(sf));
    LevelPositive(own, head, gain(head));
  }

  /** The least codebook of the band is 5. */
  lemma PairBookIsFive(fmt: Format, ics: Ics, gain: Gains, sfIdx: seq<int>, g: nat, w: nat, i: nat)
    requires InFrame(fmt, ics, sfIdx, g, w, i) && Steps(gain)
    ensures PairElement(fmt, ics, gain, sfIdx, g, w, i).bandType[16 * Windows(ics.groups, g) + i] == 5
  {
    hide ValidFormat, ValidIcsFor, Apart, Windows, Level, Steps, RoundMag, HeadEntry, InTail, PairAt, LayoutOf;
    var own, head := OwnScale(fmt, ics, sfIdx, g, w, i), HeadScale(fmt, ics, sfIdx, g, w, i);
    var lay, mags := LayoutOf(fmt, ics), PairMags(fmt, ics, gain, sfIdx, g, w, i);
    var a := 16 * Windows(ics.groups, g) + i;
    LayoutShape(fmt, ics);
    BandSize(fmt, ics, sfIdx, g, w, i, w);
    PairPlace(fmt, ics, sfIdx, g, w, i, w, 1);
    PairMagAt(fmt, ics, gain, sfIdx, g, w, i, w, 1);
    LevelPositive(own, head, gain(head));
    HeadLevelIs(gain, own, head);
    var m := GreatestMag(lay, mags, a, COEFS);
    var p := PairAt(fmt, ics, g, w, i) + 1;
    assert Mag(mags(p)) <= m;
    assert m == Level(own, head) / gain(head);
  }

  /** Where the coefficients are. */
  lemma PairPlace(fmt: Format, ics: Ics, sfIdx: seq<int>, g: nat, w: nat, i: nat, v: nat, k: nat)
    requires InFrame(fmt, ics, sfIdx, g, w, i) && v < ics.groups[g] && i + 1 < |Offsets(fmt, ics)|
    requires Offsets(fmt, ics)[i] + k < Offsets(fmt, ics)[i + 1]
    ensures var p, lay := PairAt(fmt, ics, g, v, i) + k, LayoutOf(fmt, ics);
      && p < COEFS && |lay.offsets| == lay.maxSfb + 1 && !InTail(lay, p)
      && HeadEntry(lay, p) == 16 * Windows(ics.groups, g) + i
      && OwnEntry(IsShort(ics), Offsets(fmt, ics), p) == 16 * (Windows(ics.groups, g) + v) + i
  {
    hide ValidTables, HeadEntry, OwnEntry, InTail, Windows, LayoutOf, ValidOffsets, Apart;
    LayoutShape(fmt, ics);
    PlaceOf(fmt, ics, g, v, i, Offsets(fmt, ics)[i] + k);
  }

  /** As window v of the group holds it. */
  lemma PairInWindow(q: seq<int>, first: nat, v: nat, w: nat, offset: nat, size: nat, b: nat)
    requires size >= 4 && (first + v) * WINDOW + offset + size <= |q| && w > 0
    requires var at := (first + v) * WINDOW + offset;
      forall p :: at <= p < at + size ==> q[p] == PairPart(v, w, p - at, 1, b, 0)
    ensures OneWindow(q, first, offset, size, w, b, v)
  {
    var at := (first + v) * WINDOW + offset;
    var part, r := q[at..at + size], PairFirst(size, Left(v), Right(w, b, v));
    forall k | 0 <= k < size ensures part[k] == r[k] {
      assert part[k] == q[at + k];
    }
  }

  /** The spectrum that is written. */
  lemma PairIsWritten(fmt: Format, ics: Ics, gain: Gains, sfIdx: seq<int>, g: nat, w: nat, i: nat)
    requires InFrame(fmt, ics, sfIdx, g, w, i) && Steps(gain)
    ensures i + 1 < |Offsets(fmt, ics)| && Offsets(fmt, ics)[i] <= Offsets(fmt, ics)[i + 1]
    ensures var b := RoundedLevel(OwnScale(fmt, ics, sfIdx, g, w, i), HeadScale(fmt, ics, sfIdx, g, w, i));
      TwoPairs(PairElement(fmt, ics, gain, sfIdx, g, w, i).q, Windows(ics.groups, g), Offsets(fmt, ics)[i],
               Offsets(fmt, ics)[i + 1] - Offsets(fmt, ics)[i], ics.groups[g], w, b)
  {
    hide ValidFormat, ValidIcsFor, PairElement, Windows, OneWindow, Apart, OwnScale, HeadScale, PairPart;
    var offsets, first, q := Offsets(fmt, ics), Windows(ics.groups, g), PairElement(fmt, ics, gain, sfIdx, g, w, i).q;
    var b := RoundedLevel(OwnScale(fmt, ics, sfIdx, g, w, i), HeadScale(fmt, ics, sfIdx, g, w, i));
    BandSize(fmt, ics, sfIdx, g, w, i, w);
    var low, size := offsets[i], offsets[i + 1] - offsets[i];
    forall v | 0 <= v < ics.groups[g] ensures OneWindow(q, first, low, size, w, b, v) {
      BandSize(fmt, ics, sfIdx, g, w, i, v);
      var at := (first + v) * WINDOW + low;
      forall p | at <= p < at + size ensures q[p] == PairPart(v, w, p - at, 1, b, 0) {
        PairRounded(fmt, ics, gain, sfIdx, g, w, i, v, p - at);
      }
      PairInWindow(q, first, v, w, low, size, b);
    }
  }

  lemma PairRounded(fmt: Format, ics: Ics, gain: Gains, sfIdx: seq<int>, g: nat, w: nat, i: nat, v: nat, k: nat)
    requires InFrame(fmt, ics, sfIdx, g, w, i) && Steps(gain) && v < ics.groups[g] && i + 1 < |Offsets(fmt, ics)|
    requires Offsets(fmt, ics)[i] + k < Offsets(fmt, ics)[i + 1]
    ensures var b := RoundedLevel(OwnScale(fmt, ics, sfIdx, g, w, i), HeadScale(fmt, ics, sfIdx, g, w, i));
      var p := PairAt(fmt, ics, g, v, i) + k;
      p < COEFS && PairElement(fmt, ics, gain, sfIdx, g, w, i).q[p] == PairPart(v, w, k, 1, b, 0)
  {
    hide ValidFormat, ValidIcsFor, Apart, Windows, HeadEntry, InTail, PairMags, LayoutOf, Steps, RoundedLevel, RoundOf,
      FoundBook, PairAt;
    PairPlace(fmt, ics, sfIdx, g, w, i, v, k);
    PairAtHead(fmt, ics, gain, sfIdx, g, w, i, v, k);
    PairBookIsFive(fmt, ics, gain, sfIdx, g, w, i);
    SmallLevel(OwnScale(fmt, ics, sfIdx, g, w, i), HeadScale(fmt, ics, sfIdx, g, w, i));
  }

  lemma SmallLevel(own: int, head: int)
    ensures 3 <= RoundedLevel(own, head) <= 4
  {
  }

  ghost function CountedSpectra(fmt: Format, ics: Ics, gain: Gains, sfIdx: seq<int>, g: nat, w: nat, i: nat)
    : nat -> seq<int>
    requires InFrame(fmt, ics, sfIdx, g, w, i) && Steps(gain)
  {
    Counted(IsShort(ics), Offsets(fmt, ics), sfIdx, PairValue(fmt, ics, gain, sfIdx, g, w, i))
  }

  /** The great coefficient as it is counted. */
  ghost function CountedLevel(fmt: Format, ics: Ics, gain: Gains, sfIdx: seq<int>, g: nat, w: nat, i: nat): nat
    requires InFrame(fmt, ics, sfIdx, g, w, i) && Steps(gain)
  {
    var q := OwnLevel(gain, OwnScale(fmt, ics, sfIdx, g, w, i), HeadScale(fmt, ics, sfIdx, g, w, i));
    if q < 0 then 0 else q
  }

  lemma CountedLevelIs(fmt: Format, ics: Ics, gain: Gains, sfIdx: seq<int>, g: nat, w: nat, i: nat)
    requires InFrame(fmt, ics, sfIdx, g, w, i) && Steps(gain)
    ensures CountedLevel(fmt, ics, gain, sfIdx, g, w, i)
         == OwnLevel(gain, OwnScale(fmt, ics, sfIdx, g, w, i), HeadScale(fmt, ics, sfIdx, g, w, i))
  {
    hide InFrame, OwnScale, HeadScale, Steps, Level, RoundMag;
    var own, head := OwnScale(fmt, ics, sfIdx, g, w, i), HeadScale(fmt, ics, sfIdx, g, w, i);
    GainPositive(gain, own);
    GainPositive(gain, head);
    LevelPositive(own, head, gain(head));
  }

  lemma PairCut(fmt: Format, ics: Ics, gain: Gains, sfIdx: seq<int>, g: nat, w: nat, i: nat, cb: nat, v: nat, k: nat)
    requires InFrame(fmt, ics, sfIdx, g, w, i) && Steps(gain) && v < ics.groups[g] && i + 1 < |Offsets(fmt, ics)|
    requires Offsets(fmt, ics)[i] + k < Offsets(fmt, ics)[i + 1] && 5 <= cb <= 11
    ensures var b, q := CutPair(cb, CountedLevel(fmt, ics, gain, sfIdx, g, w, i)),
          CountedSpectra(fmt, ics, gain, sfIdx, g, w, i)(cb);
      var p := PairAt(fmt, ics, g, v, i) + k;
      p < |q| == COEFS && q[p] == PairPart(v, w, k, 1, b, 0)
  {
    hide ValidFormat, ValidIcsFor, Apart, Windows, OwnEntry, HeadEntry, InTail, PairValue, LayoutOf, Steps, OwnLevel,
      PairAt, OwnScale, HeadScale, CountedLevel, Counted;
    PairPlace(fmt, ics, sfIdx, g, w, i, v, k);
    WindowEntry(ics.groups, ics.maxSfb, g, v, i);
    PairAtOwn(fmt, ics, gain, sfIdx, g, w, i, v, k);
    CountedLevelIs(fmt, ics, gain, sfIdx, g, w, i);
    CountedAt(IsShort(ics), Offsets(fmt, ics), sfIdx, PairValue(fmt, ics, gain, sfIdx, g, w, i), cb,
              PairAt(fmt, ics, g, v, i) + k);
  }

  lemma WindowEntry(groups: seq<nat>, maxSfb: nat, g: nat, v: nat, i: nat)
    requires Apart(groups, maxSfb) && g < |groups| && v < groups[g] && i < maxSfb
    ensures 16 * (Windows(groups, g) + v) + i < ENTRIES
  {
    WindowsMonotone(groups, g + 1, |groups|);
    assert Windows(groups, 0) == 0;
  }

  /** The spectrum that is counted. */
  lemma PairIsCounted(fmt: Format, ics: Ics, gain: Gains, sfIdx: seq<int>, g: nat, w: nat, i: nat, cb: nat)
    requires InFrame(fmt, ics, sfIdx, g, w, i) && Steps(gain) && 5 <= cb <= 11
    ensures i + 1 < |Offsets(fmt, ics)| && Offsets(fmt, ics)[i] <= Offsets(fmt, ics)[i + 1]
    ensures TwoPairs(CountedSpectra(fmt, ics, gain, sfIdx, g, w, i)(cb), Windows(ics.groups, g), Offsets(fmt, ics)[i],
                     Offsets(fmt, ics)[i + 1] - Offsets(fmt, ics)[i], ics.groups[g], w,
                     CutPair(cb, CountedLevel(fmt, ics, gain, sfIdx, g, w, i)))
  {
    hide ValidFormat, ValidIcsFor, CountedSpectra, CountedLevel, Windows, OneWindow, Apart, PairPart, CutPair;
    var offsets, first := Offsets(fmt, ics), Windows(ics.groups, g);
    var q := CountedSpectra(fmt, ics, gain, sfIdx, g, w, i)(cb);
    var b := CutPair(cb, CountedLevel(fmt, ics, gain, sfIdx, g, w, i));
    BandSize(fmt, ics, sfIdx, g, w, i, w);
    var low, size := offsets[i], offsets[i + 1] - offsets[i];
    forall v | 0 <= v < ics.groups[g] ensures OneWindow(q, first, low, size, w, b, v) {
      BandSize(fmt, ics, sfIdx, g, w, i, v);
      var at := (first + v) * WINDOW + low;
      PairCut(fmt, ics, gain, sfIdx, g, w, i, cb, v, 0);
      forall p | at <= p < at + size ensures q[p] == PairPart(v, w, p - at, 1, b, 0) {
        PairCut(fmt, ics, gain, sfIdx, g, w, i, cb, v, p - at);
      }
      PairInWindow(q, first, v, w, low, size, b);
    }
  }

  // ---------- the trellis chooses what is dearer ----------

  /** The bands of its group. */
  lemma PairBands(fmt: Format, ics: Ics, gain: Gains, sfIdx: seq<int>, g: nat, w: nat, i: nat, spends: Spends, cb: nat)
    requires InFrame(fmt, ics, sfIdx, g, w, i) && Steps(gain) && 5 <= cb <= 11
    requires 16 * Windows(ics.groups, g) + ics.maxSfb <= ENTRIES
    ensures var e := PairElement(fmt, ics, gain, sfIdx, g, w, i);
      var bands := GroupBands(e.zeroes, e.bandType, ics.groups, ics.maxSfb, spends, g);
      && OnlyBand(bands, i) && Allowed(bands[i], cb) && bands[i].minBook == 5
      && Spend(bands[i], cb) == spends(Windows(ics.groups, g))(i, cb)
  {
    hide ValidFormat, ValidIcsFor, Windows, Apart, Rounded, PairMags, LayoutOf, Steps, RoundOf, GreatestMag,
      FindMinBook;
    PairBookIsFive(fmt, ics, gain, sfIdx, g, w, i);
  }

  /** What codebook cb spends on it. */
  lemma PairSpend(fmt: Format, ics: Ics, groupLen: seq<nat>, numWindows: nat, gain: Gains, sfIdx: seq<int>, g: nat,
                  w: nat, i: nat, counted: nat -> seq<int>, b: nat, cb: nat)
    requires InFrame(fmt, ics, sfIdx, g, w, i) && Steps(gain) && Grouped(ics.groups, groupLen, numWindows)
    requires |fmt.tables.books| == 11 && 16 * Windows(ics.groups, g) + ics.maxSfb <= ENTRIES && 5 <= cb <= 11
    requires i + 1 < |Offsets(fmt, ics)| && Offsets(fmt, ics)[i] <= Offsets(fmt, ics)[i + 1]
    requires TwoPairs(counted(cb), Windows(ics.groups, g), Offsets(fmt, ics)[i],
                      Offsets(fmt, ics)[i + 1] - Offsets(fmt, ics)[i], ics.groups[g], w, b)
    ensures var e, offsets := PairElement(fmt, ics, gain, sfIdx, g, w, i), Offsets(fmt, ics);
      var bands := GroupBands(e.zeroes, e.bandType, ics.groups, ics.maxSfb,
                              SpendsOf(fmt.tables, counted, offsets, groupLen), g);
      && OnlyBand(bands, i) && Allowed(bands[i], cb) && bands[i].minBook == 5
      && Spend(bands[i], cb) == TwoPairsBits(fmt.tables.books, cb, offsets[i + 1] - offsets[i], ics.groups[g], b)
  {
    hide ValidFormat, ValidIcsFor, Windows, Apart, WindowsCost, TwoPairsBits, TwoPairs, PairElement, Grouped, Steps,
      GroupBands, Spend, OnlyBand, SpendsOf;
    var offsets := Offsets(fmt, ics);
    BandSize(fmt, ics, sfIdx, g, w, i, w);
    GroupAt(ics.groups, groupLen, numWindows, g);
    SpendsAt(fmt.tables, counted, offsets, groupLen, Windows(ics.groups, g), i, cb);
    PairBands(fmt, ics, gain, sfIdx, g, w, i, SpendsOf(fmt.tables, counted, offsets, groupLen), cb);
    TwoPairsCost(fmt.tables, cb, counted(cb), Windows(ics.groups, g), offsets[i], offsets[i + 1] - offsets[i],
                 ics.groups[g], w, b);
  }

  /** Written, codebook best is the cheapest; counted, codebook other is cheaper. */
  ghost predicate Misjudged(counted: Band, written: Band, best: nat, other: nat) {
    && ValidBand(counted) && ValidBand(written) && !counted.zero && counted.minBook == 5
    && 5 <= best < BOOKS && 5 <= other < BOOKS && Spend(counted, other) < Spend(counted, best)
    && forall cb :: 5 <= cb < BOOKS && cb != best ==> Spend(written, best) < Spend(written, cb)
  }

  ghost predicate SameChoices(a: seq<Band>, b: seq<Band>) {
    |a| == |b| && forall j :: 0 <= j < |a| ==> a[j].zero == b[j].zero && a[j].minBook == b[j].minBook
  }

  lemma SameTiles(a: seq<Band>, b: seq<Band>, ss: seq<Section>)
    requires SameChoices(a, b) && Tiles(a, ss, |a|)
    ensures Tiles(b, ss, |b|)
  {
    hide Books, Covered;
    forall j | 0 <= j < |Books(ss)| ensures Books(ss)[j] < BOOKS && Allowed(b[j], Books(ss)[j]) {
      assert Allowed(a[j], Books(ss)[j]);
    }
  }

  /** The sections chosen on the counted bits are not the cheapest on the written ones. */
  lemma ChosenIsDear(short: bool, counted: seq<Band>, written: seq<Band>, i: nat, best: nat, other: nat)
    requires OnlyBand(counted, i) && OnlyBand(written, i) && SameChoices(counted, written)
    requires Misjudged(counted[i], written[i], best, other) && Affordable(short, counted) && |counted| < RunEsc(short)
    ensures var ss, n := Chosen(short, counted), |written|;
      && Tiles(written, ss, n) && i < Covered(ss) && Tiles(written, Rebook(ss, i, best), n)
      && Tiles(counted, Rebook(ss, i, best), n)
      && Written(short, written, Rebook(ss, i, best)) < Written(short, written, ss)
  {
    hide Chosen, Rebook, Written, Affordable, Tiles, Books, Spend;
    var ss := Chosen(short, counted);
    ChosenTiles(short, counted);
    TilesCover(counted, ss, i);
    RebookWritten(short, counted, ss, i, other);
    RebookWritten(short, counted, ss, i, best);
    ChosenIsOptimal(short, counted, Rebook(ss, i, other));
    SameTiles(counted, written, ss);
    RebookWritten(short, written, ss, i, best);
  }

  lemma TilesCover(bands: seq<Band>, ss: seq<Section>, i: nat)
    requires Tiles(bands, ss, |bands|) && i < |bands|
    ensures i < Covered(ss) == |bands|
  {
  }

  /** The scalefactors of window w and of the head of its group differ in band i. */
  ghost predicate Differs(fmt: Format, ics: Ics, sfIdx: seq<int>, g: nat, w: nat, i: nat) {
    InFrame(fmt, ics, sfIdx, g, w, i) && OwnScale(fmt, ics, sfIdx, g, w, i) != HeadScale(fmt, ics, sfIdx, g, w, i)
  }

  /** Codebook 7, or 5 when the window's scalefactor is one below the head's. */
  ghost function PairBest(fmt: Format, ics: Ics, sfIdx: seq<int>, g: nat, w: nat, i: nat): (best: nat)
    requires InFrame(fmt, ics, sfIdx, g, w, i)
    ensures best == 5 || best == 7
  {
    BestBook(RoundedLevel(OwnScale(fmt, ics, sfIdx, g, w, i), HeadScale(fmt, ics, sfIdx, g, w, i)))
  }

  /** The band as it is counted. */
  ghost function CountedBand(fmt: Format, ics: Ics, groupLen: seq<nat>, gain: Gains, sfIdx: seq<int>, g: nat, w: nat,
                             i: nat): Band
    requires InFrame(fmt, ics, sfIdx, g, w, i) && Steps(gain) && |fmt.tables.books| == 11
    requires 16 * Windows(ics.groups, g) + ics.maxSfb <= ENTRIES
  {
    var e := PairElement(fmt, ics, gain, sfIdx, g, w, i);
    GroupBands(e.zeroes, e.bandType, ics.groups, ics.maxSfb,
               SpendsOf(fmt.tables, CountedSpectra(fmt, ics, gain, sfIdx, g, w, i), Offsets(fmt, ics), groupLen), g)[i]
  }

  /** The band as it is written. */
  ghost function WrittenBand(fmt: Format, ics: Ics, groupLen: seq<nat>, gain: Gains, sfIdx: seq<int>, g: nat, w: nat,
                             i: nat): Band
    requires InFrame(fmt, ics, sfIdx, g, w, i) && Steps(gain) && |fmt.tables.books| == 11
    requires 16 * Windows(ics.groups, g) + ics.maxSfb <= ENTRIES
  {
    var e := PairElement(fmt, ics, gain, sfIdx, g, w, i);
    GroupBands(e.zeroes, e.bandType, ics.groups, ics.maxSfb,
               SpendsOf(fmt.tables, (cb: nat) => e.q, Offsets(fmt, ics), groupLen), g)[i]
  }

  /** What codebook cb spends on the counted band. */
  lemma CountedSpend(fmt: Format, ics: Ics, groupLen: seq<nat>, numWindows: nat, gain: Gains, sfIdx: seq<int>, g: nat,
                     w: nat, i: nat, cb: nat)
    requires InFrame(fmt, ics, sfIdx, g, w, i) && Steps(gain) && Grouped(ics.groups, groupLen, numWindows)
    requires |fmt.tables.books| == 11 && 5 <= cb <= 11 && 16 * Windows(ics.groups, g) + ics.maxSfb <= ENTRIES
    ensures var band := CountedBand(fmt, ics, groupLen, gain, sfIdx, g, w, i);
      ValidBand(band) && !band.zero && band.minBook == 5
    ensures var offsets := Offsets(fmt, ics);
      && i + 1 < |offsets| && offsets[i] + 4 <= offsets[i + 1]
      && Spend(CountedBand(fmt, ics, groupLen, gain, sfIdx, g, w, i), cb)
         == TwoPairsBits(fmt.tables.books, cb, offsets[i + 1] - offsets[i], ics.groups[g],
                         CutPair(cb, CountedLevel(fmt, ics, gain, sfIdx, g, w, i)))
  {
    hide Windows, TwoPairsBits, PairElement, InFrame, GroupBands, Spend, SpendsOf, CountedSpectra, CountedLevel,
      Grouped,
      CutPair, TwoPairs, Steps;
    PairFrame(fmt, ics, sfIdx, g, w, i);
    PairIsCounted(fmt, ics, gain, sfIdx, g, w, i, cb);
    PairSpend(fmt, ics, groupLen, numWindows, gain, sfIdx, g, w, i, CountedSpectra(fmt, ics, gain, sfIdx, g, w, i),
              CutPair(cb, CountedLevel(fmt, ics, gain, sfIdx, g, w, i)), cb);
  }

  lemma PairFrame(fmt: Format, ics: Ics, sfIdx: seq<int>, g: nat, w: nat, i: nat)
    requires InFrame(fmt, ics, sfIdx, g, w, i)
    ensures ValidFormat(fmt) && ValidIcsFor(fmt, ics) && g < |ics.groups| && 0 < w < ics.groups[g] && i < ics.maxSfb
    ensures i + 1 < |Offsets(fmt, ics)| && Offsets(fmt, ics)[i] + 4 <= Offsets(fmt, ics)[i + 1]
  {
    hide ValidFormat, ValidIcsFor, Windows, Apart;
    BandSize(fmt, ics, sfIdx, g, w, i, w);
  }

  /** What codebook cb spends on the written band. */
  lemma WrittenSpend(fmt: Format, ics: Ics, groupLen: seq<nat>, numWindows: nat, gain: Gains, sfIdx: seq<int>, g: nat,
                     w: nat, i: nat, cb: nat)
    requires InFrame(fmt, ics, sfIdx, g, w, i) && Steps(gain) && Grouped(ics.groups, groupLen, numWindows)
    requires |fmt.tables.books| == 11 && 5 <= cb <= 11 && 16 * Windows(ics.groups, g) + ics.maxSfb <= ENTRIES
    ensures ValidBand(WrittenBand(fmt, ics, groupLen, gain, sfIdx, g, w, i))
    ensures var offsets := Offsets(fmt, ics);
      && i + 1 < |offsets| && offsets[i] + 4 <= offsets[i + 1]
      && Spend(WrittenBand(fmt, ics, groupLen, gain, sfIdx, g, w, i), cb)
         == TwoPairsBits(fmt.tables.books, cb, offsets[i + 1] - offsets[i], ics.groups[g],
                         RoundedLevel(OwnScale(fmt, ics, sfIdx, g, w, i), HeadScale(fmt, ics, sfIdx, g, w, i)))
  {
    hide Windows, TwoPairsBits, PairElement, InFrame, GroupBands, Spend, SpendsOf, Grouped, TwoPairs, RoundedLevel,
      OwnScale, HeadScale, Steps;
    PairFrame(fmt, ics, sfIdx, g, w, i);
    PairIsWritten(fmt, ics, gain, sfIdx, g, w, i);
    PairSpend(fmt, ics, groupLen, numWindows, gain, sfIdx, g, w, i,
              (cb: nat) => PairElement(fmt, ics, gain, sfIdx, g, w, i).q,
              RoundedLevel(OwnScale(fmt, ics, sfIdx, g, w, i), HeadScale(fmt, ics, sfIdx, g, w, i)), cb);
  }

  /** In the group's list the band is misjudged. */
  lemma PairIsMisjudged(fmt: Format, ics: Ics, groupLen: seq<nat>, numWindows: nat, gain: Gains, sfIdx: seq<int>,
                        g: nat, w: nat, i: nat)
    requires Differs(fmt, ics, sfIdx, g, w, i) && Steps(gain) && Grouped(ics.groups, groupLen, numWindows)
    requires |fmt.tables.books| == 11 && PairWords(fmt.tables.books)
    requires 16 * Windows(ics.groups, g) + ics.maxSfb <= ENTRIES
    ensures var best := PairBest(fmt, ics, sfIdx, g, w, i);
      Misjudged(CountedBand(fmt, ics, groupLen, gain, sfIdx, g, w, i),
                WrittenBand(fmt, ics, groupLen, gain, sfIdx, g, w, i), best, 12 - best)
  {
    hide Windows, TwoPairsBits, InFrame, CountedBand, WrittenBand, Spend, PairWords, Grouped, OwnScale, HeadScale,
      CountedLevel, Steps, OwnLevel, CutPair;
    PairFrame(fmt, ics, sfIdx, g, w, i);
    var own, head := OwnScale(fmt, ics, sfIdx, g, w, i), HeadScale(fmt, ics, sfIdx, g, w, i);
    var books, b, best := fmt.tables.books, RoundedLevel(own, head), PairBest(fmt, ics, sfIdx, g, w, i);
    var size, len := Offsets(fmt, ics)[i + 1] - Offsets(fmt, ics)[i], ics.groups[g];
    CountedSpend(fmt, ics, groupLen, numWindows, gain, sfIdx, g, w, i, 5);
    CountedSpend(fmt, ics, groupLen, numWindows, gain, sfIdx, g, w, i, 7);
    OwnLevelIs(gain, own, head);
    CountedLevelIs(fmt, ics, gain, sfIdx, g, w, i);
    OtherIsCheaper(books, size, len, b, CountedLevel(fmt, ics, gain, sfIdx, g, w, i));
    var written := WrittenBand(fmt, ics, groupLen, gain, sfIdx, g, w, i);
    WrittenSpend(fmt, ics, groupLen, numWindows, gain, sfIdx, g, w, i, best);
    forall cb | 5 <= cb < BOOKS && cb != best ensures Spend(written, best) < Spend(written, cb) {
      WrittenSpend(fmt, ics, groupLen, numWindows, gain, sfIdx, g, w, i, cb);
      BestIsCheaper(books, cb, size, len, b);
    }
  }

  /** It is the only band in use. */
  lemma PairIsOnly(fmt: Format, ics: Ics, gain: Gains, sfIdx: seq<int>, g: nat, w: nat, i: nat, spends: Spends)
    requires InFrame(fmt, ics, sfIdx, g, w, i) && Steps(gain) && 16 * Windows(ics.groups, g) + ics.maxSfb <= ENTRIES
    ensures var e := PairElement(fmt, ics, gain, sfIdx, g, w, i);
      OnlyBand(GroupBands(e.zeroes, e.bandType, ics.groups, ics.maxSfb, spends, g), i)
  {
    hide *;
    PairBands(fmt, ics, gain, sfIdx, g, w, i, spends, 5);
  }

  lemma SameGroupChoices(ics: Ics, e: Element, g: nat, a: Spends, b: Spends)
    requires g < |ics.groups| && |e.zeroes| == |e.bandType| == ENTRIES
    requires 16 * Windows(ics.groups, g) + ics.maxSfb <= ENTRIES
    ensures SameChoices(GroupBands(e.zeroes, e.bandType, ics.groups, ics.maxSfb, a, g),
                        GroupBands(e.zeroes, e.bandType, ics.groups, ics.maxSfb, b, g))
  {
    hide Windows;
  }

  /** The sections that are chosen, and another codebook for band i of group g. */
  ghost function PairInstead(ics: Ics, e: Element, spends: Spends, g: nat, i: nat, best: nat): seq<seq<Section>>
    requires Sectionable(IsShort(ics), e.zeroes, e.bandType, ics.groups, ics.maxSfb, spends)
    requires g < |Chosens(ics, e, spends)| && i < Covered(Chosens(ics, e, spends)[g])
  {
    Chosens(ics, e, spends)[g := Rebook(Chosens(ics, e, spends)[g], i, best)]
  }

  lemma InsteadIsAdmitted(ics: Ics, e: Element, spends: Spends, g: nat, i: nat, best: nat)
    requires Sectionable(IsShort(ics), e.zeroes, e.bandType, ics.groups, ics.maxSfb, spends)
    requires Admits(ics, e, spends, Chosens(ics, e, spends))
    requires g < |ics.groups| && i < Covered(Chosens(ics, e, spends)[g])
    requires 16 * Windows(ics.groups, g) + ics.maxSfb <= ENTRIES
    requires Tiles(GroupBands(e.zeroes, e.bandType, ics.groups, ics.maxSfb, spends, g),
                   Rebook(Chosens(ics, e, spends)[g], i, best), ics.maxSfb)
    ensures Admits(ics, e, spends, PairInstead(ics, e, spends, g, i, best))
  {
    hide Tiles, Rebook, Books, Covered, GroupSectionable, Windows, Chosens, GroupBands;
    var chosen, ss := Chosens(ics, e, spends), PairInstead(ics, e, spends, g, i, best);
    forall k | 0 <= k < |ss| ensures GroupAdmits(ics, e, spends, ss, k) {
      assert GroupAdmits(ics, e, spends, chosen, k);
    }
  }

  ghost predicate MisjudgedGroup(ics: Ics, e: Element, cs: Spends, ts: Spends, g: nat, i: nat, best: nat,
                                 other: nat) {
    && g < |ics.groups| && |e.zeroes| == |e.bandType| == ENTRIES && 16 * Windows(ics.groups, g) + ics.maxSfb <= ENTRIES
    && var counted := GroupBands(e.zeroes, e.bandType, ics.groups, ics.maxSfb, cs, g);
       var written := GroupBands(e.zeroes, e.bandType, ics.groups, ics.maxSfb, ts, g);
       && OnlyBand(counted, i) && OnlyBand(written, i) && SameChoices(counted, written)
       && Misjudged(counted[i], written[i], best, other)
  }

  /** In that group codebook best would take fewer of the written bits. */
  lemma GroupIsDear(ics: Ics, e: Element, cs: Spends, ts: Spends, g: nat, i: nat, best: nat, other: nat)
    requires Sectionable(IsShort(ics), e.zeroes, e.bandType, ics.groups, ics.maxSfb, cs)
    requires Sectionable(IsShort(ics), e.zeroes, e.bandType, ics.groups, ics.maxSfb, ts)
    requires MisjudgedGroup(ics, e, cs, ts, g, i, best, other) && 0 < ics.maxSfb < RunEsc(IsShort(ics))
    requires Admits(ics, e, cs, Chosens(ics, e, cs))
    ensures g < |Chosens(ics, e, cs)| && i < Covered(Chosens(ics, e, cs)[g])
    ensures Admits(ics, e, ts, Chosens(ics, e, cs))
    ensures Admits(ics, e, cs, PairInstead(ics, e, cs, g, i, best))
        && Admits(ics, e, ts, PairInstead(ics, e, cs, g, i, best))
    ensures GroupAdmits(ics, e, ts, PairInstead(ics, e, cs, g, i, best), g)
        && GroupAdmits(ics, e, ts, Chosens(ics, e, cs), g)
    ensures GroupWritten(ics, e, ts, PairInstead(ics, e, cs, g, i, best), g)
          < GroupWritten(ics, e, ts, Chosens(ics, e, cs), g)
  {
    hide Windows, Admits, GroupAdmits, Rebook, Chosens, Sectionable, Tiles, Misjudged, OnlyBand, SameChoices, Covered,
      Written, ValidBands, Affordable, BandsOf, SectionsOf, Chosen, Books;
    SectionsAt(IsShort(ics), e.zeroes, e.bandType, ics.groups, ics.maxSfb, cs, g);
    var counted := GroupBands(e.zeroes, e.bandType, ics.groups, ics.maxSfb, cs, g);
    var written := GroupBands(e.zeroes, e.bandType, ics.groups, ics.maxSfb, ts, g);
    ChosensAt(ics, e, cs, g);
    ChosenIsDear(IsShort(ics), counted, written, i, best, other);
    InsteadIsAdmitted(ics, e, cs, g, i, best);
    AdmitsEither(ics, e, cs, ts, Chosens(ics, e, cs));
    AdmitsEither(ics, e, cs, ts, PairInstead(ics, e, cs, g, i, best));
    AdmitsGroup(ics, e, ts, Chosens(ics, e, cs), g);
    AdmitsGroup(ics, e, ts, PairInstead(ics, e, cs, g, i, best), g);
  }

  lemma ChosensAt(ics: Ics, e: Element, cs: Spends, g: nat)
    requires Sectionable(IsShort(ics), e.zeroes, e.bandType, ics.groups, ics.maxSfb, cs) && g < |ics.groups|
    ensures |Chosens(ics, e, cs)| == |ics.groups| && |e.zeroes| == |e.bandType| == ENTRIES
    ensures Chosens(ics, e, cs)[g]
         == SectionsOf(IsShort(ics), e.zeroes, e.bandType, ics.groups, ics.maxSfb, cs)[g]
  {
  }

  lemma AdmitsGroup(ics: Ics, e: Element, spends: Spends, ss: seq<seq<Section>>, g: nat)
    requires Admits(ics, e, spends, ss) && g < |ics.groups|
    ensures |ss| == |ics.groups| && GroupAdmits(ics, e, spends, ss, g)
  {
  }

  /** So the encoder does not send the fewest bits. */
  lemma MisjudgedMisses(fmt: Format, ics: Ics, e: Element, numSwb: nat, cs: Spends, ts: Spends, g: nat, i: nat,
                        best: nat, other: nat)
    requires Ready(fmt, ics, e, numSwb, cs) && Ready(fmt, ics, e, numSwb, ts) && ValidFormat(fmt)
        && ValidIcsFor(fmt, ics)
    requires forall j :: 0 <= j < |ics.groups| ==> TrueSpends(fmt.tables, LayoutOf(fmt, ics), e, ts, j)
    requires MisjudgedGroup(ics, e, cs, ts, g, i, best, other) && 0 < ics.maxSfb < RunEsc(IsShort(ics))
        && g < |ics.groups|
    ensures !FewestSent(fmt, ics, e, numSwb, cs)
  {
    hide Windows, Ready, Admits, TrueSpends, CodedBits, CanCount, GroupAdmits, Rebook, Chosens, LayoutOf, ValidFormat,
      ValidIcsFor, Sectionable, GroupWritten, MisjudgedGroup, SentChannel, SectionBits, SpectrumBits, ValidChannel,
      Covered;
    ReadyParts(fmt, ics, e, numSwb, cs);
    ReadyParts(fmt, ics, e, numSwb, ts);
    ChosenIsAdmitted(fmt, ics, e, numSwb, cs);
    GroupIsDear(ics, e, cs, ts, g, i, best, other);
    var chosen, instead := Chosens(ics, e, cs), PairInstead(ics, e, cs, g, i, best);
    AdmitsGroup(ics, e, cs, chosen, g);
    AdmitsGroup(ics, e, cs, instead, g);
    CheaperGroup(fmt, ics, e, numSwb, ts, instead, chosen, g, |ics.groups|);
    SentIsValid(fmt, ics, e, numSwb, cs);
    SentBits(fmt, ics, e, numSwb, cs);
    assert Admits(ics, e, cs, instead);
  }

  /** Whenever the scalefactor of a window differs from that of the head of its group, there are
      coefficients for which the encoder does not send the fewest bits. */
  lemma OtherScalesMiss(fmt: Format, ics: Ics, numSwb: nat, groupLen: seq<nat>, numWindows: nat, gain: Gains,
                        sfIdx: seq<int>, g: nat, w: nat, i: nat)
    requires Searched(fmt, ics, numSwb, groupLen, numWindows, sfIdx) && Steps(gain)
    requires Differs(fmt, ics, sfIdx, g, w, i)
    requires 0 < ics.maxSfb < RunEsc(IsShort(ics)) && |fmt.tables.books| == 11 && PairWords(fmt.tables.books)
    ensures !FewestSent(fmt, ics, PairElement(fmt, ics, gain, sfIdx, g, w, i), numSwb,
                        SpendsFor(fmt, ics, PairElement(fmt, ics, gain, sfIdx, g, w, i), groupLen,
                                  RoundOf(PairMags(fmt, ics, gain, sfIdx, g, w, i), gain)))
  {
    hide Windows, PairMags, Counted, SpendsOf, Searched, Ready, TrueSpends, LayoutOf, ValidFormat, ValidIcsFor, Apart,
      GroupBands, PairWords, Misjudged, OnlyBand, SameChoices, Prepared, FewestSent, Steps, FoundElement, PairBest,
      RoundOf, OnlyHead;
    SearchedFacts(fmt, ics, numSwb, groupLen, numWindows, sfIdx, g);
    var e := PairElement(fmt, ics, gain, sfIdx, g, w, i);
    var cs := SpendsOf(fmt.tables, CountedSpectra(fmt, ics, gain, sfIdx, g, w, i), Offsets(fmt, ics), groupLen);
    var ts := WrittenSpends(fmt, ics, e, groupLen);
    FoundIsPrepared(fmt, ics, numSwb, groupLen, numWindows, gain, sfIdx, OnlyHead(ics, g, i),
                    PairMags(fmt, ics, gain, sfIdx, g, w, i));
    CountedIsReady(fmt, ics, e, numSwb, groupLen, numWindows, CountedSpectra(fmt, ics, gain, sfIdx, g, w, i));
    CountedIsReady(fmt, ics, e, numSwb, groupLen, numWindows, (cb: nat) => e.q);
    forall j | 0 <= j < |ics.groups| ensures TrueSpends(fmt.tables, LayoutOf(fmt, ics), e, ts, j) {
      WrittenIsTrue(fmt, ics, e, numSwb, groupLen, numWindows, j);
    }
    PairIsMisjudged(fmt, ics, groupLen, numWindows, gain, sfIdx, g, w, i);
    PairIsOnly(fmt, ics, gain, sfIdx, g, w, i, cs);
    PairIsOnly(fmt, ics, gain, sfIdx, g, w, i, ts);
    SameGroupChoices(ics, e, g, cs, ts);
    var best := PairBest(fmt, ics, sfIdx, g, w, i);
    MisjudgedMisses(fmt, ics, e, numSwb, cs, ts, g, i, best, 12 - best);
  }

  /** Whatever the coefficients and the silent flags, the encoder sends the fewest bits with these
      scalefactors. */
  ghost predicate AlwaysFewest(fmt: Format, ics: Ics, numSwb: nat, groupLen: seq<nat>, gain: Gains, sfIdx: seq<int>)
    requires ValidFormat(fmt) && ValidIcsFor(fmt, ics) && |fmt.tables.books| == 11 && Steps(gain) && |sfIdx| == ENTRIES
  {
    forall zeroes: seq<bool>, mags: nat -> real ::
      |zeroes| == ENTRIES ==> FewestFor(fmt, ics, numSwb, groupLen, gain, sfIdx, zeroes, mags)
  }

  ghost predicate FewestFor(fmt: Format, ics: Ics, numSwb: nat, groupLen: seq<nat>, gain: Gains, sfIdx: seq<int>,
                            zeroes: seq<bool>, mags: nat -> real)
    requires ValidFormat(fmt) && ValidIcsFor(fmt, ics) && |fmt.tables.books| == 11 && Steps(gain)
    requires |sfIdx| == |zeroes| == ENTRIES
  {
    var e := FoundElement(fmt, ics, gain, sfIdx, zeroes, mags);
    FewestSent(fmt, ics, e, numSwb, SpendsFor(fmt, ics, e, groupLen, RoundOf(mags, gain)))
  }

  /** Of all sections those that are sent always take the fewest bits if and only if in every band
      all windows of a group have the scalefactor of its head. */
  lemma FewestIffSameScales(fmt: Format, ics: Ics, numSwb: nat, groupLen: seq<nat>, numWindows: nat, gain: Gains,
                            sfIdx: seq<int>)
    requires Searched(fmt, ics, numSwb, groupLen, numWindows, sfIdx) && Steps(gain)
    requires 0 < ics.maxSfb < RunEsc(IsShort(ics)) && |fmt.tables.books| == 11 && PairWords(fmt.tables.books)
    ensures ValidFormat(fmt) && ValidIcsFor(fmt, ics) && |sfIdx| == ENTRIES
    ensures AlwaysFewest(fmt, ics, numSwb, groupLen, gain, sfIdx) <==> SameScales(ics.groups, ics.maxSfb, sfIdx)
  {
    hide Searched, ValidFormat, ValidIcsFor, FewestFor, PairWords, Windows, PairMags, Steps, OnlyHead;
    SearchedFrame(fmt, ics, numSwb, groupLen, numWindows, sfIdx);
    if SameScales(ics.groups, ics.maxSfb, sfIdx) {
      forall zeroes: seq<bool>, mags: nat -> real | |zeroes| == ENTRIES
        ensures FewestFor(fmt, ics, numSwb, groupLen, gain, sfIdx, zeroes, mags)
      {
        SameScalesFewest(fmt, ics, numSwb, groupLen, numWindows, gain, sfIdx, zeroes, mags);
      }
    } else {
      var g, w, i :| 0 <= g < |ics.groups| && 0 <= w < ics.groups[g] && 0 <= i < ics.maxSfb
          && !SameScale(ics.groups, sfIdx, g, w, i);
      NotSame(fmt, ics, numSwb, groupLen, numWindows, sfIdx, g, w, i);
      DiffersNotFewest(fmt, ics, numSwb, groupLen, numWindows, gain, sfIdx, g, w, i);
      assert !FewestFor(fmt, ics, numSwb, groupLen, gain, sfIdx, OnlyHead(ics, g, i),
                        PairMags(fmt, ics, gain, sfIdx, g, w, i));
    }
  }

  /** With the scalefactors of the heads the search's element is sent in the fewest bits. */
  lemma SameScalesFewest(fmt: Format, ics: Ics, numSwb: nat, groupLen: seq<nat>, numWindows: nat, gain: Gains,
                         sfIdx: seq<int>, zeroes: seq<bool>, mags: nat -> real)
    requires Searched(fmt, ics, numSwb, groupLen, numWindows, sfIdx) && Steps(gain) && |zeroes| == ENTRIES
    requires 0 < ics.maxSfb < RunEsc(IsShort(ics)) && SameScales(ics.groups, ics.maxSfb, sfIdx)
    ensures ValidFormat(fmt) && ValidIcsFor(fmt, ics) && |fmt.tables.books| == 11 && |sfIdx| == ENTRIES
    ensures FewestFor(fmt, ics, numSwb, groupLen, gain, sfIdx, zeroes, mags)
  {
    hide Searched, ValidFormat, ValidIcsFor, Prepared, WrittenAtHeads, FewestSent, SpendsFor, LayoutOf, Steps,
      FoundElement, RoundOf, SameScales;
    SearchedFrame(fmt, ics, numSwb, groupLen, numWindows, sfIdx);
    FoundIsPrepared(fmt, ics, numSwb, groupLen, numWindows, gain, sfIdx, zeroes, mags);
    FoundIsWritten(fmt, ics, gain, sfIdx, zeroes, mags);
    SentIsCheapest(fmt, ics, FoundElement(fmt, ics, gain, sfIdx, zeroes, mags), numSwb, groupLen, numWindows,
                   RoundOf(mags, gain));
  }

  lemma DiffersNotFewest(fmt: Format, ics: Ics, numSwb: nat, groupLen: seq<nat>, numWindows: nat, gain: Gains,
                         sfIdx: seq<int>, g: nat, w: nat, i: nat)
    requires Searched(fmt, ics, numSwb, groupLen, numWindows, sfIdx) && Steps(gain)
    requires Differs(fmt, ics, sfIdx, g, w, i)
    requires 0 < ics.maxSfb < RunEsc(IsShort(ics)) && |fmt.tables.books| == 11 && PairWords(fmt.tables.books)
    ensures ValidFormat(fmt) && ValidIcsFor(fmt, ics) && |sfIdx| == ENTRIES
    ensures !FewestFor(fmt, ics, numSwb, groupLen, gain, sfIdx, OnlyHead(ics, g, i),
                       PairMags(fmt, ics, gain, sfIdx, g, w, i))
  {
    hide Searched, ValidFormat, ValidIcsFor, FewestSent, SpendsFor, Steps, FoundElement, RoundOf, PairMags, Windows,
      PairWords;
    SearchedFrame(fmt, ics, numSwb, groupLen, numWindows, sfIdx);
    OtherScalesMiss(fmt, ics, numSwb, groupLen, numWindows, gain, sfIdx, g, w, i);
  }

  lemma SearchedFrame(fmt: Format, ics: Ics, numSwb: nat, groupLen: seq<nat>, numWindows: nat, sfIdx: seq<int>)
    requires Searched(fmt, ics, numSwb, groupLen, numWindows, sfIdx)
    ensures ValidFormat(fmt) && ValidIcsFor(fmt, ics) && Grouped(ics.groups, groupLen, numWindows)
    ensures |sfIdx| == ENTRIES
  {
  }

  lemma NotSame(fmt: Format, ics: Ics, numSwb: nat, groupLen: seq<nat>, numWindows: nat, sfIdx: seq<int>, g: nat,
                w: nat, i: nat)
    requires Searched(fmt, ics, numSwb, groupLen, numWindows, sfIdx) && g < |ics.groups| && w < ics.groups[g]
    requires i < ics.maxSfb && !SameScale(ics.groups, sfIdx, g, w, i)
    ensures Differs(fmt, ics, sfIdx, g, w, i)
  {
    hide Windows, ValidFormat, Spread, Within, Grouped, ShortTables;
    EntriesInRange(ics.groups, ics.maxSfb, g);
    WindowEntry(ics.groups, ics.maxSfb, g, w, i);
  }

  lemma SearchedFacts(fmt: Format, ics: Ics, numSwb: nat, groupLen: seq<nat>, numWindows: nat, sfIdx: seq<int>, g: nat)
    requires Searched(fmt, ics, numSwb, groupLen, numWindows, sfIdx) && g < |ics.groups|
    ensures 16 * Windows(ics.groups, g) + ics.maxSfb <= ENTRIES && Grouped(ics.groups, groupLen, numWindows)
    ensures ValidFormat(fmt) && ValidIcsFor(fmt, ics)
  {
    EntriesInRange(ics.groups, ics.maxSfb, g);
  }
}
