/** Spectra on which the section trellis of the AAC encoder misses cheaper sections
    (codebook_trellis_rate and quantize_band_cost of libavcodec/aaccoder.c, with the code word
    lengths of libavcodec/aactab.c). */
module AacMissed {
  import opened Sums
  import opened CodeLists
  import opened AacSections
  import opened AacSpectral
  import opened AacTrellis
  import opened AacTrellisLimits
  import opened AacQuantise

  // ---------- the code words that matter ----------

  predicate HasWord(book: CodeBook, idx: nat, len: nat) {
    idx < |book.words| && |book.words[idx]| == len
  }

  /** Code word lengths of ff_aac_spectral_bits. */
  predicate StandardWords(books: seq<CodeBook>) {
    && |books| == 11
    && HasWord(books[0], 67, 5) && HasWord(books[0], 41, 5)
    && HasWord(books[1], 67, 4) && HasWord(books[1], 41, 5)
    && HasWord(books[2], 27, 4) && HasWord(books[2], 1, 4)
    && HasWord(books[3], 27, 4) && HasWord(books[3], 1, 5)
    && HasWord(books[4], 40, 1) && HasWord(books[4], 41, 4) && HasWord(books[4], 49, 4)
    && HasWord(books[5], 40, 4) && HasWord(books[5], 41, 4) && HasWord(books[5], 49, 4)
    && HasWord(books[6], 0, 1) && HasWord(books[6], 1, 3) && HasWord(books[6], 8, 3)
    && HasWord(books[7], 0, 5) && HasWord(books[7], 1, 4) && HasWord(books[7], 8, 4)
    && HasWord(books[8], 0, 1) && HasWord(books[8], 1, 3) && HasWord(books[8], 13, 3) && HasWord(books[8], 105, 10)
    && HasWord(books[9], 0, 6) && HasWord(books[9], 1, 5) && HasWord(books[9], 13, 5) && HasWord(books[9], 105, 8)
    && HasWord(books[10], 0, 4) && HasWord(books[10], 1, 5) && HasWord(books[10], 17, 5) && HasWord(books[10], 137, 9)
  }

  // ---------- what a codebook spends on four values ----------

  function NonZero(x: int): nat {
    if x == 0 then 0 else 1
  }

  /** Sign bits of a vector in an unsigned codebook. */
  function Signs(cb: nat, v: seq<int>): nat
    requires |v| == 4
  {
    if Unsigned(cb) then NonZero(v[0]) + NonZero(v[1]) + NonZero(v[2]) + NonZero(v[3]) else 0
  }

  /** The index of a vector of four. */
  function QuadIndex(cb: nat, v: seq<int>): int
    requires |v| == 4
  {
    var o := if Unsigned(cb) then 0 else 1;
    27 * (v[0] + o) + 9 * (v[1] + o) + 3 * (v[2] + o) + v[3] + o
  }

  lemma QuadCost(book: CodeBook, cb: nat, v: seq<int>, len: nat)
    requires 1 <= cb <= 4 && |v| == 4 && (forall i :: 0 <= i < 4 ==> 0 <= v[i] <= 1)
    requires HasWord(book, QuadIndex(cb, v), len)
    ensures BandCost(book, cb, v) == len + Signs(cb, v)
  {
    var vs := Vectors(cb, v);
    assert vs[0] == v[0..4] == v;
    assert VectorIndex(cb, v, 1) == Digit(cb, v[0]);
    assert VectorIndex(cb, v, 2) == VectorIndex(cb, v, 1) * 3 + Digit(cb, v[1]);
    assert VectorIndex(cb, v, 3) == VectorIndex(cb, v, 2) * 3 + Digit(cb, v[2]);
    assert VectorIndex(cb, v, 4) == QuadIndex(cb, v);
    assert Total(SignCost, v, 1) == SignCost(v[0]);
    assert Total(SignCost, v, 2) == Total(SignCost, v, 1) + SignCost(v[1]);
    assert Total(SignCost, v, 3) == Total(SignCost, v, 2) + SignCost(v[2]);
    assert Total(VectorCoster(book, cb), vs, 0) == 0;
    assert BandCost(book, cb, v) == VectorCoster(book, cb)(v);
  }

  /** The index of a vector of two. */
  function PairIndex(cb: nat, a: nat, b: nat): nat
    requires Book(cb)
  {
    if Unsigned(cb) then a * Range(cb) + b else (a + 4) * 9 + b + 4
  }

  lemma PairCost(book: CodeBook, cb: nat, a: nat, b: nat, len: nat)
    requires 5 <= cb <= 11 && a <= MaxVal(cb) && b <= MaxVal(cb) && a < 16 && b < 16
    requires HasWord(book, PairIndex(cb, a, b), len)
    ensures VectorCoster(book, cb)([a, b]) == len + if Unsigned(cb) then NonZero(a) + NonZero(b) else 0
  {
    var v: seq<int> := [a, b];
    assert VectorIndex(cb, v, 1) == Digit(cb, v[0]);
    assert VectorIndex(cb, v, 2) == PairIndex(cb, a, b);
    assert Total(SignCost, v, 1) == SignCost(v[0]);
    assert Total(SignCost, v, 2) == SignCost(v[0]) + SignCost(v[1]);
    assert Total(EscapeCost, v, 1) == 0;
    assert Total(EscapeCost, v, 2) == 0;
  }

  lemma PairsCost(book: CodeBook, cb: nat, v: seq<int>, first: nat, second: nat)
    requires 5 <= cb <= 11 && |v| == 4 && forall i :: 0 <= i < 4 ==> 0 <= v[i] <= MaxVal(cb) && v[i] < 16
    requires HasWord(book, PairIndex(cb, v[0], v[1]), first) && HasWord(book, PairIndex(cb, v[2], v[3]), second)
    ensures BandCost(book, cb, v) == first + second + Signs(cb, v)
  {
    var vs := Vectors(cb, v);
    assert vs[0] == v[0..2] == [v[0], v[1]] && vs[1] == v[2..4] == [v[2], v[3]];
    PairCost(book, cb, v[0], v[1], first);
    PairCost(book, cb, v[2], v[3], second);
    hide VectorCoster;
    assert Total(VectorCoster(book, cb), vs, 1) == VectorCoster(book, cb)(vs[0]);
  }

  const FIRST: seq<int> := [1, 0, 0, 0]
  const NEXT: seq<int> := [0, 0, 0, 1]
  const LAST: seq<int> := [8, 1, 0, 0]

  lemma FirstCosts(books: seq<CodeBook>, cb: nat)
    requires StandardWords(books) && 1 <= cb <= 11
    ensures BandCost(books[cb - 1], cb, FIRST) == FIRST_BITS[cb]
  {
    hide BandCost;
    if cb <= 4 {
      QuadCost(books[cb - 1], cb, FIRST, if cb == 1 then 5 else 4);
    } else {
      var one := [4, 4, 3, 4, 3, 5, 5];
      var zero := [1, 4, 1, 5, 1, 6, 4];
      PairsCost(books[cb - 1], cb, FIRST, one[cb - 5], zero[cb - 5]);
    }
  }

  lemma NextCosts(books: seq<CodeBook>, cb: nat)
    requires StandardWords(books) && 1 <= cb <= 11
    ensures BandCost(books[cb - 1], cb, NEXT) == NEXT_BITS[cb]
  {
    hide BandCost;
    if cb <= 4 {
      QuadCost(books[cb - 1], cb, NEXT, if cb == 3 then 4 else 5);
    } else {
      var one := [4, 4, 3, 4, 3, 5, 5];
      var zero := [1, 4, 1, 5, 1, 6, 4];
      PairsCost(books[cb - 1], cb, NEXT, zero[cb - 5], one[cb - 5]);
    }
  }

  lemma LastCosts(books: seq<CodeBook>, cb: nat)
    requires StandardWords(books) && 9 <= cb <= 11
    ensures BandCost(books[cb - 1], cb, LAST) == LAST_BITS[cb]
  {
    hide BandCost;
    var first := [10, 8, 9];
    var zero := [1, 6, 4];
    PairsCost(books[cb - 1], cb, LAST, first[cb - 9], zero[cb - 9]);
  }

  // ---------- whole bands ----------

  lemma {:induction false} TotalTogether<V>(cost: V -> int, a: seq<V>, b: seq<V>, k: nat)
    requires k <= |b|
    ensures Total(cost, a + b, |a| + k) == Total(cost, a, |a|) + Total(cost, b, k)
  {
    if k > 0 {
      TotalTogether(cost, a, b, k - 1);
    } else {
      TotalPrefix(cost, a, b, |a|);
    }
  }

  lemma {:induction false} TotalPrefix<V>(cost: V -> int, a: seq<V>, b: seq<V>, k: nat)
    requires k <= |a|
    ensures Total(cost, a + b, k) == Total(cost, a, k)
  {
    if k > 0 {
      TotalPrefix(cost, a, b, k - 1);
    }
  }

  lemma PartOfFirst<T>(a: seq<T>, b: seq<T>, i: nat, j: nat)
    requires i <= j <= |a|
    ensures (a + b)[i..j] == a[i..j]
  {
  }

  lemma PartOfSecond<T>(a: seq<T>, b: seq<T>, i: nat, j: nat)
    requires |a| <= i <= j <= |a + b|
    ensures (a + b)[i..j] == b[i - |a|..j - |a|]
  {
  }

  lemma CountTogether(cb: nat, a: nat, b: nat, i: nat)
    requires a % 4 == 0 && b % 4 == 0 && i < VectorCount(cb, a) + VectorCount(cb, b)
    ensures var n := VectorCount(cb, a);
      && VectorCount(cb, a + b) == n + VectorCount(cb, b) && Offset(cb, i) + Dim(cb) <= a + b
      && (i < n ==> Offset(cb, i) + Dim(cb) <= a)
      && (i >= n ==> Offset(cb, i - n) == Offset(cb, i) - a)
  {
  }

  lemma VectorTogether(cb: nat, a: seq<int>, b: seq<int>, i: nat)
    requires |a| % 4 == 0 && |b| % 4 == 0 && i < VectorCount(cb, |a|) + VectorCount(cb, |b|)
    ensures VectorCount(cb, |a + b|) == VectorCount(cb, |a|) + VectorCount(cb, |b|)
    ensures Vectors(cb, a + b)[i] == (Vectors(cb, a) + Vectors(cb, b))[i]
  {
    hide Vectors;
    var n := VectorCount(cb, |a|);
    CountTogether(cb, |a|, |b|, i);
    if i < n {
      PartOfFirst(a, b, Offset(cb, i), Offset(cb, i) + Dim(cb));
    } else {
      PartOfSecond(a, b, Offset(cb, i), Offset(cb, i) + Dim(cb));
    }
  }

  lemma VectorsTogether(cb: nat, a: seq<int>, b: seq<int>)
    requires |a| % 4 == 0 && |b| % 4 == 0
    ensures Vectors(cb, a + b) == Vectors(cb, a) + Vectors(cb, b)
  {
    hide Vectors;
    forall i: nat | i < VectorCount(cb, |a|) + VectorCount(cb, |b|)
      ensures VectorCount(cb, |a + b|) == VectorCount(cb, |a|) + VectorCount(cb, |b|)
      ensures Vectors(cb, a + b)[i] == (Vectors(cb, a) + Vectors(cb, b))[i]
    {
      VectorTogether(cb, a, b, i);
    }
  }

  /** The cost of a band is the sum of the costs of its parts. */
  lemma CostTogether(book: CodeBook, cb: nat, a: seq<int>, b: seq<int>)
    requires |a| % 4 == 0 && |b| % 4 == 0
    ensures BandCost(book, cb, a + b) == BandCost(book, cb, a) + BandCost(book, cb, b)
  {
    hide VectorCoster, Total, Vectors;
    var va, vb := Vectors(cb, a), Vectors(cb, b);
    VectorsTogether(cb, a, b);
    TotalTogether(VectorCoster(book, cb), va, vb, |vb|);
  }

  /** Four values, m times. */
  function Repeat(v: seq<int>, m: nat): (vals: seq<int>)
    requires |v| == 4
    ensures |vals| == 4 * m
  {
    if m == 0 then [] else Repeat(v, m - 1) + v
  }

  lemma {:induction false} RepeatCost(book: CodeBook, cb: nat, v: seq<int>, m: nat)
    requires |v| == 4
    ensures BandCost(book, cb, Repeat(v, m)) == m * BandCost(book, cb, v)
  {
    hide BandCost;
    if m > 0 {
      RepeatCost(book, cb, v, m - 1);
      CostTogether(book, cb, Repeat(v, m - 1), v);
      var c := BandCost(book, cb, v);
      assert m * c == (m - 1) * c + c;
    } else {
      NoValues(book, cb);
    }
  }

  lemma NoValues(book: CodeBook, cb: nat)
    ensures BandCost(book, cb, []) == 0
  {
  }

  /** The least upper bound of the magnitudes. */
  function Greatest(vals: seq<int>): (m: nat)
    ensures forall i :: 0 <= i < |vals| ==> Abs(vals[i]) <= m
    ensures m == 0 || exists i :: 0 <= i < |vals| && Abs(vals[i]) == m
  {
    if vals == [] then 0
    else
      var n := |vals| - 1;
      var m := Greatest(vals[..n]);
      assert forall i :: 0 <= i < n ==> vals[i] == vals[..n][i];
      if Abs(vals[n]) > m then Abs(vals[n]) else m
  }

  function Cost(books: seq<CodeBook>, cb: nat, vals: seq<int>): nat
    requires |books| == 11
  {
    if Book(cb) then
      BandCostExact(books[cb - 1], cb, vals);
      BandCost(books[cb - 1], cb, vals)
    else 0
  }

  /** The band of these values, silent if they are all zero. */
  function BandOfValues(books: seq<CodeBook>, vals: seq<int>): (b: Band)
    requires |books| == 11
    ensures ValidBand(b)
  {
    var m := Greatest(vals);
    Band(m == 0, LeastBook(m), seq(BOOKS, cb requires 0 <= cb < BOOKS => Cost(books, cb, vals)))
  }

  /** The values of band number i, w vectors of four long. */
  function MissedValues(short: bool, i: nat, w: nat): (vals: seq<int>)
    requires w > 0
    ensures |vals| == 4 * w
  {
    var e := RunEsc(short);
    if i < 5 then Repeat(NEXT, w - 1) + FIRST
    else if i < e - 2 then Repeat(NEXT, w)
    else if i < e then Repeat(LAST, w)
    else Repeat([0, 0, 0, 0], w)
  }

  lemma GreatestIs(vals: seq<int>, m: nat)
    requires forall i :: 0 <= i < |vals| ==> Abs(vals[i]) <= m
    requires m == 0 || exists i :: 0 <= i < |vals| && Abs(vals[i]) == m
    ensures Greatest(vals) == m
  {
  }

  lemma {:induction false} Repeated(v: seq<int>, m: nat)
    requires |v| == 4
    ensures forall i :: 0 <= i < 4 * m ==> Repeat(v, m)[i] in v
  {
    if m > 0 {
      Repeated(v, m - 1);
    }
  }

  lemma LastRepeated(v: seq<int>, m: nat, i: nat)
    requires |v| == 4 && m > 0 && i < 4
    ensures Repeat(v, m)[4 * (m - 1) + i] == v[i]
  {
  }

  /** How great the values are. */
  lemma MissedGreatest(short: bool, i: nat, w: nat)
    requires w > 0
    ensures Greatest(MissedValues(short, i, w))
         == if i < RunEsc(short) - 2 then 1 else if i < RunEsc(short) then 8 else 0
  {
    hide Greatest, Repeat;
    var vals := MissedValues(short, i, w);
    Repeated(NEXT, w - 1);
    Repeated(NEXT, w);
    Repeated(LAST, w);
    Repeated([0, 0, 0, 0], w);
    if i < 5 {
      assert vals[4 * (w - 1)] == 1;
      GreatestIs(vals, 1);
    } else if i < RunEsc(short) - 2 {
      LastRepeated(NEXT, w, 3);
      assert vals[4 * (w - 1) + 3] == 1;
      GreatestIs(vals, 1);
    } else if i < RunEsc(short) {
      LastRepeated(LAST, w, 0);
      assert vals[4 * (w - 1) + 0] == 8;
      GreatestIs(vals, 8);
    } else {
      GreatestIs(vals, 0);
    }
  }

  /** What the codebooks spend on them. */
  lemma MissedCosts(books: seq<CodeBook>, short: bool, i: nat, w: nat, cb: nat)
    requires StandardWords(books) && w > 0 && 1 <= cb < BOOKS
    ensures var cost := Cost(books, cb, MissedValues(short, i, w));
      && (i < 5 ==> cost == (w - 1) * NEXT_BITS[cb] + FIRST_BITS[cb])
      && (5 <= i < RunEsc(short) - 2 ==> cost == w * NEXT_BITS[cb])
      && (RunEsc(short) - 2 <= i < RunEsc(short) && cb >= 9 ==> cost == w * LAST_BITS[cb])
  {
    hide BandCost, StandardWords, Repeat;
    BooksThere(books);
    var book := books[cb - 1];
    FirstCosts(books, cb);
    NextCosts(books, cb);
    RepeatCost(book, cb, NEXT, w - 1);
    RepeatCost(book, cb, NEXT, w);
    RepeatCost(book, cb, LAST, w);
    CostTogether(book, cb, Repeat(NEXT, w - 1), FIRST);
    if cb >= 9 {
      LastCosts(books, cb);
    }
  }

  lemma BooksThere(books: seq<CodeBook>)
    requires StandardWords(books)
    ensures |books| == 11
  {
  }

  lemma TimesMore(w: nat, a: nat, b: nat)
    ensures a <= b ==> w * a <= w * b
    ensures w > 0 && a < b ==> w * a < w * b
  {
  }

  /** They make a misleading band. */
  lemma MissedIsMisleadingBand(books: seq<CodeBook>, short: bool, i: nat, w: nat)
    requires StandardWords(books) && w > 0
    ensures |books| == 11
    ensures var b := BandOfValues(books, MissedValues(short, i, w));
      MisleadingBand(short, b, i) && Spend(b, InsteadBook(short, i)) <= 13 * w
  {
    hide StandardWords, Cost, MissedValues, Greatest;
    BooksThere(books);
    MissedGreatest(short, i, w);
    forall cb | 1 <= cb < BOOKS
      ensures var cost := Cost(books, cb, MissedValues(short, i, w));
        && (i < 5 ==> cost >= (w - 1) * 5 + (if cb == 2 then 4 else 5))
        && (5 <= i < RunEsc(short) - 2 ==> cost >= w * 5)
        && (RunEsc(short) - 2 <= i < RunEsc(short) && cb >= 9 && cb != 9 ==> cost > w * 13)
    {
      MissedCosts(books, short, i, w, cb);
      TimesMore(w - 1, 5, NEXT_BITS[cb]);
      TimesMore(w, 5, NEXT_BITS[cb]);
      TimesMore(w, 13, LAST_BITS[cb]);
    }
    MissedCosts(books, short, i, w, 2);
    MissedCosts(books, short, i, w, 9);
  }

  // ---------- spectra ----------

  /** The bands of a spectrum, widths counted in vectors of four. */
  function SpectrumBands(books: seq<CodeBook>, short: bool, widths: seq<nat>): (bands: seq<Band>)
    requires |books| == 11 && forall i :: 0 <= i < |widths| ==> widths[i] > 0
    ensures |bands| == |widths|
    ensures forall i :: 0 <= i < |widths| ==> bands[i] == BandOfValues(books, MissedValues(short, i, widths[i]))
  {
    seq(|widths|, i requires 0 <= i < |widths| => BandOfValues(books, MissedValues(short, i, widths[i])))
  }

  lemma {:induction false} SpectrumSpent(books: seq<CodeBook>, short: bool, widths: seq<nat>, k: nat)
    requires StandardWords(books) && |books| == 11 && (forall i :: 0 <= i < |widths| ==> widths[i] > 0) && k <= |widths|
    ensures ValidBands(SpectrumBands(books, short, widths))
    ensures Spent(short, SpectrumBands(books, short, widths), k) <= 13 * Sum(widths[..k])
  {
    hide BandOfValues, Spent, StandardWords, Spend;
    if k > 0 {
      SpectrumSpent(books, short, widths, k - 1);
      SpentMore(short, SpectrumBands(books, short, widths), k);
      MissedIsMisleadingBand(books, short, k - 1, widths[k - 1]);
      assert widths[..k][..k - 1] == widths[..k - 1];
    } else {
      NothingSpent(short, SpectrumBands(books, short, widths));
    }
  }

  lemma SpectrumMisleads(books: seq<CodeBook>, short: bool, widths: seq<nat>)
    requires StandardWords(books) && |books| == 11 && RunEsc(short) <= |widths| <= MostBands(short)
    requires (forall i :: 0 <= i < |widths| ==> widths[i] > 0) && Sum(widths) <= 256
    ensures var bands := SpectrumBands(books, short, widths); Misleading(short, bands) && InsteadCheap(short, bands)
  {
    hide BandOfValues, Spent, StandardWords, MisleadingBand, Sum;
    var bands := SpectrumBands(books, short, widths);
    forall i | 0 <= i < |bands| ensures MisleadingBand(short, bands[i], i) {
      MissedIsMisleadingBand(books, short, i, widths[i]);
    }
    SpectrumSpent(books, short, widths, |widths|);
    assert widths[..|widths|] == widths;
    HeadersBelow(short, |bands|);
  }

  lemma HeadersBelow(short: bool, n: nat)
    requires n <= 92
    ensures (n + 1) * Header(short) <= 837
  {
  }

  /** In every window with as many bands as a run that needs an escape, or more, whatever their
      widths, there is a spectrum on which the trellis misses cheaper sections. */
  lemma SpectrumIsMissed(books: seq<CodeBook>, short: bool, widths: seq<nat>)
    requires StandardWords(books) && RunEsc(short) <= |widths| <= MostBands(short)
    requires (forall i :: 0 <= i < |widths| ==> widths[i] > 0) && Sum(widths) <= 256
    ensures |books| == 11
    ensures var bands, n := SpectrumBands(books, short, widths), |widths|;
      && Affordable(short, bands) && Tiles(bands, Chosen(short, bands), n) && Tiles(bands, Instead(short, n), n)
      && Written(short, bands, Instead(short, n)) < Written(short, bands, Chosen(short, bands))
  {
    hide SpectrumBands, StandardWords, Misleading, InsteadCheap, Chosen, Written, Tiles, Instead, Affordable, Sum;
    BooksThere(books);
    SpectrumMisleads(books, short, widths);
    TrellisMisses(short, SpectrumBands(books, short, widths));
  }
}
