/** Quantised coefficients of an AAC channel: at which scalefactor a coefficient is rounded, and
    what a codebook leaves of it (quantize_bands and quant of libavcodec/aaccoder.c). The rounding
    itself is floating-point code and an arbitrary function here. */
module AacQuantise {
  import opened AacSpectral
  import opened AacSpectrum

  /** A coefficient, by position, rounded at a scalefactor. */
  type Value = (nat, int) -> int

  /** The greatest magnitude that the values of a codebook have. */
  function Reach(cb: nat): nat {
    if !Book(cb) then 0 else if cb == ESC_BOOK then ESC_MAX else MaxVal(cb)
  }

  /** The value as a codebook writes it. */
  function Cut(cb: nat, x: int): (y: int)
    ensures Abs(y) <= Reach(cb) && (Abs(x) <= Reach(cb) ==> y == x)
    ensures Book(cb) ==> Fits(cb, y)
  {
    var m: int := Reach(cb);
    if x > m then m else if x < -m then -m else x
  }

  // ---------- rounding ----------

  /** What a scalefactor multiplies magnitudes by, the step table to the power of 3/4. */
  type Gains = int -> real

  /** One scalefactor more divides by 2 to the power of 3/16, about 1.1388. */
  ghost predicate Steps(gain: Gains) {
    forall sf :: gain(sf) > 0.0 && OneStep(gain(sf), gain(sf + 1))
  }

  lemma GainPositive(gain: Gains, sf: int)
    requires Steps(gain)
    ensures gain(sf) > 0.0
  {
  }

  predicate OneStep(here: real, next: real) {
    1.13 * next <= here <= 1.14 * next
  }

  /** A magnitude rounded. */
  function RoundMag(m: real, g: real): (q: int)
    ensures m >= 0.0 && g > 0.0 ==> q >= 0
  {
    (m * g + 0.4054).Floor
  }

  function Mag(m: real): real {
    if m < 0.0 then -m else m
  }

  /** The coefficients, given by the powers of 3/4 of their magnitudes with their signs, rounded at
      any scalefactor. */
  function RoundOf(mags: nat -> real, gain: Gains): Value {
    (p: nat, sf: int) =>
      if mags(p) < 0.0 then -RoundMag(-mags(p), gain(sf)) else RoundMag(mags(p), gain(sf))
  }

  lemma RoundMagGrows(a: real, b: real, g: real)
    requires 0.0 <= a <= b && g > 0.0
    ensures 0 <= RoundMag(a, g) <= RoundMag(b, g)
  {
    assert a * g <= b * g;
  }

  /** A gain some scalefactors away. */
  lemma {:induction false} GainsFall(gain: Gains, low: int, high: int)
    requires Steps(gain) && low < high
    ensures 0.0 < 1.13 * gain(high) <= gain(low)
    decreases high - low
  {
    assert OneStep(gain(low), gain(low + 1)) && gain(high) > 0.0;
    if low + 1 < high {
      GainsFall(gain, low + 1, high);
    }
  }

  lemma TimesInverse(x: real, g: real)
    requires g > 0.0
    ensures x / g * g == x
  {
  }

  /** x is what is left of a coefficient at gain a; at gain b it is at least k times x if b is at
      least k times a, and at most k times x if b is at most k times a. */
  lemma Regained(x: real, a: real, b: real, k: real)
    requires x >= 0.0 && a > 0.0
    ensures b >= k * a ==> x / a * b >= k * x
    ensures b <= k * a ==> x / a * b <= k * x
  {
    var y := x / a;
    assert y >= 0.0 && y * a == x;
    if b >= k * a {
      assert y * b >= y * (k * a) == k * (y * a);
    }
    if b <= k * a {
      assert y * b <= y * (k * a) == k * (y * a);
    }
  }

  // ---------- the least codebook ----------

  /** find_min_book, on quantised values. */
  function LeastBook(m: nat): (cb: nat)
    ensures cb < 12
  {
    if m == 0 then 0 else if m == 1 then 1 else if m == 2 then 3 else if m <= 4 then 5
    else if m <= 7 then 7 else if m <= 12 then 9 else 11
  }

  /** find_min_book. */
  function FindMinBook(maxval: real, g: real): (cb: nat)
    requires maxval >= 0.0 && g > 0.0
    ensures cb < 12
  {
    LeastBook(RoundMag(maxval, g))
  }

  /** It holds whatever is not greater, up to the limit of the escapes, and no lower codebook holds
      the greatest. */
  lemma MinBookHolds(m: real, maxval: real, g: real)
    requires 0.0 <= m <= maxval && g > 0.0
    ensures var cb := FindMinBook(maxval, g); cb == ESC_BOOK || RoundMag(m, g) <= Reach(cb)
    ensures forall b :: 0 <= b < FindMinBook(maxval, g) ==> Reach(b) < RoundMag(maxval, g)
  {
    hide RoundMag;
    RoundMagGrows(m, maxval, g);
  }

  // ---------- places ----------

  /** The band of coefficient r of a window: the last one that starts at or below r. */
  function BandAt(offsets: seq<nat>, r: nat): nat {
    if |offsets| <= 2 then 0
    else
      var n := |offsets| - 1;
      if r >= offsets[n - 1] then n - 1 else BandAt(offsets[..n], r)
  }

  lemma {:induction false} BandAtIs(offsets: seq<nat>, i: nat, r: nat)
    requires forall j, k :: 0 <= j < k < |offsets| ==> offsets[j] < offsets[k]
    requires i + 1 < |offsets| && offsets[i] <= r < offsets[i + 1]
    ensures BandAt(offsets, r) == i
  {
    var n := |offsets| - 1;
    if i < n - 1 {
      assert offsets[i + 1] <= offsets[n - 1];
      BandAtIs(offsets[..n], i, r);
    }
  }

  /** The first window of the group of window w. */
  function FirstWindow(groups: seq<nat>, g: nat, w: nat): nat
    requires g <= |groups|
  {
    if g == 0 then 0
    else if w >= Windows(groups, g - 1) then Windows(groups, g - 1)
    else FirstWindow(groups, g - 1, w)
  }

  lemma {:induction false} FirstWindowIs(groups: seq<nat>, n: nat, g: nat, w: nat)
    requires g < n <= |groups| && w < groups[g]
    ensures FirstWindow(groups, n, Windows(groups, g) + w) == Windows(groups, g)
  {
    if g < n - 1 {
      WindowsMonotone(groups, g + 1, n - 1);
      FirstWindowIs(groups, n - 1, g, w);
    }
  }

  function WindowAt(short: bool, p: nat): nat {
    if short then p / WINDOW else 0
  }

  function Inside(short: bool, p: nat): nat {
    if short then p % WINDOW else p
  }

  /** The entry of coefficient p for its own window. */
  function OwnEntry(short: bool, offsets: seq<nat>, p: nat): nat {
    16 * WindowAt(short, p) + BandAt(offsets, Inside(short, p))
  }

  /** The entry of the first window of its group, which the writer uses. */
  function HeadEntry(lay: Layout, p: nat): nat {
    16 * FirstWindow(lay.groups, |lay.groups|, WindowAt(lay.short, p)) + BandAt(lay.offsets, Inside(lay.short, p))
  }

  /** The coefficients as they are rounded to count their bits in codebook cb: every window at its
      own scalefactor. */
  function Counted(short: bool, offsets: seq<nat>, sfIdx: seq<int>, value: Value): (c: nat -> seq<int>) {
    (cb: nat) => seq(COEFS, p requires 0 <= p < COEFS =>
      var a := OwnEntry(short, offsets, p); if a < |sfIdx| then Cut(cb, value(p, sfIdx[a])) else 0)
  }

  lemma CountedAt(short: bool, offsets: seq<nat>, sfIdx: seq<int>, value: Value, cb: nat, p: nat)
    requires p < COEFS && OwnEntry(short, offsets, p) < |sfIdx|
    ensures |Counted(short, offsets, sfIdx, value)(cb)| == COEFS
    ensures Counted(short, offsets, sfIdx, value)(cb)[p]
         == Cut(cb, value(p, sfIdx[OwnEntry(short, offsets, p)]))
  {
  }

  /** Coefficient k of band i of window w: which entries are its own and its head's. */
  lemma EntriesOf(lay: Layout, offsets: seq<nat>, g: nat, w: nat, i: nat, r: nat)
    requires ValidLayout(lay) && g < |lay.groups| && w < lay.groups[g] && i < lay.maxSfb
    requires lay.offsets[i] <= r < lay.offsets[i + 1]
    requires |lay.offsets| <= |offsets| && offsets[..|lay.offsets|] == lay.offsets
    requires forall j, k :: 0 <= j < k < |offsets| ==> offsets[j] < offsets[k]
    ensures var win := Windows(lay.groups, g) + w; var p := win * WINDOW + r;
      && p < COEFS && OwnEntry(lay.short, offsets, p) == 16 * win + i
      && HeadEntry(lay, p) == 16 * Windows(lay.groups, g) + i && !InTail(lay, p)
  {
    hide Windows, ValidLayout, BandAt, FirstWindow;
    var win := Windows(lay.groups, g) + w;
    WindowInside(lay, g, w, i);
    BandOfBoth(lay, offsets, i, r);
    WindowOf(lay.short, win, r);
    FirstWindowIs(lay.groups, |lay.groups|, g, w);
  }

  lemma WindowInside(lay: Layout, g: nat, w: nat, i: nat)
    requires ValidLayout(lay) && g < |lay.groups| && w < lay.groups[g] && i < lay.maxSfb
    ensures Windows(lay.groups, g) + w < if lay.short then 8 else 1
    ensures |lay.offsets| == lay.maxSfb + 1 && lay.offsets[i + 1] <= lay.offsets[lay.maxSfb] <= WindowSize(lay)
  {
    WindowsMonotone(lay.groups, g + 1, |lay.groups|);
    OffsetsGrow(lay, i + 1);
  }

  lemma BandOfBoth(lay: Layout, offsets: seq<nat>, i: nat, r: nat)
    requires |lay.offsets| <= |offsets| && offsets[..|lay.offsets|] == lay.offsets
    requires forall j, k :: 0 <= j < k < |offsets| ==> offsets[j] < offsets[k]
    requires i + 1 < |lay.offsets| && lay.offsets[i] <= r < lay.offsets[i + 1]
    ensures BandAt(offsets, r) == i && BandAt(lay.offsets, r) == i
  {
    forall j, k | 0 <= j < k < |lay.offsets| ensures lay.offsets[j] < lay.offsets[k] {
      assert lay.offsets[j] == offsets[j] && lay.offsets[k] == offsets[k];
    }
    assert lay.offsets[i] == offsets[i] && lay.offsets[i + 1] == offsets[i + 1];
    BandAtIs(offsets, i, r);
    BandAtIs(lay.offsets, i, r);
  }

  /** The greatest magnitude of the band with entry a among the first n coefficients; for all
      coefficients it is what find_max_val returns. */
  function GreatestMag(lay: Layout, mags: nat -> real, a: nat, n: nat): (m: real)
    requires |lay.offsets| == lay.maxSfb + 1
    ensures m >= 0.0
    ensures forall p :: 0 <= p < n && !InTail(lay, p) && HeadEntry(lay, p) == a ==> Mag(mags(p)) <= m
    ensures m == 0.0 || exists p :: 0 <= p < n && !InTail(lay, p) && HeadEntry(lay, p) == a && Mag(mags(p)) == m
  {
    if n == 0 then 0.0
    else
      var before := GreatestMag(lay, mags, a, n - 1);
      var here := if !InTail(lay, n - 1) && HeadEntry(lay, n - 1) == a then Mag(mags(n - 1)) else 0.0;
      if here > before then here else before
  }

  // ---------- what is written ----------

  /** The coefficients as they are written: those of a band in use rounded at the scalefactor of the
      first window of its group and cut to what its least codebook holds, all others zero. */
  function Rounded(lay: Layout, zeroes: seq<bool>, bandType: seq<nat>, sfIdx: seq<int>, value: Value): (q: seq<int>)
    requires |lay.offsets| == lay.maxSfb + 1
    ensures |q| == COEFS
    ensures forall p :: 0 <= p < COEFS ==> q[p] == RoundedAt(lay, zeroes, bandType, sfIdx, value, p)
  {
    seq(COEFS, p requires 0 <= p < COEFS => RoundedAt(lay, zeroes, bandType, sfIdx, value, p))
  }

  function RoundedAt(lay: Layout, zeroes: seq<bool>, bandType: seq<nat>, sfIdx: seq<int>, value: Value, p: nat): int
    requires |lay.offsets| == lay.maxSfb + 1
  {
    var a := HeadEntry(lay, p);
    if InTail(lay, p) || a >= |zeroes| || a >= |bandType| || a >= |sfIdx| || zeroes[a] then 0
    else Cut(bandType[a], value(p, sfIdx[a]))
  }

  lemma WindowOf(short: bool, win: nat, r: nat)
    requires r < (if short then WINDOW else COEFS) && win < if short then 8 else 1
    ensures var p := win * WINDOW + r; p < COEFS && WindowAt(short, p) == win && Inside(short, p) == r
  {
  }

  lemma {:induction false} OffsetsGrow(lay: Layout, i: nat)
    requires ValidLayout(lay) && i <= lay.maxSfb
    ensures lay.offsets[i] <= lay.offsets[lay.maxSfb]
    decreases lay.maxSfb - i
  {
    if i < lay.maxSfb {
      OffsetsGrow(lay, i + 1);
    }
  }
}
