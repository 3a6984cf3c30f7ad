/** The two-loop scalefactor search (search_for_quantizers_twoloop, libavcodec/aaccoder.c).
    Bit counts, distortions and codebooks of a band at a scalefactor come from floating-point
    code and are arbitrary functions here. */
module AacTwoLoop {
  import opened Wrappers
  import opened AacChannel
  import opened AacSpectrum
  import opened AacStream

  const ENTRIES: nat := 128
  const SCALE_ONE: int := 140
  const MAX_DIFF: int := 60

  /** What the search is given: the flat indices of the bands of every window group, in coding
      order, which of them are silent, and what a band costs at a scalefactor. */
  datatype Search = Search(ghost heads: seq<nat>, zeroes: seq<bool>, uplims: seq<real>, destBits: int,
                           bits: (nat, int) -> nat, noise: (nat, int) -> real, minBook: (nat, int) -> nat,
                           scaleBits: seq<nat>)

  ghost predicate ValidSearch(p: Search) {
    && |p.heads| > 0 && p.heads[0] == 0
    && (forall k :: 0 <= k < |p.heads| ==> p.heads[k] < ENTRIES)
    && (forall k, m :: 0 <= k < m < |p.heads| ==> p.heads[k] != p.heads[m])
    && |p.zeroes| == |p.uplims| == ENTRIES && |p.scaleBits| == 121
  }

  /** Any two scalefactors of coded bands have a difference that can be coded. */
  ghost predicate Spread(heads: seq<nat>, sf: seq<int>) {
    && (forall k :: 0 <= k < |heads| ==> heads[k] < |sf|)
    && forall k, m :: 0 <= k < |heads| && 0 <= m < |heads| ==> sf[heads[k]] - sf[heads[m]] <= MAX_DIFF
  }

  ghost predicate Within(heads: seq<nat>, sf: seq<int>, lo: int, hi: int) {
    && (forall k :: 0 <= k < |heads| ==> heads[k] < |sf|)
    && forall k :: 0 <= k < |heads| ==> lo <= sf[heads[k]] <= hi
  }

  // ---------- the global shift ----------

  function RaisedEntry(x: int, q: nat): int {
    if x < 218 - q then x + q else x
  }

  function LoweredEntry(x: int, q: nat): int {
    if x > 60 - q then x - q else x
  }

  function Shifted(sf: seq<int>, q: nat, up: bool): (r: seq<int>)
    ensures |r| == |sf|
    ensures forall i :: 0 <= i < |sf| ==> r[i] == if up then RaisedEntry(sf[i], q) else LoweredEntry(sf[i], q)
  {
    seq(|sf|, i requires 0 <= i < |sf| => if up then RaisedEntry(sf[i], q) else LoweredEntry(sf[i], q))
  }

  /** Although the shift moves some entries and not others, it never drives two coded bands
      more than 60 apart. */
  lemma ShiftKeepsSpread(heads: seq<nat>, sf: seq<int>, q: nat, up: bool)
    requires Spread(heads, sf) && q <= 32
    ensures Spread(heads, Shifted(sf, q, up))
  {
    var r := Shifted(sf, q, up);
    forall k, m | 0 <= k < |heads| && 0 <= m < |heads| ensures r[heads[k]] - r[heads[m]] <= MAX_DIFF {
      assert sf[heads[k]] - sf[heads[m]] <= MAX_DIFF && sf[heads[m]] - sf[heads[k]] <= MAX_DIFF;
    }
  }

  /** The least scalefactor possible while the step is q. */
  function Floor(q: nat): int {
    if q >= 2 then 76 + 2 * q else 59
  }

  predicate Step(q: nat) {
    q == 1 || q == 2 || q == 4 || q == 8 || q == 16 || q == 32
  }

  // ---------- counting bits ----------

  /** Running values of one pass over the bands: bits, the last scalefactor seen or -1, the
      least scalefactor seen, and the distortions less bits. */
  datatype Tally = Tally(bits: nat, prev: int, minScaler: int, dists: seq<real>)

  predicate Skipped(p: Search, sf: seq<int>, i: nat)
    requires i < |sf| && i < |p.zeroes|
  {
    p.zeroes[i] || sf[i] >= 218
  }

  /** One band: skipped when silent or too coarse, else its bits and those of the difference
      to the scalefactor before it. */
  function CountBand(p: Search, sf: seq<int>, t: Tally, i: nat): Tally
    requires |sf| == |t.dists| == |p.zeroes| && i < |sf| && |p.scaleBits| == 121
    requires !Skipped(p, sf, i) && t.prev != -1 ==> -60 <= sf[i] - t.prev <= 60
  {
    if Skipped(p, sf, i) then t
    else
      var diffBits := if t.prev == -1 then 0 else p.scaleBits[sf[i] - t.prev + SF_ZERO];
      Tally(t.bits + p.bits(i, sf[i]) + diffBits, sf[i], if sf[i] < t.minScaler then sf[i] else t.minScaler,
            t.dists[i := p.noise(i, sf[i])])
  }

  /** The pass over the first k bands. */
  ghost function Count(p: Search, sf: seq<int>, minScaler: int, dists: seq<real>, k: nat): (t: Tally)
    requires ValidSearch(p) && k <= |p.heads| && |sf| == |dists| == ENTRIES
    requires Spread(p.heads, sf)
    ensures t.prev == -1 || exists m :: 0 <= m < k && t.prev == sf[p.heads[m]]
    ensures |t.dists| == ENTRIES
  {
    if k == 0 then Tally(0, -1, minScaler, dists)
    else CountBand(p, sf, Count(p, sf, minScaler, dists, k - 1), p.heads[k - 1])
  }

  // ---------- the inner loop ----------

  /** Scalefactors, least scalefactor seen and distortions after the inner loop. */
  datatype Inner = Inner(sf: seq<int>, minScaler: int, dists: seq<real>)

  /** qstep >>= 1, and back to 1 while the spectrum does not fit by more than two per cent. */
  function NextStep(q: nat, bits: nat, destBits: int, first: int): (r: nat)
    requires Step(q)
    ensures r == 0 || Step(r)
  {
    if q / 2 == 0 && bits as real > destBits as real * 1.02 && first < 217 then 1 else q / 2
  }

  ghost predicate Searching(p: Search, sf: seq<int>, q: nat) {
    && ValidSearch(p) && |sf| == ENTRIES
    && Spread(p.heads, sf) && Within(p.heads, sf, Floor(q), 217)
  }

  lemma ShiftKeepsSearching(p: Search, sf: seq<int>, q: nat, up: bool, q': nat)
    requires Searching(p, sf, q) && Step(q) && (q' == q / 2 || (q == 1 && q' == 1))
    ensures Searching(p, Shifted(sf, q, up), q')
  {
    ShiftKeepsSpread(p.heads, sf, q, up);
  }

  /** The scalefactor of the first band rises whenever the step returns to 1. */
  lemma ResetMakesProgress(sf: seq<int>, q: nat, bits: nat, destBits: int)
    requires |sf| > 0 && Step(q)
    ensures var sf' := Shifted(sf, q, bits > destBits); var q' := NextStep(q, bits, destBits, sf'[0]);
      q' < q || (q' == q && 217 - sf'[0] < 217 - sf[0] && sf'[0] < 217)
  {
  }

  function Room(first: int): nat {
    if first < 217 then 217 - first else 0
  }

  /** The inner loop: count bits, shift all scalefactors, refine the step. It ends for every
      bit count, since either the step shrinks or the first scalefactor rises towards 217. */
  ghost function InnerLoop(p: Search, sf: seq<int>, q: nat, minScaler: int, dists: seq<real>): Inner
    requires Searching(p, sf, q) && Step(q) && |dists| == ENTRIES
    decreases q, Room(sf[0])
  {
    var t := Count(p, sf, minScaler, dists, |p.heads|);
    var sf' := Shifted(sf, q, t.bits > p.destBits);
    var q' := NextStep(q, t.bits, p.destBits, sf'[0]);
    ResetMakesProgress(sf, q, t.bits, p.destBits);
    ShiftKeepsSearching(p, sf, q, t.bits > p.destBits, q');
    if q' == 0 then Inner(sf', t.minScaler, t.dists) else InnerLoop(p, sf', q', t.minScaler, t.dists)
  }

  /** After the inner loop the coded bands are still within 60 of each other, in 59..217. */
  lemma {:induction false} InnerLoopKeepsSpread(p: Search, sf: seq<int>, q: nat, minScaler: int, dists: seq<real>)
    requires Searching(p, sf, q) && Step(q) && |dists| == ENTRIES
    ensures var r := InnerLoop(p, sf, q, minScaler, dists);
      |r.dists| == ENTRIES && Searching(p, r.sf, 0)
    decreases q, Room(sf[0])
  {
    var t := Count(p, sf, minScaler, dists, |p.heads|);
    var sf' := Shifted(sf, q, t.bits > p.destBits);
    var q' := NextStep(q, t.bits, p.destBits, sf'[0]);
    ResetMakesProgress(sf, q, t.bits, p.destBits);
    ShiftKeepsSearching(p, sf, q, t.bits > p.destBits, q');
    if q' != 0 {
      InnerLoopKeepsSpread(p, sf', q', t.minScaler, t.dists);
    }
  }

  // ---------- the outer loop ----------

  /** A band that is too noisy gets a smaller scalefactor: by two if one less would silence it. */
  function Finer(p: Search, dist: real, i: nat, x: int): int
    requires i < |p.uplims|
  {
    if dist > p.uplims[i] && x > 60 then (if p.minBook(i, x - 1) != 0 then x - 1 else x - 2) else x
  }

  /** The new scalefactor of one band: refined, then clipped to m..m + 60 and 219. */
  function Adjusted(p: Search, dist: real, m: int, i: nat, x: int): (y: int)
    requires i < |p.uplims|
  {
    var y := Limit(Finer(p, dist, i, x), m, m + MAX_DIFF);
    if y > 219 then 219 else y
  }

  /** minscaler = av_clip(minscaler, 60, 255 - SCALE_MAX_DIFF). */
  function Base(minScaler: int): int {
    Limit(minScaler, 60, 255 - MAX_DIFF)
  }

  /** The first k bands adjusted. */
  ghost function AdjustedTo(p: Search, r: Inner, k: nat): (sf: seq<int>)
    requires ValidSearch(p) && k <= |p.heads| && |r.sf| == |r.dists| == ENTRIES
    ensures |sf| == ENTRIES
  {
    if k == 0 then r.sf
    else
      var i := p.heads[k - 1];
      AdjustedTo(p, r, k - 1)[i := Adjusted(p, r.dists[i], Base(r.minScaler), i, r.sf[i])]
  }

  /** fflag: some band changed. */
  ghost predicate Changed(p: Search, r: Inner, k: nat)
    requires ValidSearch(p) && k <= |p.heads| && |r.sf| == |r.dists| == ENTRIES
  {
    k > 0 && (Changed(p, r, k - 1) ||
              var i := p.heads[k - 1]; Adjusted(p, r.dists[i], Base(r.minScaler), i, r.sf[i]) != r.sf[i])
  }

  lemma {:induction false} AdjustedAt(p: Search, r: Inner, k: nat, m: nat)
    requires ValidSearch(p) && m < |p.heads| && k <= |p.heads| && |r.sf| == |r.dists| == ENTRIES
    ensures var i := p.heads[m];
      AdjustedTo(p, r, k)[i] == if m < k then Adjusted(p, r.dists[i], Base(r.minScaler), i, r.sf[i]) else r.sf[i]
  {
    if k > 0 {
      AdjustedAt(p, r, k - 1, m);
    }
  }

  /** The outer step leaves all coded bands within 60 of each other and in 60..217: the limit
      219 never acts. */
  lemma OuterStepKeepsSpread(p: Search, r: Inner)
    requires Searching(p, r.sf, 0) && |r.dists| == ENTRIES
    ensures var sf := AdjustedTo(p, r, |p.heads|);
      Spread(p.heads, sf) && Within(p.heads, sf, 60, 217)
  {
    var sf, b := AdjustedTo(p, r, |p.heads|), Base(r.minScaler);
    forall k | 0 <= k < |p.heads| ensures b <= sf[p.heads[k]] <= b + MAX_DIFF && sf[p.heads[k]] <= 217 {
      AdjustedAt(p, r, |p.heads|, k);
    }
  }

  /** What the search leaves behind: scalefactors and the number of outer rounds. */
  datatype Found = Found(sf: seq<int>, last: Inner, rounds: nat)

  /** The outer loop, from round its on. */
  ghost function OuterLoop(p: Search, sf: seq<int>, dists: seq<real>, its: nat): Found
    requires its < 10 && Searching(p, sf, if its == 0 then 32 else 1) && |dists| == ENTRIES
    decreases 10 - its
  {
    var q := if its == 0 then 32 else 1;
    var r := InnerLoop(p, sf, q, sf[0], dists);
    InnerLoopKeepsSpread(p, sf, q, sf[0], dists);
    OuterStepKeepsSpread(p, r);
    var sf' := AdjustedTo(p, r, |p.heads|);
    if Changed(p, r, |p.heads|) && its + 1 < 10 then OuterLoop(p, sf', r.dists, its + 1)
    else Found(sf', r, its + 1)
  }

  /** However the search goes, its scalefactors are in 60..217 and within 60 of each other. */
  lemma {:induction false} SearchKeepsSpread(p: Search, sf: seq<int>, dists: seq<real>, its: nat)
    requires its < 10 && Searching(p, sf, if its == 0 then 32 else 1) && |dists| == ENTRIES
    ensures var f := OuterLoop(p, sf, dists, its);
      |f.sf| == ENTRIES && Spread(p.heads, f.sf) && Within(p.heads, f.sf, 60, 217) && f.rounds <= 10
    decreases 10 - its
  {
    var q := if its == 0 then 32 else 1;
    var r := InnerLoop(p, sf, q, sf[0], dists);
    InnerLoopKeepsSpread(p, sf, q, sf[0], dists);
    OuterStepKeepsSpread(p, r);
    if Changed(p, r, |p.heads|) && its + 1 < 10 {
      SearchKeepsSpread(p, AdjustedTo(p, r, |p.heads|), r.dists, its + 1);
    }
  }

  // ---------- what the writer of scalefactors sees ----------

  predicate Pickable(sf: seq<int>, picked: seq<nat>) {
    forall k :: 0 <= k < |picked| ==> picked[k] < |sf| && sf[picked[k]] >= 0
  }

  /** The scalefactors of a selection of bands, in the order they are written. */
  function Picked(sf: seq<int>, picked: seq<nat>): (r: seq<nat>)
    requires Pickable(sf, picked)
    ensures |r| == |picked| && forall k :: 0 <= k < |picked| ==> r[k] == sf[picked[k]]
  {
    seq(|picked|, k requires 0 <= k < |picked| => sf[picked[k]])
  }

  lemma {:induction false} PreviousIsPicked(heads: seq<nat>, sf: seq<int>, books: seq<nat>, picked: seq<nat>, k: nat)
    requires |heads| > 0 && heads[0] == 0 && Within(heads, sf, 0, 255)
    requires |books| == |picked| && k <= |picked|
    requires forall m :: 0 <= m < |picked| ==> picked[m] in heads && books[m] <= 11
    ensures exists h :: 0 <= h < |heads| && Previous(sf[0], books, Picked(sf, picked), k) == sf[heads[h]]
  {
    if k == 0 {
      assert sf[heads[0]] == sf[0];
    } else if books[k - 1] != 0 {
      var h :| 0 <= h < |heads| && heads[h] == picked[k - 1];
      assert Picked(sf, picked)[k - 1] == sf[heads[h]];
    } else {
      PreviousIsPicked(heads, sf, books, picked, k - 1);
    }
  }

  /** With the first scalefactor as global gain, whatever bands are coded, in whatever
      codebooks: every scalefactor difference has a code word. */
  lemma SpreadIsCodable(heads: seq<nat>, sf: seq<int>, books: seq<nat>, picked: seq<nat>)
    requires |heads| > 0 && heads[0] == 0 && Spread(heads, sf) && Within(heads, sf, 0, 255)
    requires |books| == |picked| && forall m :: 0 <= m < |picked| ==> picked[m] in heads && books[m] <= 11
    ensures CodableScales(sf[0], books, Picked(sf, picked))
  {
    forall k | 0 <= k < |picked|
      ensures Picked(sf, picked)[k] <= 255
      ensures -60 <= Picked(sf, picked)[k] - Previous(sf[0], books, Picked(sf, picked), k) <= 60
    {
      PreviousIsPicked(heads, sf, books, picked, k);
      var h :| 0 <= h < |heads| && Previous(sf[0], books, Picked(sf, picked), k) == sf[heads[h]];
      var m :| 0 <= m < |heads| && heads[m] == picked[k];
      assert sf[heads[m]] - sf[heads[h]] <= MAX_DIFF && sf[heads[h]] - sf[heads[m]] <= MAX_DIFF;
    }
  }

  // ---------- the search in place ----------

  function HeadRow(w: nat, numSwb: nat): (r: seq<nat>)
    ensures |r| == numSwb && forall i :: 0 <= i < numSwb ==> r[i] == 16 * w + i
  {
    seq(numSwb, i requires 0 <= i < numSwb => 16 * w + i)
  }

  /** The flat indices w * 16 + i of the first numSwb bands of the first g window groups. */
  function Heads(groups: seq<nat>, numSwb: nat, g: nat): seq<nat>
    requires g <= |groups|
  {
    if g == 0 then []
    else Heads(groups, numSwb, g - 1) + HeadRow(Windows(groups, g - 1), numSwb)
  }

  lemma {:induction false} HeadAt(groups: seq<nat>, numSwb: nat, g: nat, n: nat, i: nat)
    requires g < n <= |groups| && i < numSwb
    ensures |Heads(groups, numSwb, g)| + i < |Heads(groups, numSwb, n)|
    ensures Heads(groups, numSwb, n)[|Heads(groups, numSwb, g)| + i] == 16 * Windows(groups, g) + i
  {
    if g < n - 1 {
      HeadAt(groups, numSwb, g, n - 1, i);
    }
  }

  /** The window groups as the encoder's group_len array gives them. */
  ghost predicate Grouped(groups: seq<nat>, groupLen: seq<nat>, numWindows: nat) {
    && (forall k :: 0 <= k < |groups| ==> groups[k] > 0)
    && groupLen == GroupLen(groups, |groups|) && numWindows == Windows(groups, |groups|)
  }

  lemma GroupAt(groups: seq<nat>, groupLen: seq<nat>, numWindows: nat, g: nat)
    requires Grouped(groups, groupLen, numWindows) && g <= |groups|
    ensures g < |groups| ==> Windows(groups, g) < |groupLen| && groupLen[Windows(groups, g)] == groups[g]
    ensures g < |groups| <==> Windows(groups, g) < numWindows
  {
    WindowsMonotone(groups, g, |groups|);
    if g < |groups| {
      GroupLenAt(groups, |groups|, g, 0);
      WindowsMonotone(groups, g + 1, |groups|);
    }
  }

  /** One band of the pass; every index into the scalefactor code is in range. */
  method TallyBand(p: Search, sfIdx: array<int>, dists: array<real>, n: nat, tbits: nat, prev: int, minScaler: int)
    returns (tbits': nat, prev': int, minScaler': int)
    requires sfIdx.Length == dists.Length == |p.zeroes| && n < sfIdx.Length && |p.scaleBits| == 121
    requires !Skipped(p, sfIdx[..], n) && prev != -1 ==> -60 <= sfIdx[n] - prev <= 60
    modifies dists
    ensures Tally(tbits', prev', minScaler', dists[..])
         == CountBand(p, sfIdx[..], Tally(tbits, prev, minScaler, old(dists[..])), n)
  {
    tbits', prev', minScaler' := tbits, prev, minScaler;
    if !(p.zeroes[n] || sfIdx[n] >= 218) {
      if sfIdx[n] < minScaler {
        minScaler' := sfIdx[n];
      }
      dists[n] := p.noise(n, sfIdx[n]);
      var bits := p.bits(n, sfIdx[n]);
      if prev != -1 {
        bits := bits + p.scaleBits[sfIdx[n] - prev + SF_ZERO];
      }
      tbits' := tbits + bits;
      prev' := sfIdx[n];
    }
  }

  lemma CountableBand(p: Search, sf: seq<int>, minScaler: int, dists: seq<real>, k: nat)
    requires ValidSearch(p) && k < |p.heads| && |sf| == |dists| == ENTRIES && Spread(p.heads, sf)
    ensures var prev := Count(p, sf, minScaler, dists, k).prev;
      prev != -1 ==> -60 <= sf[p.heads[k]] - prev <= 60
  {
    var prev := Count(p, sf, minScaler, dists, k).prev;
    if prev != -1 {
      var m :| 0 <= m < k && prev == sf[p.heads[m]];
      assert sf[p.heads[m]] - sf[p.heads[k]] <= MAX_DIFF && sf[p.heads[k]] - sf[p.heads[m]] <= MAX_DIFF;
    }
  }

  /** The bands of one window group, from position k of the heads on. */
  ghost predicate RowAt(p: Search, k: nat, w: nat, numSwb: nat) {
    k + numSwb <= |p.heads| && forall m :: k <= m < k + numSwb ==> p.heads[m] == 16 * w + m - k
  }

  lemma RowFits(p: Search, k: nat, w: nat, numSwb: nat)
    requires ValidSearch(p) && RowAt(p, k, w, numSwb)
    ensures k + numSwb <= |p.heads|
  {
  }

  lemma NoHeads(groups: seq<nat>, numSwb: nat)
    ensures Heads(groups, numSwb, 0) == []
  {
  }

  lemma NothingCounted(p: Search, sf: seq<int>, first: int, dists: seq<real>)
    requires ValidSearch(p) && |sf| == |dists| == ENTRIES && Spread(p.heads, sf)
    ensures Count(p, sf, first, dists, 0) == Tally(0, -1, first, dists)
  {
  }

  lemma CountMore(p: Search, sf: seq<int>, first: int, dists: seq<real>, k: nat)
    requires ValidSearch(p) && k < |p.heads| && |sf| == |dists| == ENTRIES && Spread(p.heads, sf)
    requires var t := Count(p, sf, first, dists, k); t.prev != -1 ==> -60 <= sf[p.heads[k]] - t.prev <= 60
    ensures Count(p, sf, first, dists, k + 1) == CountBand(p, sf, Count(p, sf, first, dists, k), p.heads[k])
  {
  }

  lemma RowHead(p: Search, k: nat, w: nat, numSwb: nat, i: nat)
    requires ValidSearch(p) && RowAt(p, k, w, numSwb) && i < numSwb
    ensures k + numSwb <= |p.heads| && p.heads[k + i] == 16 * w + i < ENTRIES
    ensures |p.zeroes| == |p.uplims| == ENTRIES && |p.scaleBits| == 121
  {
  }

  lemma GroupRow(p: Search, groups: seq<nat>, numSwb: nat, g: nat)
    requires p.heads == Heads(groups, numSwb, |groups|) && g < |groups|
    ensures RowAt(p, |Heads(groups, numSwb, g)|, Windows(groups, g), numSwb)
    ensures |Heads(groups, numSwb, g + 1)| == |Heads(groups, numSwb, g)| + numSwb
  {
    if numSwb > 0 {
      HeadAt(groups, numSwb, g, |groups|, numSwb - 1);
    } else {
      HeadsFit(groups, numSwb, g);
    }
    var k := |Heads(groups, numSwb, g)|;
    forall m | k <= m < k + numSwb ensures p.heads[m] == 16 * Windows(groups, g) + m - k {
      HeadAt(groups, numSwb, g, |groups|, m - k);
    }
  }

  lemma {:induction false} HeadsFit(groups: seq<nat>, numSwb: nat, g: nat)
    requires g <= |groups|
    ensures |Heads(groups, numSwb, g)| <= |Heads(groups, numSwb, |groups|)|
    decreases |groups| - g
  {
    if g < |groups| {
      HeadsFit(groups, numSwb, g + 1);
    }
  }

  /** The pass over one window group. */
  method CountGroup(p: Search, sfIdx: array<int>, dists: array<real>, w: nat, numSwb: nat,
                    tbits0: nat, prev0: int, minScaler0: int, ghost first: int, ghost d0: seq<real>, ghost k: nat)
    returns (tbits: nat, prev: int, minScaler: int)
    requires ValidSearch(p) && sfIdx.Length == dists.Length == |d0| == ENTRIES && RowAt(p, k, w, numSwb)
    requires Spread(p.heads, sfIdx[..])
    requires Tally(tbits0, prev0, minScaler0, dists[..]) == Count(p, sfIdx[..], first, d0, k)
    modifies dists
    ensures Tally(tbits, prev, minScaler, dists[..]) == Count(p, sfIdx[..], first, d0, k + numSwb)
  {
    hide CountBand, Count, Spread, ValidSearch, RowAt;
    tbits, prev, minScaler := tbits0, prev0, minScaler0;
    ghost var sf := sfIdx[..];
    RowFits(p, k, w, numSwb);
    for i := 0 to numSwb
      invariant sfIdx[..] == sf
      invariant Tally(tbits, prev, minScaler, dists[..]) == Count(p, sf, first, d0, k + i)
    {
      RowHead(p, k, w, numSwb, i);
      CountableBand(p, sf, first, d0, k + i);
      CountMore(p, sf, first, d0, k + i);
      tbits, prev, minScaler := TallyBand(p, sfIdx, dists, 16 * w + i, tbits, prev, minScaler);
    }
  }

  /** One pass over all bands, recording their distortions. */
  method CountBits(p: Search, sfIdx: array<int>, dists: array<real>, groupLen: seq<nat>, numWindows: nat,
                   numSwb: nat, first: int, ghost groups: seq<nat>) returns (tbits: nat, minScaler: int)
    requires ValidSearch(p) && sfIdx.Length == dists.Length == ENTRIES
    requires Grouped(groups, groupLen, numWindows) && p.heads == Heads(groups, numSwb, |groups|)
    requires Spread(p.heads, sfIdx[..])
    modifies dists
    ensures var t := Count(p, sfIdx[..], first, old(dists[..]), |p.heads|);
      tbits == t.bits && minScaler == t.minScaler && dists[..] == t.dists
  {
    hide Grouped, Count, Heads, Spread, ValidSearch, RowAt;
    ghost var sf, d0 := sfIdx[..], dists[..];
    ghost var g, k := 0, 0;
    var prev := -1;
    var w := 0;
    tbits, minScaler := 0, first;
    NothingCounted(p, sf, first, d0);
    NoHeads(groups, numSwb);
    GroupAt(groups, groupLen, numWindows, 0);
    while w < numWindows
      invariant g <= |groups| && w == Windows(groups, g) && k == |Heads(groups, numSwb, g)| <= |p.heads|
      invariant g < |groups| <==> w < numWindows
      invariant sfIdx[..] == sf
      invariant Tally(tbits, prev, minScaler, dists[..]) == Count(p, sf, first, d0, k)
      decreases |groups| - g
    {
      GroupRow(p, groups, numSwb, g);
      tbits, prev, minScaler := CountGroup(p, sfIdx, dists, w, numSwb, tbits, prev, minScaler, first, d0, k);
      GroupAt(groups, groupLen, numWindows, g);
      w := w + groupLen[w];
      g, k := g + 1, k + numSwb;
      GroupAt(groups, groupLen, numWindows, g);
    }
  }

  /** The shift of all 128 entries. */
  method Shift(sfIdx: array<int>, q: nat, up: bool)
    modifies sfIdx
    ensures sfIdx[..] == Shifted(old(sfIdx[..]), q, up)
  {
    for i := 0 to sfIdx.Length
      invariant forall k :: 0 <= k < sfIdx.Length ==>
        sfIdx[k] == if k < i then Shifted(old(sfIdx[..]), q, up)[k] else old(sfIdx[k])
    {
      if up {
        if sfIdx[i] < 218 - q {
          sfIdx[i] := sfIdx[i] + q;
        }
      } else if sfIdx[i] > 60 - q {
        sfIdx[i] := sfIdx[i] - q;
      }
    }
  }

  lemma InnerLoopStep(p: Search, sf: seq<int>, q: nat, minScaler: int, dists: seq<real>)
    requires Searching(p, sf, q) && Step(q) && |dists| == ENTRIES
    ensures var t := Count(p, sf, minScaler, dists, |p.heads|);
      var sf' := Shifted(sf, q, t.bits > p.destBits);
      var q' := NextStep(q, t.bits, p.destBits, sf'[0]);
      |t.dists| == ENTRIES && (q' != 0 ==> Searching(p, sf', q') && Step(q'))
      && InnerLoop(p, sf, q, minScaler, dists)
         == if q' == 0 then Inner(sf', t.minScaler, t.dists) else InnerLoop(p, sf', q', t.minScaler, t.dists)
  {
    hide Count, Spread, Within;
    var t := Count(p, sf, minScaler, dists, |p.heads|);
    var sf' := Shifted(sf, q, t.bits > p.destBits);
    var q' := NextStep(q, t.bits, p.destBits, sf'[0]);
    ShiftKeepsSearching(p, sf, q, t.bits > p.destBits, q');
  }

  /** The inner loop in place. */
  method FitBits(p: Search, sfIdx: array<int>, dists: array<real>, groupLen: seq<nat>, numWindows: nat,
                 numSwb: nat, start: nat, ghost groups: seq<nat>) returns (minScaler: int)
    requires sfIdx.Length == dists.Length == ENTRIES
    requires Grouped(groups, groupLen, numWindows) && p.heads == Heads(groups, numSwb, |groups|)
    requires Searching(p, sfIdx[..], start) && Step(start)
    modifies sfIdx, dists
    ensures Inner(sfIdx[..], minScaler, dists[..])
         == InnerLoop(p, old(sfIdx[..]), start, old(sfIdx[0]), old(dists[..]))
  {
    hide Spread, Within, Shifted, Heads, Grouped, Count, ValidSearch, InnerLoop;
    ghost var sf0, d0 := sfIdx[..], dists[..];
    minScaler := sfIdx[0];
    var qstep := start;
    while qstep != 0
      invariant qstep == 0 || (Step(qstep) && Searching(p, sfIdx[..], qstep))
      invariant InnerLoop(p, sf0, start, sf0[0], d0)
             == if qstep == 0 then Inner(sfIdx[..], minScaler, dists[..])
                else InnerLoop(p, sfIdx[..], qstep, minScaler, dists[..])
      decreases qstep, Room(sfIdx[0])
    {
      ghost var sf := sfIdx[..];
      InnerLoopStep(p, sf, qstep, minScaler, dists[..]);
      var tbits;
      tbits, minScaler := CountBits(p, sfIdx, dists, groupLen, numWindows, numSwb, minScaler, groups);
      Shift(sfIdx, qstep, tbits > p.destBits);
      ResetMakesProgress(sf, qstep, tbits, p.destBits);
      ghost var q := qstep;
      qstep := qstep / 2;
      if qstep == 0 && tbits as real > p.destBits as real * 1.02 && sfIdx[0] < 217 {
        qstep := 1;
      }
      ShiftKeepsSearching(p, sf, q, tbits > p.destBits, qstep);
    }
  }

  /** The codebook chosen for every band the outer step has adjusted. */
  ghost predicate BooksChosen(p: Search, sf: seq<int>, bandType: seq<nat>, k: nat)
    requires ValidSearch(p) && |sf| == |bandType| == ENTRIES && k <= |p.heads|
  {
    forall m :: 0 <= m < k ==> bandType[p.heads[m]] == p.minBook(p.heads[m], sf[p.heads[m]])
  }

  lemma BooksChosenMore(p: Search, sf: seq<int>, bandType: seq<nat>, k: nat, x: int)
    requires ValidSearch(p) && |sf| == |bandType| == ENTRIES && k < |p.heads|
    requires BooksChosen(p, sf, bandType, k)
    ensures var n := p.heads[k]; BooksChosen(p, sf[n := x], bandType[n := p.minBook(n, x)], k + 1)
  {
  }

  lemma AdjustedMore(p: Search, r: Inner, k: nat)
    requires ValidSearch(p) && k < |p.heads| && |r.sf| == |r.dists| == ENTRIES
    ensures var i := p.heads[k]; var x := Adjusted(p, r.dists[i], Base(r.minScaler), i, r.sf[i]);
      && AdjustedTo(p, r, k)[i] == r.sf[i]
      && AdjustedTo(p, r, k + 1) == AdjustedTo(p, r, k)[i := x]
      && (Changed(p, r, k + 1) <==> Changed(p, r, k) || x != r.sf[i])
  {
    AdjustedAt(p, r, k, k);
  }

  lemma NothingAdjusted(p: Search, r: Inner, bandType: seq<nat>)
    requires ValidSearch(p) && |r.sf| == |r.dists| == |bandType| == ENTRIES
    ensures AdjustedTo(p, r, 0) == r.sf && !Changed(p, r, 0) && BooksChosen(p, r.sf, bandType, 0)
  {
  }

  /** The outer step on one window group. */
  method AdjustGroup(p: Search, sfIdx: array<int>, dists: array<real>, bandType: array<nat>, w: nat, numSwb: nat,
                     base: int, ghost r: Inner, ghost k: nat) returns (changed: bool)
    requires ValidSearch(p) && sfIdx.Length == dists.Length == bandType.Length == |r.sf| == ENTRIES
    requires RowAt(p, k, w, numSwb) && r.dists == dists[..] && base == Base(r.minScaler)
    requires sfIdx[..] == AdjustedTo(p, r, k) && BooksChosen(p, sfIdx[..], bandType[..], k)
    modifies sfIdx, bandType
    ensures sfIdx[..] == AdjustedTo(p, r, k + numSwb) && BooksChosen(p, sfIdx[..], bandType[..], k + numSwb)
    ensures Changed(p, r, k + numSwb) <==> Changed(p, r, k) || changed
  {
    hide Adjusted, AdjustedTo, Changed, BooksChosen, ValidSearch, RowAt;
    changed := false;
    RowFits(p, k, w, numSwb);
    for i := 0 to numSwb
      invariant sfIdx[..] == AdjustedTo(p, r, k + i) && BooksChosen(p, sfIdx[..], bandType[..], k + i)
      invariant Changed(p, r, k + i) <==> Changed(p, r, k) || changed
    {
      RowHead(p, k, w, numSwb, i);
      AdjustedMore(p, r, k + i);
      var n := 16 * w + i;
      ghost var sf, books := sfIdx[..], bandType[..];
      var one := AdjustBand(p, sfIdx, dists[n], bandType, base, n);
      changed := changed || one;
      BooksChosenMore(p, sf, books, k + i, sfIdx[n]);
    }
  }

  /** The outer step in place. */
  method AdjustBands(p: Search, sfIdx: array<int>, dists: array<real>, bandType: array<nat>, groupLen: seq<nat>,
                     numWindows: nat, numSwb: nat, minScaler: int, ghost groups: seq<nat>) returns (fflag: bool)
    requires ValidSearch(p) && sfIdx.Length == dists.Length == bandType.Length == ENTRIES
    requires Grouped(groups, groupLen, numWindows) && p.heads == Heads(groups, numSwb, |groups|)
    modifies sfIdx, bandType
    ensures var r := Inner(old(sfIdx[..]), minScaler, dists[..]);
      sfIdx[..] == AdjustedTo(p, r, |p.heads|) && fflag == Changed(p, r, |p.heads|)
    ensures BooksChosen(p, sfIdx[..], bandType[..], |p.heads|)
  {
    hide Grouped, Heads, Adjusted, AdjustedTo, Changed, BooksChosen, ValidSearch, RowAt;
    ghost var r := Inner(sfIdx[..], minScaler, dists[..]);
    ghost var g, k := 0, 0;
    var base := Base(minScaler);
    var w := 0;
    fflag := false;
    NothingAdjusted(p, r, bandType[..]);
    NoHeads(groups, numSwb);
    GroupAt(groups, groupLen, numWindows, 0);
    while w < numWindows
      invariant g <= |groups| && w == Windows(groups, g) && k == |Heads(groups, numSwb, g)| <= |p.heads|
      invariant g < |groups| <==> w < numWindows
      invariant sfIdx[..] == AdjustedTo(p, r, k) && fflag == Changed(p, r, k)
      invariant BooksChosen(p, sfIdx[..], bandType[..], k)
      decreases |groups| - g
    {
      GroupRow(p, groups, numSwb, g);
      var changed := AdjustGroup(p, sfIdx, dists, bandType, w, numSwb, base, r, k);
      fflag := fflag || changed;
      GroupAt(groups, groupLen, numWindows, g);
      w := w + groupLen[w];
      g, k := g + 1, k + numSwb;
      GroupAt(groups, groupLen, numWindows, g);
    }
  }

  /** One band of the outer step. */
  method AdjustBand(p: Search, sfIdx: array<int>, dist: real, bandType: array<nat>, base: int, n: nat)
    returns (changed: bool)
    requires sfIdx.Length == bandType.Length == |p.uplims| && n < sfIdx.Length
    modifies sfIdx, bandType
    ensures sfIdx[..] == old(sfIdx[..])[n := Adjusted(p, dist, base, n, old(sfIdx[n]))]
    ensures bandType[..] == old(bandType[..])[n := p.minBook(n, sfIdx[n])]
    ensures changed <==> sfIdx[n] != old(sfIdx[n])
  {
    var prevsc := sfIdx[n];
    if dist > p.uplims[n] && sfIdx[n] > 60 {
      if p.minBook(n, sfIdx[n] - 1) != 0 {
        sfIdx[n] := sfIdx[n] - 1;
      } else {
        sfIdx[n] := sfIdx[n] - 2;
      }
    }
    sfIdx[n] := Limit(sfIdx[n], base, base + MAX_DIFF);
    sfIdx[n] := if sfIdx[n] < 219 then sfIdx[n] else 219;
    changed := sfIdx[n] != prevsc;
    bandType[n] := p.minBook(n, sfIdx[n]);
  }

  /** One round of the outer loop. */
  lemma OuterLoopStep(p: Search, sf: seq<int>, dists: seq<real>, its: nat)
    requires its < 10 && Searching(p, sf, if its == 0 then 32 else 1) && |dists| == ENTRIES
    ensures var q := if its == 0 then 32 else 1;
      var r := InnerLoop(p, sf, q, sf[0], dists);
      && Searching(p, r.sf, 0) && |r.dists| == ENTRIES
      && var sf' := AdjustedTo(p, r, |p.heads|);
         var more := Changed(p, r, |p.heads|) && its + 1 < 10;
         && (more ==> Searching(p, sf', 1))
         && OuterLoop(p, sf, dists, its).sf == if more then OuterLoop(p, sf', r.dists, its + 1).sf else sf'
  {
    hide InnerLoop, Spread, Changed, AdjustedTo;
    var q := if its == 0 then 32 else 1;
    var r := InnerLoop(p, sf, q, sf[0], dists);
    InnerLoopKeepsSpread(p, sf, q, sf[0], dists);
    OuterStepKeepsSpread(p, r);
  }

  /** The two-loop search in place: it ends with the scalefactors of the specification, in
      60..217 and within 60 of each other, and with the codebook of every band chosen for its
      final scalefactor. */
  method SearchForQuantizers(p: Search, sfIdx: array<int>, dists: array<real>, bandType: array<nat>,
                             groupLen: seq<nat>, numWindows: nat, numSwb: nat, ghost groups: seq<nat>)
    requires sfIdx.Length == dists.Length == bandType.Length == ENTRIES
    requires Grouped(groups, groupLen, numWindows) && p.heads == Heads(groups, numSwb, |groups|)
    requires Searching(p, sfIdx[..], 32)
    modifies sfIdx, dists, bandType
    ensures sfIdx[..] == OuterLoop(p, old(sfIdx[..]), old(dists[..]), 0).sf
    ensures Spread(p.heads, sfIdx[..]) && Within(p.heads, sfIdx[..], 60, 217)
    ensures BooksChosen(p, sfIdx[..], bandType[..], |p.heads|)
  {
    hide InnerLoop, OuterLoop, Changed, AdjustedTo, BooksChosen, Spread, Within, Grouped, Heads, ValidSearch;
    ghost var sf0, d0 := sfIdx[..], dists[..];
    SearchKeepsSpread(p, sf0, d0, 0);
    var its := 0;
    var fflag := true;
    while fflag && its < 10
      invariant its <= 10 && (its == 0 ==> fflag)
      invariant fflag && its < 10 ==> Searching(p, sfIdx[..], if its == 0 then 32 else 1)
      invariant OuterLoop(p, sf0, d0, 0).sf
             == if fflag && its < 10 then OuterLoop(p, sfIdx[..], dists[..], its).sf else sfIdx[..]
      invariant its > 0 ==> BooksChosen(p, sfIdx[..], bandType[..], |p.heads|)
      decreases 10 - its
    {
      OuterLoopStep(p, sfIdx[..], dists[..], its);
      var minScaler := FitBits(p, sfIdx, dists, groupLen, numWindows, numSwb, if its == 0 then 32 else 1, groups);
      fflag := AdjustBands(p, sfIdx, dists, bandType, groupLen, numWindows, numSwb, minScaler, groups);
      its := its + 1;
    }
  }

  // ---------- silent bands and the first scalefactors ----------

  /** What the psychoacoustic model says of one band of one window. */
  datatype Psy = Psy(energy: real, threshold: real)

  predicate Silent(b: Psy) {
    b.energy <= b.threshold || b.threshold == 0.0
  }

  ghost predicate ValidPsy(bands: seq<Psy>) {
    |bands| == ENTRIES && forall i :: 0 <= i < |bands| ==> bands[i].threshold >= 0.0
  }

  /** Is band h heard in one of the first n windows of its group? */
  predicate Loud(bands: seq<Psy>, h: nat, n: nat)
    requires n == 0 || h + 16 * (n - 1) < |bands|
  {
    n > 0 && (Loud(bands, h, n - 1) || !Silent(bands[h + 16 * (n - 1)]))
  }

  /** The noise allowed in the band: the thresholds of its windows. */
  function Allowance(bands: seq<Psy>, h: nat, n: nat): real
    requires n == 0 || h + 16 * (n - 1) < |bands|
  {
    if n == 0 then 0.0 else Allowance(bands, h, n - 1) + bands[h + 16 * (n - 1)].threshold
  }

  lemma {:induction false} LoudAllowance(bands: seq<Psy>, h: nat, n: nat)
    requires ValidPsy(bands) && (n == 0 || h + 16 * (n - 1) < |bands|)
    ensures Allowance(bands, h, n) >= 0.0 && (Loud(bands, h, n) ==> Allowance(bands, h, n) > 0.0)
  {
    if n > 0 {
      LoudAllowance(bands, h, n - 1);
    }
  }

  /** The entries of band h in the windows of its group. */
  predicate Covers(h: nat, len: nat, j: int) {
    j >= h && (j - h) % 16 == 0 && (j - h) / 16 < len
  }

  /** The windows of one band: silent ones are flagged. */
  method JudgeBand(bands: seq<Psy>, zeroes: array<bool>, h: nat, len: nat) returns (nz: bool, uplim: real)
    requires zeroes.Length == |bands| && len > 0 && h + 16 * (len - 1) < |bands|
    modifies zeroes
    ensures nz == Loud(bands, h, len) && uplim == Allowance(bands, h, len)
    ensures forall j :: 0 <= j < zeroes.Length ==>
      zeroes[j] == (old(zeroes[j]) || (Covers(h, len, j) && Silent(bands[j])))
  {
    nz, uplim := false, 0.0;
    for w2 := 0 to len
      invariant nz == Loud(bands, h, w2) && uplim == Allowance(bands, h, w2)
      invariant forall j :: 0 <= j < zeroes.Length ==>
        zeroes[j] == (old(zeroes[j]) || (Covers(h, w2, j) && Silent(bands[j])))
    {
      var j := h + 16 * w2;
      uplim := uplim + bands[j].threshold;
      if Silent(bands[j]) {
        zeroes[j] := true;
      } else {
        nz := true;
      }
    }
  }

  /** Lengths of the groups of the heads, in the same order. */
  function Lens(groups: seq<nat>, numSwb: nat, g: nat): seq<nat>
    requires g <= |groups|
  {
    if g == 0 then [] else Lens(groups, numSwb, g - 1) + seq(numSwb, _ => groups[g - 1])
  }

  lemma {:induction false} LensOfHeads(groups: seq<nat>, numSwb: nat, g: nat)
    requires g <= |groups|
    ensures |Lens(groups, numSwb, g)| == |Heads(groups, numSwb, g)|
  {
    if g > 0 {
      LensOfHeads(groups, numSwb, g - 1);
    }
  }

  lemma {:induction false} LenAt(groups: seq<nat>, numSwb: nat, g: nat, n: nat, i: nat)
    requires g < n <= |groups| && i < numSwb
    ensures |Lens(groups, numSwb, g)| + i < |Lens(groups, numSwb, n)|
    ensures Lens(groups, numSwb, n)[|Lens(groups, numSwb, g)| + i] == groups[g]
  {
    if g < n - 1 {
      LenAt(groups, numSwb, g, n - 1, i);
    }
  }

  /** Long windows have one group of one window; short windows at most 16 bands. */
  ghost predicate Geometry(groups: seq<nat>, numSwb: nat) {
    && (forall k :: 0 <= k < |groups| ==> groups[k] > 0)
    && ((groups == [1] && 0 < numSwb <= ENTRIES) || (0 < numSwb <= 16 && Windows(groups, |groups|) == 8))
  }

  /** Two bands have no entry in common. */
  ghost predicate Disjoint(h: nat, len: nat, h': nat, len': nat) {
    forall j :: Covers(h, len, j) ==> !Covers(h', len', j)
  }

  /** The windows of a band have no entry in common with those of an earlier band. */
  lemma EarlierHeadDisjoint(groups: seq<nat>, numSwb: nat, g: nat, i: nat, m: nat)
    requires Geometry(groups, numSwb) && g < |groups| && i < numSwb && m < |Heads(groups, numSwb, g)| + i
    ensures m < |Heads(groups, numSwb, |groups|)| && m < |Lens(groups, numSwb, |groups|)|
    ensures Disjoint(16 * Windows(groups, g) + i, groups[g], Heads(groups, numSwb, |groups|)[m],
                     Lens(groups, numSwb, |groups|)[m])
  {
    hide Disjoint, Heads, Lens, Geometry, Windows;
    PositiveGroups(groups, numSwb);
    LensOfHeads(groups, numSwb, g);
    var k := |Heads(groups, numSwb, g)|;
    var g', i' := g, m - k;
    if m < k {
      g', i' := HeadIs(groups, numSwb, g, m);
      LensOfHeads(groups, numSwb, g');
    }
    HeadAt(groups, numSwb, g', |groups|, i');
    LenAt(groups, numSwb, g', |groups|, i');
    if numSwb > 16 {
      LongHasOneGroup(groups, numSwb, g);
      NoHeads(groups, numSwb);
      OneWindowDisjoint(16 * Windows(groups, g) + i, 16 * Windows(groups, g') + i');
    } else if m < k {
      WindowsMonotone(groups, g' + 1, g);
      NextWindows(groups, g');
      EarlierDisjoint(Windows(groups, g), groups[g], i, Windows(groups, g'), groups[g'], i');
    } else {
      SameWindowDisjoint(Windows(groups, g), groups[g], i, i');
    }
  }

  lemma NextWindows(groups: seq<nat>, g: nat)
    requires g < |groups|
    ensures Windows(groups, g + 1) == Windows(groups, g) + groups[g]
  {
  }

  lemma EntryOf(w: nat, len: nat, i: nat, j: int)
    requires Covers(16 * w + i, len, j) && i < 16
    ensures j % 16 == i && w <= j / 16 < w + len
  {
  }

  lemma EarlierDisjoint(w: nat, len: nat, i: nat, w': nat, len': nat, i': nat)
    requires w' + len' <= w && i < 16 && i' < 16
    ensures Disjoint(16 * w + i, len, 16 * w' + i', len')
  {
    hide Covers;
    var h, h' := 16 * w + i, 16 * w' + i';
    forall j | Covers(h, len, j) ensures !Covers(h', len', j) {
      EntryOf(w, len, i, j);
      if Covers(h', len', j) {
        EntryOf(w', len', i', j);
      }
    }
  }

  lemma SameWindowDisjoint(w: nat, len: nat, i: nat, i': nat)
    requires i' < i < 16
    ensures Disjoint(16 * w + i, len, 16 * w + i', len)
  {
    hide Covers;
    var h, h' := 16 * w + i, 16 * w + i';
    forall j | Covers(h, len, j) ensures !Covers(h', len, j) {
      EntryOf(w, len, i, j);
      if Covers(h', len, j) {
        EntryOf(w, len, i', j);
      }
    }
  }

  lemma OneWindowDisjoint(h: nat, h': nat)
    requires h' != h
    ensures Disjoint(h, 1, h', 1)
  {
  }

  lemma PositiveGroups(groups: seq<nat>, numSwb: nat)
    requires Geometry(groups, numSwb)
    ensures forall k :: 0 <= k < |groups| ==> groups[k] > 0
  {
  }

  lemma LongHasOneGroup(groups: seq<nat>, numSwb: nat, g: nat)
    requires Geometry(groups, numSwb) && g < |groups| && numSwb > 16
    ensures g == 0 && groups[g] == 1
  {
  }

  lemma GroupInside(groups: seq<nat>, numSwb: nat, g: nat, i: nat)
    requires Geometry(groups, numSwb) && g < |groups| && i < numSwb
    ensures 16 * Windows(groups, g) + i + 16 * (groups[g] - 1) < ENTRIES
  {
    WindowsMonotone(groups, g + 1, |groups|);
    assert Windows(groups, 0) == 0;
  }

  /** Are bands and heads such that every window of a head lies inside the arrays? */
  ghost predicate HeadsInside(bands: seq<Psy>, heads: seq<nat>, lens: seq<nat>) {
    && ValidPsy(bands) && |heads| == |lens|
    && forall m :: 0 <= m < |heads| ==> lens[m] > 0 && heads[m] + 16 * (lens[m] - 1) < ENTRIES
  }

  ghost predicate LoudHead(bands: seq<Psy>, heads: seq<nat>, lens: seq<nat>, m: nat)
    requires HeadsInside(bands, heads, lens) && m < |heads|
  {
    Loud(bands, heads[m], lens[m])
  }

  /** All windows of the band are flagged as silent. */
  ghost predicate AllFlagged(zeroes: seq<bool>, h: nat, len: nat) {
    forall j :: 0 <= j < |zeroes| && Covers(h, len, j) ==> zeroes[j]
  }

  /** Band m is flagged as its windows say, in all its windows when it is silent, and its limit is
      512 times its allowance. */
  ghost predicate JudgedHead(bands: seq<Psy>, heads: seq<nat>, lens: seq<nat>, zeroes: seq<bool>, uplims: seq<real>,
                             m: nat)
    requires HeadsInside(bands, heads, lens) && m < |heads| && |zeroes| == |uplims| == ENTRIES
  {
    && zeroes[heads[m]] == !LoudHead(bands, heads, lens, m)
    && (!LoudHead(bands, heads, lens, m) ==> AllFlagged(zeroes, heads[m], lens[m]))
    && uplims[heads[m]] == Allowance(bands, heads[m], lens[m]) * 512.0
  }

  /** The least allowance of the first k bands that are heard. */
  ghost predicate Least(bands: seq<Psy>, heads: seq<nat>, lens: seq<nat>, minthr: Option<real>, k: nat)
    requires HeadsInside(bands, heads, lens) && k <= |heads|
  {
    match minthr
    case None => forall m :: 0 <= m < k ==> !LoudHead(bands, heads, lens, m)
    case Some(v) =>
      && (exists m :: 0 <= m < k && LoudHead(bands, heads, lens, m) && v == Allowance(bands, heads[m], lens[m]))
      && forall m :: 0 <= m < k && LoudHead(bands, heads, lens, m) ==> v <= Allowance(bands, heads[m], lens[m])
  }

  ghost predicate Judged(bands: seq<Psy>, heads: seq<nat>, lens: seq<nat>, zeroes: seq<bool>, uplims: seq<real>,
                         minthr: Option<real>, k: nat)
    requires HeadsInside(bands, heads, lens) && k <= |heads| && |zeroes| == |uplims| == ENTRIES
  {
    && (forall m :: 0 <= m < k ==> JudgedHead(bands, heads, lens, zeroes, uplims, m))
    && Least(bands, heads, lens, minthr, k)
  }

  function Lesser(minthr: Option<real>, uplim: real): Option<real> {
    if minthr.Some? && minthr.value < uplim then minthr else Some(uplim)
  }

  /** The entries of a band are unchanged. */
  ghost predicate SameEntries(z: seq<bool>, u: seq<real>, z': seq<bool>, u': seq<real>, h: nat, len: nat)
    requires |z| == |u| == |z'| == |u'|
  {
    forall j :: 0 <= j < |z| && Covers(h, len, j) ==> z'[j] == z[j] && u'[j] == u[j]
  }

  lemma JudgedMore(bands: seq<Psy>, heads: seq<nat>, lens: seq<nat>, z: seq<bool>, u: seq<real>, minthr: Option<real>,
                   k: nat, z': seq<bool>, u': seq<real>, minthr': Option<real>)
    requires HeadsInside(bands, heads, lens) && k < |heads| && |z| == |u| == |z'| == |u'| == ENTRIES
    requires Judged(bands, heads, lens, z, u, minthr, k)
    requires forall m :: 0 <= m < k ==> SameEntries(z, u, z', u', heads[m], lens[m])
    requires JudgedHead(bands, heads, lens, z', u', k)
    requires minthr'
        == if LoudHead(bands, heads, lens, k) then Lesser(minthr, Allowance(bands, heads[k], lens[k])) else minthr
    ensures Judged(bands, heads, lens, z', u', minthr', k + 1)
  {
    forall m | 0 <= m < k ensures JudgedHead(bands, heads, lens, z', u', m) {
      assert JudgedHead(bands, heads, lens, z, u, m);
      assert SameEntries(z, u, z', u', heads[m], lens[m]);
      HeadCovered(heads[m], lens[m]);
    }
  }

  /** The group's part of heads and lens, from position k on. */
  ghost predicate GroupPart(heads: seq<nat>, lens: seq<nat>, k: nat, w: nat, len: nat, numSwb: nat) {
    && k + numSwb <= |heads| == |lens|
    && (forall m :: k <= m < k + numSwb ==> heads[m] == 16 * w + m - k && lens[m] == len)
    && (forall m, n :: 0 <= m < n < k + numSwb && k <= n ==> Disjoint(heads[n], lens[n], heads[m], lens[m]))
  }

  /** The silent flags and noise limits of one window group. */
  method JudgeGroup(bands: seq<Psy>, zeroes: array<bool>, uplims: array<real>, w: nat, len: nat, numSwb: nat,
                    minthr0: Option<real>, ghost heads: seq<nat>, ghost lens: seq<nat>, ghost k: nat)
    returns (minthr: Option<real>)
    requires HeadsInside(bands, heads, lens) && zeroes.Length == uplims.Length == ENTRIES
    requires GroupPart(heads, lens, k, w, len, numSwb)
    requires Judged(bands, heads, lens, zeroes[..], uplims[..], minthr0, k)
    modifies zeroes, uplims
    ensures Judged(bands, heads, lens, zeroes[..], uplims[..], minthr, k + numSwb)
  {
    hide Judged, Covers, Loud, Allowance, Silent, Least;
    minthr := minthr0;
    for i := 0 to numSwb
      invariant Judged(bands, heads, lens, zeroes[..], uplims[..], minthr, k + i)
    {
      ghost var z, u, m0 := zeroes[..], uplims[..], minthr;
      ghost var n := k + i;
      assert heads[n] == 16 * w + i && lens[n] == len;
      minthr := JudgeHead(bands, zeroes, uplims, 16 * w + i, len, minthr);
      HeadCovered(16 * w + i, len);
      JudgedMore(bands, heads, lens, z, u, m0, n, zeroes[..], uplims[..], minthr);
    }
  }

  lemma HeadCovered(h: nat, len: nat)
    requires len > 0
    ensures Covers(h, len, h)
  {
  }

  /** One band: its windows judged, then its own flag and limit. */
  method JudgeHead(bands: seq<Psy>, zeroes: array<bool>, uplims: array<real>, h: nat, len: nat, minthr0: Option<real>)
    returns (minthr: Option<real>)
    requires |bands| == zeroes.Length == uplims.Length == ENTRIES && len > 0 && h + 16 * (len - 1) < ENTRIES
    modifies zeroes, uplims
    ensures forall j :: 0 <= j < ENTRIES && !Covers(h, len, j)
                        ==> zeroes[j] == old(zeroes[j]) && uplims[j] == old(uplims[j])
    ensures zeroes[h] == !Loud(bands, h, len) && uplims[h] == Allowance(bands, h, len) * 512.0
    ensures !Loud(bands, h, len) ==> AllFlagged(zeroes[..], h, len)
    ensures minthr == if Loud(bands, h, len) then Lesser(minthr0, Allowance(bands, h, len)) else minthr0
  {
    var nz, uplim := JudgeBand(bands, zeroes, h, len);
    minthr := minthr0;
    uplims[h] := uplim * 512.0;
    zeroes[h] := !nz;
    if nz {
      minthr := Lesser(minthr, uplim);
    } else {
      forall j | Covers(h, len, j) ensures Silent(bands[j]) {
        QuietWindow(bands, h, len, (j - h) / 16);
      }
    }
  }

  lemma {:induction false} QuietWindow(bands: seq<Psy>, h: nat, n: nat, k: nat)
    requires (n == 0 || h + 16 * (n - 1) < |bands|) && !Loud(bands, h, n) && k < n
    ensures Silent(bands[h + 16 * k])
  {
    if k < n - 1 {
      QuietWindow(bands, h, n - 1, k);
    }
  }

  lemma GroupPartAt(groups: seq<nat>, numSwb: nat, g: nat)
    requires Geometry(groups, numSwb) && g < |groups|
    ensures GroupPart(Heads(groups, numSwb, |groups|), Lens(groups, numSwb, |groups|), |Heads(groups, numSwb, g)|,
                      Windows(groups, g), groups[g], numSwb)
  {
    var heads, lens, k := Heads(groups, numSwb, |groups|), Lens(groups, numSwb, |groups|), |Heads(groups, numSwb, g)|;
    LensOfHeads(groups, numSwb, g);
    LensOfHeads(groups, numSwb, |groups|);
    HeadAt(groups, numSwb, g, |groups|, numSwb - 1);
    forall m | k <= m < k + numSwb ensures heads[m] == 16 * Windows(groups, g) + m - k && lens[m] == groups[g] {
      HeadAt(groups, numSwb, g, |groups|, m - k);
      LenAt(groups, numSwb, g, |groups|, m - k);
    }
    forall m, n | 0 <= m < n < k + numSwb && k <= n ensures Disjoint(heads[n], lens[n], heads[m], lens[m]) {
      EarlierHeadDisjoint(groups, numSwb, g, n - k, m);
    }
  }

  lemma NothingJudged(bands: seq<Psy>, heads: seq<nat>, lens: seq<nat>, z: seq<bool>, u: seq<real>)
    requires HeadsInside(bands, heads, lens) && |z| == |u| == ENTRIES
    ensures Judged(bands, heads, lens, z, u, None, 0)
  {
  }

  lemma {:induction false} HeadsAreInside(bands: seq<Psy>, groups: seq<nat>, numSwb: nat)
    requires Geometry(groups, numSwb) && ValidPsy(bands)
    ensures HeadsInside(bands, Heads(groups, numSwb, |groups|), Lens(groups, numSwb, |groups|))
  {
    LensOfHeads(groups, numSwb, |groups|);
    var heads, lens := Heads(groups, numSwb, |groups|), Lens(groups, numSwb, |groups|);
    forall m | 0 <= m < |heads| ensures lens[m] > 0 && heads[m] + 16 * (lens[m] - 1) < ENTRIES {
      var g, i := HeadIs(groups, numSwb, |groups|, m);
      LensOfHeads(groups, numSwb, g);
      HeadAt(groups, numSwb, g, |groups|, i);
      LenAt(groups, numSwb, g, |groups|, i);
      GroupInside(groups, numSwb, g, i);
    }
  }

  /** Every head is band i of some group g. */
  lemma {:induction false} HeadIs(groups: seq<nat>, numSwb: nat, n: nat, m: nat) returns (g: nat, i: nat)
    requires n <= |groups| && m < |Heads(groups, numSwb, n)|
    ensures g < n && i < numSwb && m == |Heads(groups, numSwb, g)| + i
  {
    var k := |Heads(groups, numSwb, n - 1)|;
    if m < k {
      g, i := HeadIs(groups, numSwb, n - 1, m);
    } else {
      g, i := n - 1, m - k;
    }
  }

  /** All bands: which are silent, and how much noise the others may have. */
  method JudgeBands(bands: seq<Psy>, zeroes: array<bool>, uplims: array<real>, groupLen: seq<nat>, numWindows: nat,
                    numSwb: nat, ghost groups: seq<nat>) returns (minthr: Option<real>)
    requires Geometry(groups, numSwb) && Grouped(groups, groupLen, numWindows) && ValidPsy(bands)
    requires zeroes.Length == uplims.Length == ENTRIES
    modifies zeroes, uplims
    ensures var heads, lens := Heads(groups, numSwb, |groups|), Lens(groups, numSwb, |groups|);
      && HeadsInside(bands, heads, lens)
      && Judged(bands, heads, lens, zeroes[..], uplims[..], minthr, |heads|)
  {
    hide Grouped, Heads, Lens, Judged, HeadsInside, GroupPart, Geometry;
    HeadsAreInside(bands, groups, numSwb);
    ghost var heads, lens := Heads(groups, numSwb, |groups|), Lens(groups, numSwb, |groups|);
    ghost var g, k := 0, 0;
    var w := 0;
    minthr := None;
    NothingJudged(bands, heads, lens, zeroes[..], uplims[..]);
    NoHeads(groups, numSwb);
    GroupAt(groups, groupLen, numWindows, 0);
    while w < numWindows
      invariant g <= |groups| && w == Windows(groups, g) && k == |Heads(groups, numSwb, g)| <= |heads|
      invariant g < |groups| <==> w < numWindows
      invariant Judged(bands, heads, lens, zeroes[..], uplims[..], minthr, k)
      decreases |groups| - g
    {
      GroupAt(groups, groupLen, numWindows, g);
      GroupPartAt(groups, numSwb, g);
      HeadsGrow(groups, numSwb, g);
      minthr := JudgeGroup(bands, zeroes, uplims, w, groupLen[w], numSwb, minthr, heads, lens, k);
      w := w + groupLen[w];
      g, k := g + 1, k + numSwb;
      GroupAt(groups, groupLen, numWindows, g);
    }
  }

  lemma HeadsGrow(groups: seq<nat>, numSwb: nat, g: nat)
    requires g < |groups|
    ensures |Heads(groups, numSwb, g + 1)| == |Heads(groups, numSwb, g)| + numSwb <= |Heads(groups, numSwb, |groups|)|
  {
    HeadsFit(groups, numSwb, g + 1);
  }

  /** 140 for a silent band; else higher the more noise the band may have, by at most 59. */
  function FirstScale(zero: bool, uplim: real, minthr: Option<real>, steps: real -> int): int {
    if zero || minthr.None? || minthr.value == 0.0 then SCALE_ONE
    else
      var s := steps(uplim / minthr.value);
      SCALE_ONE + if s < 59 then s else 59
  }

  ghost predicate Started(heads: seq<nat>, sf: seq<int>, zeroes: seq<bool>, uplims: seq<real>, minthr: Option<real>,
                          steps: real -> int, k: nat)
    requires |sf| == |zeroes| == |uplims| && k <= |heads| && forall m :: 0 <= m < k ==> heads[m] < |sf|
  {
    forall m :: 0 <= m < k ==> sf[heads[m]] == FirstScale(zeroes[heads[m]], uplims[heads[m]], minthr, steps)
  }

  /** The first scalefactors of all bands. */
  method StartScales(sfIdx: array<int>, zeroes: array<bool>, uplims: array<real>, minthr: Option<real>,
                     steps: real -> int, groupLen: seq<nat>, numWindows: nat, numSwb: nat, ghost groups: seq<nat>)
    requires Geometry(groups, numSwb) && Grouped(groups, groupLen, numWindows)
    requires sfIdx.Length == zeroes.Length == uplims.Length == ENTRIES
    modifies sfIdx
    ensures var heads := Heads(groups, numSwb, |groups|);
      (forall m :: 0 <= m < |heads| ==> heads[m] < ENTRIES)
          && Started(heads, sfIdx[..], zeroes[..], uplims[..], minthr, steps, |heads|)
  {
    hide Grouped, Heads, FirstScale, Geometry;
    ghost var heads := Heads(groups, numSwb, |groups|);
    DistinctHeads(groups, numSwb);
    ghost var g, k := 0, 0;
    var w := 0;
    NoHeads(groups, numSwb);
    GroupAt(groups, groupLen, numWindows, 0);
    while w < numWindows
      invariant g <= |groups| && w == Windows(groups, g) && k == |Heads(groups, numSwb, g)| <= |heads|
      invariant g < |groups| <==> w < numWindows
      invariant Started(heads, sfIdx[..], zeroes[..], uplims[..], minthr, steps, k)
      decreases |groups| - g
    {
      GroupAt(groups, groupLen, numWindows, g);
      HeadsGrow(groups, numSwb, g);
      for i := 0 to numSwb
        invariant k == |Heads(groups, numSwb, g)| + i && k <= |heads|
        invariant Started(heads, sfIdx[..], zeroes[..], uplims[..], minthr, steps, k)
      {
        HeadAt(groups, numSwb, g, |groups|, i);
        var n := 16 * w + i;
        sfIdx[n] := FirstScale(zeroes[n], uplims[n], minthr, steps);
        k := k + 1;
      }
      w := w + groupLen[w];
      g := g + 1;
      GroupAt(groups, groupLen, numWindows, g);
    }
  }

  lemma DistinctHeads(groups: seq<nat>, numSwb: nat)
    requires Geometry(groups, numSwb)
    ensures var heads := Heads(groups, numSwb, |groups|);
      && |heads| > 0 && heads[0] == 0
      && (forall m :: 0 <= m < |heads| ==> heads[m] < ENTRIES)
      && (forall m, n :: 0 <= m < n < |heads| ==> heads[m] != heads[n])
  {
    var heads := Heads(groups, numSwb, |groups|);
    assert |groups| > 0;
    HeadAt(groups, numSwb, 0, |groups|, 0);
    forall m, n | 0 <= m < n < |heads| ensures heads[m] != heads[n] {
      var g, i := HeadIs(groups, numSwb, |groups|, n);
      EarlierHeadDisjoint(groups, numSwb, g, i, m);
      HeadAt(groups, numSwb, g, |groups|, i);
      HeadCovered(heads[n], groups[g]);
      var g', i' := HeadIs(groups, numSwb, |groups|, m);
      HeadAt(groups, numSwb, g', |groups|, i');
      LensOfHeads(groups, numSwb, g');
      LenAt(groups, numSwb, g', |groups|, i');
      HeadCovered(heads[m], groups[g']);
    }
    forall m | 0 <= m < |heads| ensures heads[m] < ENTRIES {
      var g, i := HeadIs(groups, numSwb, |groups|, m);
      HeadAt(groups, numSwb, g, |groups|, i);
      GroupInside(groups, numSwb, g, i);
    }
  }

  /** The limit of a band is at least 512 times the least allowance, so if the logarithm of a
      ratio of 512 or more is not negative, every first scalefactor is in 140..199. */
  lemma StartIsWithin(bands: seq<Psy>, heads: seq<nat>, lens: seq<nat>, sf: seq<int>, zeroes: seq<bool>,
                      uplims: seq<real>, minthr: Option<real>, steps: real -> int)
    requires HeadsInside(bands, heads, lens) && |sf| == |zeroes| == |uplims| == ENTRIES
    requires Judged(bands, heads, lens, zeroes, uplims, minthr, |heads|)
    requires Started(heads, sf, zeroes, uplims, minthr, steps, |heads|)
    requires forall r: real :: r >= 512.0 ==> steps(r) >= 0
    ensures Within(heads, sf, 140, 199) && Spread(heads, sf)
  {
    forall m | 0 <= m < |heads| ensures 140 <= sf[heads[m]] <= 199 {
      assert JudgedHead(bands, heads, lens, zeroes, uplims, m);
      if LoudHead(bands, heads, lens, m) && minthr.Some? {
        var n :| 0 <= n < |heads| && LoudHead(bands, heads, lens, n)
            && minthr.value == Allowance(bands, heads[n], lens[n]);
        LoudAllowance(bands, heads[n], lens[n]);
        RatioBound(uplims[heads[m]], minthr.value);
      }
    }
  }

  lemma RatioBound(u: real, v: real)
    requires v > 0.0 && u >= v * 512.0
    ensures u / v >= 512.0
  {
  }

  /** What the floating-point code tells the search: bits and distortion of a band at a
      scalefactor, the least codebook that holds it, and the steps of a ratio of limits. */
  datatype Coder = Coder(bits: (nat, int) -> nat, noise: (nat, int) -> real, minBook: (nat, int) -> nat,
                         steps: real -> int)

  /** The whole search on the encoder's arrays. Whatever the psychoacoustic model, the bit
      counts and the distortions say, it ends with all scalefactors in 60..217 and any two
      within 60 of each other; with every band silent they are all 140. */
  method SearchTwoLoop(bands: seq<Psy>, coder: Coder, scaleBits: seq<nat>, destBits: int, sfIdx: array<int>,
                       zeroes: array<bool>, bandType: array<nat>, groupLen: seq<nat>, numWindows: nat, numSwb: nat,
                       ghost groups: seq<nat>)
    returns (ghost p: Search, ghost first: seq<int>, minthr: Option<real>)
    requires Geometry(groups, numSwb) && Grouped(groups, groupLen, numWindows) && ValidPsy(bands)
    requires sfIdx.Length == zeroes.Length == bandType.Length == ENTRIES && |scaleBits| == 121
    requires forall r: real :: r >= 512.0 ==> coder.steps(r) >= 0
    modifies sfIdx, zeroes, bandType
    ensures p == Search(Heads(groups, numSwb, |groups|), zeroes[..], p.uplims, destBits, coder.bits, coder.noise,
                        coder.minBook, scaleBits)
    ensures var lens := Lens(groups, numSwb, |groups|);
      && HeadsInside(bands, p.heads, lens) && |p.uplims| == |first| == ENTRIES && ValidSearch(p)
      && Judged(bands, p.heads, lens, zeroes[..], p.uplims, minthr, |p.heads|)
      && Started(p.heads, first, zeroes[..], p.uplims, minthr, coder.steps, |p.heads|)
    ensures if minthr.None? then sfIdx[..] == first && bandType[..] == old(bandType[..])
            else Searching(p, first, 32) && sfIdx[..] == OuterLoop(p, first, NoDistortion(), 0).sf
                 && BooksChosen(p, sfIdx[..], bandType[..], |p.heads|)
    ensures Spread(p.heads, sfIdx[..]) && Within(p.heads, sfIdx[..], 60, 217)
  {
    hide Geometry, Grouped, Heads, Lens, Judged, Started, HeadsInside, OuterLoop, BooksChosen;
    var uplims := new real[ENTRIES];
    var dists := new real[ENTRIES](_ => 0.0);
    minthr := JudgeBands(bands, zeroes, uplims, groupLen, numWindows, numSwb, groups);
    StartScales(sfIdx, zeroes, uplims, minthr, coder.steps, groupLen, numWindows, numSwb, groups);
    first := sfIdx[..];
    ghost var heads, lens := Heads(groups, numSwb, |groups|), Lens(groups, numSwb, |groups|);
    StartIsWithin(bands, heads, lens, first, zeroes[..], uplims[..], minthr, coder.steps);
    DistinctHeads(groups, numSwb);
    var q := Search(heads, zeroes[..], uplims[..], destBits, coder.bits, coder.noise, coder.minBook, scaleBits);
    p := q;
    if minthr.Some? {
      assert dists[..] == NoDistortion();
      SearchForQuantizers(q, sfIdx, dists, bandType, groupLen, numWindows, numSwb, groups);
    }
  }

  function NoDistortion(): (d: seq<real>)
    ensures |d| == ENTRIES
  {
    seq(ENTRIES, _ => 0.0)
  }
}
