/** What the two-loop scalefactor search does (search_for_quantizers_twoloop, libavcodec/aaccoder.c),
    said as a relation between the scalefactors before and after every pass and every round. */
module AacSearchResult {
  import opened Wrappers
  import opened AacTwoLoop

  // ---------- the bits of one pass ----------

  /** The bands that are not silent, in coding order. */
  function Heard(zeroes: seq<bool>, heads: seq<nat>): (hs: seq<nat>)
    requires forall m :: 0 <= m < |heads| ==> heads[m] < |zeroes|
    ensures forall m :: 0 <= m < |hs| ==> hs[m] < |zeroes|
  {
    if heads == [] then []
    else
      var n := |heads| - 1;
      Heard(zeroes, heads[..n]) + if zeroes[heads[n]] then [] else [heads[n]]
  }

  /** The bits of a list of bands at these scalefactors: its spectral bits, and the code words of the
      differences between neighbours in the list. */
  function BitsOf(p: Search, sf: seq<int>, hs: seq<nat>): nat {
    if hs == [] then 0
    else
      var n := |hs| - 1;
      BitsOf(p, sf, hs[..n]) + SpectralOf(p, sf, hs[n]) + if n == 0 then 0 else DifferenceOf(p, sf, hs[n - 1], hs[n])
  }

  function SpectralOf(p: Search, sf: seq<int>, h: nat): nat {
    if h < |sf| then p.bits(h, sf[h]) else 0
  }

  /** The code word of the difference between the scalefactors of two bands. */
  function DifferenceOf(p: Search, sf: seq<int>, g: nat, h: nat): nat {
    if g < |sf| && h < |sf| && 0 <= sf[h] - sf[g] + 60 < |p.scaleBits| then p.scaleBits[sf[h] - sf[g] + 60] else 0
  }

  ghost function PassBits(p: Search, sf: seq<int>): nat
    requires ValidSearch(p)
  {
    BitsOf(p, sf, Heard(p.zeroes, p.heads))
  }

  /** The least of m and the scalefactors of some bands. */
  function LeastOf(m: int, sf: seq<int>, hs: seq<nat>): (r: int)
    requires forall k :: 0 <= k < |hs| ==> hs[k] < |sf|
    ensures r <= m && forall k :: 0 <= k < |hs| ==> r <= sf[hs[k]]
    ensures r == m || exists k :: 0 <= k < |hs| && r == sf[hs[k]]
  {
    if hs == [] then m
    else
      var n := |hs| - 1;
      var r := LeastOf(m, sf, hs[..n]);
      if sf[hs[n]] < r then sf[hs[n]] else r
  }

  /** Scalefactors as they are while the search runs. */
  ghost predicate InRange(p: Search, sf: seq<int>) {
    ValidSearch(p) && |sf| == ENTRIES && Spread(p.heads, sf) && Within(p.heads, sf, 59, 217)
  }

  /** Is entry i the head of a band, among the first k, that is not silent? */
  ghost predicate IsHeard(p: Search, k: nat, i: nat)
    requires k <= |p.heads| && |p.zeroes| == ENTRIES
  {
    i in p.heads[..k] && i < ENTRIES && !p.zeroes[i]
  }

  /** Distortions are new for the first k bands, but those that are silent. */
  ghost predicate DistortedTo(p: Search, sf: seq<int>, before: seq<real>, after: seq<real>, k: nat) {
    && |sf| == |before| == |after| == ENTRIES == |p.zeroes| && k <= |p.heads|
    && forall i :: 0 <= i < ENTRIES ==> after[i] == if IsHeard(p, k, i) then p.noise(i, sf[i]) else before[i]
  }

  /** The tally of the first k bands. */
  ghost predicate TalliesTo(p: Search, sf: seq<int>, least: int, dists: seq<real>, t: Tally, k: nat) {
    && InRange(p, sf) && k <= |p.heads| && DistortedTo(p, sf, dists, t.dists, k)
    && var hs := Heard(p.zeroes, p.heads[..k]);
       && t.bits == BitsOf(p, sf, hs) && t.minScaler == LeastOf(least, sf, hs)
       && t.prev == if hs == [] then -1 else sf[hs[|hs| - 1]]
  }

  lemma HeardMore(p: Search, k: nat)
    requires ValidSearch(p) && k < |p.heads|
    ensures Heard(p.zeroes, p.heads[..k + 1])
         == Heard(p.zeroes, p.heads[..k]) + if p.zeroes[p.heads[k]] then [] else [p.heads[k]]
    ensures forall i :: 0 <= i < ENTRIES ==>
      (IsHeard(p, k + 1, i) <==> IsHeard(p, k, i) || (i == p.heads[k] && !p.zeroes[i]))
  {
    assert p.heads[..k + 1][..k] == p.heads[..k] && p.heads[..k + 1][k] == p.heads[k];
    assert p.heads[..k + 1] == p.heads[..k] + [p.heads[k]];
  }

  lemma BitsMore(p: Search, sf: seq<int>, hs: seq<nat>, h: nat)
    ensures BitsOf(p, sf, hs + [h])
         == BitsOf(p, sf, hs) + SpectralOf(p, sf, h) + if hs == [] then 0 else DifferenceOf(p, sf, hs[|hs| - 1], h)
  {
    assert (hs + [h])[..|hs|] == hs;
  }

  lemma LeastMore(m: int, sf: seq<int>, hs: seq<nat>, h: nat)
    requires h < |sf| && forall k :: 0 <= k < |hs| ==> hs[k] < |sf|
    ensures LeastOf(m, sf, hs + [h]) == if sf[h] < LeastOf(m, sf, hs) then sf[h] else LeastOf(m, sf, hs)
  {
    assert (hs + [h])[..|hs|] == hs;
  }

  lemma CountHeard(p: Search, sf: seq<int>, t: Tally, h: nat)
    requires |sf| == |t.dists| == |p.zeroes| && h < |sf| && |p.scaleBits| == 121 && !p.zeroes[h] && sf[h] <= 217
    requires t.prev != -1 ==> -60 <= sf[h] - t.prev <= 60
    ensures var diff := if t.prev == -1 then 0 else p.scaleBits[sf[h] - t.prev + 60];
      CountBand(p, sf, t, h) == Tally(t.bits + p.bits(h, sf[h]) + diff, sf[h],
                                      if sf[h] < t.minScaler then sf[h] else t.minScaler,
                                      t.dists[h := p.noise(h, sf[h])])
  {
  }

  lemma TallyMore(p: Search, sf: seq<int>, least: int, dists: seq<real>, t: Tally, k: nat)
    requires k < |p.heads| && TalliesTo(p, sf, least, dists, t, k) && ValidSearch(p)
    requires t.prev != -1 ==> -60 <= sf[p.heads[k]] - t.prev <= 60
    ensures |t.dists| == ENTRIES && TalliesTo(p, sf, least, dists, CountBand(p, sf, t, p.heads[k]), k + 1)
  {
    hide Spread, BitsOf, LeastOf, Heard, IsHeard;
    var hs, h := Heard(p.zeroes, p.heads[..k]), p.heads[k];
    HeardMore(p, k);
    if !p.zeroes[h] {
      BitsMore(p, sf, hs, h);
      LeastMore(least, sf, hs, h);
      if hs != [] {
        HeardInRange(p, sf, k, |hs| - 1);
      }
      CountHeard(p, sf, t, h);
    } else {
      assert hs + [] == hs;
    }
  }

  lemma {:induction false} HeardIsHead(zeroes: seq<bool>, heads: seq<nat>, m: nat) returns (k: nat)
    requires forall j :: 0 <= j < |heads| ==> heads[j] < |zeroes|
    requires m < |Heard(zeroes, heads)|
    ensures k < |heads| && heads[k] == Heard(zeroes, heads)[m] && !zeroes[heads[k]]
  {
    var n := |heads| - 1;
    if m < |Heard(zeroes, heads[..n])| {
      k := HeardIsHead(zeroes, heads[..n], m);
    } else {
      k := n;
    }
  }

  lemma HeardInRange(p: Search, sf: seq<int>, k: nat, m: nat)
    requires InRange(p, sf) && k <= |p.heads| && m < |Heard(p.zeroes, p.heads[..k])|
    ensures 59 <= sf[Heard(p.zeroes, p.heads[..k])[m]] <= 217
  {
    hide Spread;
    var j := HeardIsHead(p.zeroes, p.heads[..k], m);
    assert p.heads[j] == p.heads[..k][j];
  }

  lemma {:induction false} CountIs(p: Search, sf: seq<int>, least: int, dists: seq<real>, k: nat)
    requires InRange(p, sf) && |dists| == ENTRIES && k <= |p.heads|
    ensures TalliesTo(p, sf, least, dists, Count(p, sf, least, dists, k), k)
  {
    hide TalliesTo, CountBand;
    if k > 0 {
      CountIs(p, sf, least, dists, k - 1);
      CountableBand(p, sf, least, dists, k - 1);
      TallyMore(p, sf, least, dists, Count(p, sf, least, dists, k - 1), k - 1);
    } else {
      NothingTallied(p, sf, least, dists);
    }
  }

  lemma NothingTallied(p: Search, sf: seq<int>, least: int, dists: seq<real>)
    requires InRange(p, sf) && |dists| == ENTRIES
    ensures TalliesTo(p, sf, least, dists, Tally(0, -1, least, dists), 0)
  {
  }

  /** The distortions after a pass at these scalefactors. */
  ghost predicate DistortedAt(p: Search, sf: seq<int>, before: seq<real>, after: seq<real>) {
    DistortedTo(p, sf, before, after, |p.heads|)
  }

  /** One pass over all bands. */
  lemma PassIs(p: Search, sf: seq<int>, least: int, dists: seq<real>)
    requires InRange(p, sf) && |dists| == ENTRIES
    ensures var t, hs := Count(p, sf, least, dists, |p.heads|), Heard(p.zeroes, p.heads);
      && t.bits == PassBits(p, sf) && t.minScaler == LeastOf(least, sf, hs) && DistortedAt(p, sf, dists, t.dists)
  {
    CountIs(p, sf, least, dists, |p.heads|);
    assert p.heads[..|p.heads|] == p.heads;
  }

  // ---------- the inner loop ----------

  /** The step of pass k: q halved down to one. */
  function StepAt(q: nat, k: nat): nat
    decreases k
  {
    if k == 0 then q else StepAt(if q > 1 then q / 2 else 1, k - 1)
  }

  /** Every entry moved: up by q below 218 - q when the bits are too many, else down by q above
      60 - q. */
  ghost predicate MovedBy(a: seq<int>, b: seq<int>, q: nat, up: bool) {
    && |a| == |b|
    && forall i :: 0 <= i < |a| ==>
         if up then b[i] == (if a[i] + q < 218 then a[i] + q else a[i])
         else b[i] == if a[i] + q > 60 then a[i] - q else a[i]
  }

  /** Pass k of a run of passes was the last: the step is one, and the bits are at most two per cent
      too many or the first scalefactor has no room left. */
  ghost predicate LastPass(p: Search, q: nat, trace: seq<seq<int>>, k: nat)
    requires ValidSearch(p) && k + 1 < |trace| && |trace[k + 1]| == ENTRIES
  {
    && StepAt(q, k) == 1
    && (PassBits(p, trace[k]) as real <= p.destBits as real * 1.02 || trace[k + 1][0] >= 217)
  }

  /** The scalefactors before the first pass and after each of the passes. */
  ghost predicate IsTrace(p: Search, q: nat, trace: seq<seq<int>>) {
    && ValidSearch(p) && |trace| >= 2 && (forall k :: 0 <= k < |trace| ==> InRange(p, trace[k]))
    && (forall k :: 0 <= k < |trace| - 1 ==>
          MovedBy(trace[k], trace[k + 1], StepAt(q, k), PassBits(p, trace[k]) > p.destBits))
    && (forall k :: 0 <= k < |trace| - 1 ==> (LastPass(p, q, trace, k) <==> k == |trace| - 2))
  }

  /** The least scalefactor that was counted in any pass, or m. */
  ghost function LeastSeen(p: Search, m: int, trace: seq<seq<int>>, k: nat): int
    requires ValidSearch(p) && k <= |trace| && forall j :: 0 <= j < |trace| ==> InRange(p, trace[j])
  {
    if k == 0 then m
    else
      LeastOf(LeastSeen(p, m, trace, k - 1), trace[k - 1], Heard(p.zeroes, p.heads))
  }

  lemma FloorLow(q: nat)
    requires q == 0 || Step(q)
    ensures Floor(q) >= 59
  {
  }

  lemma SearchingInRange(p: Search, sf: seq<int>, q: nat)
    requires Searching(p, sf, q) && (q == 0 || Step(q))
    ensures InRange(p, sf)
  {
    FloorLow(q);
  }

  lemma ShiftMoves(sf: seq<int>, q: nat, up: bool)
    ensures MovedBy(sf, Shifted(sf, q, up), q, up)
  {
  }

  lemma OnePass(p: Search, q: nat, a: seq<int>, b: seq<int>, least: int)
    requires InRange(p, a) && InRange(p, b) && Step(q) && MovedBy(a, b, q, PassBits(p, a) > p.destBits)
    requires NextStep(q, PassBits(p, a), p.destBits, b[0]) == 0
    ensures IsTrace(p, q, [a, b])
    ensures LeastSeen(p, least, [a, b], 1) == LeastOf(least, a, Heard(p.zeroes, p.heads))
  {
    hide PassBits, MovedBy, Spread, Within, ValidSearch;
    var trace := [a, b];
    assert trace[0] == a && trace[1] == b;
    assert LastPass(p, q, trace, 0);
    assert LeastSeen(p, least, trace, 0) == least;
  }

  lemma MorePasses(p: Search, q: nat, q': nat, a: seq<int>, rest: seq<seq<int>>)
    requires IsTrace(p, q', rest) && InRange(p, a) && Step(q)
    requires MovedBy(a, rest[0], q, PassBits(p, a) > p.destBits)
    requires |rest[0]| > 0 && q' == NextStep(q, PassBits(p, a), p.destBits, rest[0][0]) != 0
    ensures IsTrace(p, q, [a] + rest)
  {
    hide PassBits, MovedBy, InRange;
    var trace := [a] + rest;
    LengthInRange(p, rest[0]);
    NotLast(p, q, a, rest);
    forall k | 0 <= k < |trace| ensures InRange(p, trace[k]) {
      assert k > 0 ==> trace[k] == rest[k - 1];
    }
    forall k | 0 <= k < |trace| - 1
      ensures MovedBy(trace[k], trace[k + 1], StepAt(q, k), PassBits(p, trace[k]) > p.destBits)
    {
      if k > 0 {
        assert trace[k] == rest[k - 1] && trace[k + 1] == rest[k];
        NextStepAt(q, q', k - 1);
      }
    }
    forall k | 0 <= k < |trace| - 1
      ensures |trace[k + 1]| == ENTRIES && (LastPass(p, q, trace, k) <==> k == |trace| - 2)
    {
      LengthInRange(p, trace[k + 1]);
      if k > 0 {
        assert trace[k] == rest[k - 1] && trace[k + 1] == rest[k];
        NextStepAt(q, q', k - 1);
        assert LastPass(p, q', rest, k - 1) <==> k - 1 == |rest| - 2;
      }
    }
  }

  lemma LengthInRange(p: Search, sf: seq<int>)
    requires InRange(p, sf)
    ensures ValidSearch(p) && |sf| == ENTRIES
  {
  }

  lemma NextStepAt(q: nat, q': nat, k: nat)
    requires q' == if q > 1 then q / 2 else 1
    ensures StepAt(q, k + 1) == StepAt(q', k)
  {
  }

  /** A pass after which the step is not zero is not the last. */
  lemma NotLast(p: Search, q: nat, a: seq<int>, rest: seq<seq<int>>)
    requires ValidSearch(p) && |rest| > 0 && |rest[0]| == ENTRIES && Step(q)
    requires NextStep(q, PassBits(p, a), p.destBits, rest[0][0]) != 0
    ensures !LastPass(p, q, [a] + rest, 0)
    ensures NextStep(q, PassBits(p, a), p.destBits, rest[0][0]) == if q > 1 then q / 2 else 1
  {
    hide PassBits;
  }

  lemma {:induction false} LeastSeenMore(p: Search, a: seq<int>, rest: seq<seq<int>>, least: int, k: nat)
    requires InRange(p, a) && k <= |rest| && forall j :: 0 <= j < |rest| ==> InRange(p, rest[j])
    ensures forall j :: 0 <= j < |[a] + rest| ==> InRange(p, ([a] + rest)[j])
    ensures LeastSeen(p, least, [a] + rest, k + 1)
         == LeastSeen(p, LeastOf(least, a, Heard(p.zeroes, p.heads)), rest, k)
  {
    hide InRange, LeastOf, Heard;
    LengthInRange(p, a);
    var trace := [a] + rest;
    forall j | 0 <= j < |trace| ensures InRange(p, trace[j]) {
      assert j > 0 ==> trace[j] == rest[j - 1];
    }
    if k > 0 {
      LeastSeenMore(p, a, rest, least, k - 1);
      assert trace[k] == rest[k - 1];
    } else {
      assert LeastSeen(p, least, trace, 0) == least && trace[0] == a;
    }
  }

  lemma DistortedAgain(p: Search, a: seq<int>, b: seq<int>, d: seq<real>, d': seq<real>, d'': seq<real>)
    requires DistortedAt(p, a, d, d') && DistortedAt(p, b, d', d'')
    ensures DistortedAt(p, b, d, d'')
  {
    hide IsHeard;
  }

  lemma OneMorePass(p: Search, q: nat, q': nat, a: seq<int>, rest: seq<seq<int>>, least: int, d: seq<real>,
                    d': seq<real>, d'': seq<real>)
    requires IsTrace(p, q', rest) && InRange(p, a) && Step(q)
    requires MovedBy(a, rest[0], q, PassBits(p, a) > p.destBits)
    requires |rest[0]| > 0 && q' == NextStep(q, PassBits(p, a), p.destBits, rest[0][0]) != 0
    requires DistortedAt(p, a, d, d') && DistortedAt(p, rest[|rest| - 2], d', d'')
    ensures var trace := [a] + rest;
      && IsTrace(p, q, trace) && trace[0] == a && trace[|trace| - 1] == rest[|rest| - 1]
      && DistortedAt(p, trace[|trace| - 2], d, d'')
      && LeastSeen(p, least, trace, |trace| - 1)
         == LeastSeen(p, LeastOf(least, a, Heard(p.zeroes, p.heads)), rest, |rest| - 1)
  {
    hide PassBits, MovedBy, InRange, DistortedAt, LeastOf, Heard, LeastSeen;
    MorePasses(p, q, q', a, rest);
    LeastSeenMore(p, a, rest, least, |rest| - 1);
    DistortedAgain(p, a, rest[|rest| - 2], d, d', d'');
    assert ([a] + rest)[|rest| - 1] == rest[|rest| - 2];
  }

  lemma SearchingShape(p: Search, sf: seq<int>, q: nat)
    requires Searching(p, sf, q)
    ensures ValidSearch(p) && |sf| == ENTRIES && Spread(p.heads, sf)
  {
  }

  /** One turn of the inner loop. */
  lemma OnePassOn(p: Search, sf: seq<int>, q: nat, least: int, dists: seq<real>)
    requires Searching(p, sf, q) && Step(q) && |dists| == ENTRIES
    ensures var t := Count(p, sf, least, dists, |p.heads|);
      var sf' := Shifted(sf, q, t.bits > p.destBits);
      var q' := NextStep(q, t.bits, p.destBits, sf'[0]);
      && |t.dists| == ENTRIES && (q' == 0 || Step(q')) && Searching(p, sf', q')
      && (q' < q || (q' == q && Room(sf'[0]) < Room(sf[0])))
      && InnerLoop(p, sf, q, least, dists)
         == if q' == 0 then Inner(sf', t.minScaler, t.dists) else InnerLoop(p, sf', q', t.minScaler, t.dists)
  {
    hide Count, Shifted, Searching, Step, NextStep;
    SearchingShape(p, sf, q);
    var t := Count(p, sf, least, dists, |p.heads|);
    var sf' := Shifted(sf, q, t.bits > p.destBits);
    var q' := NextStep(q, t.bits, p.destBits, sf'[0]);
    ResetMakesProgress(sf, q, t.bits, p.destBits);
    NextIsHalf(q, t.bits, p.destBits, sf'[0]);
    if q' != 0 || q == 1 {
      ShiftKeepsSearching(p, sf, q, t.bits > p.destBits, q');
    }
  }

  lemma NextIsHalf(q: nat, bits: nat, destBits: int, first: int)
    requires Step(q)
    ensures var q' := NextStep(q, bits, destBits, first); (q' == q / 2 || (q == 1 && q' == 1)) && (q' == 0 ==> q == 1)
  {
  }

  /** The inner loop from a given step on, pass by pass. */
  lemma {:induction false} InnerTrace(p: Search, sf: seq<int>, q: nat, least: int, dists: seq<real>)
    returns (trace: seq<seq<int>>)
    requires Searching(p, sf, q) && Step(q) && |dists| == ENTRIES
    ensures IsTrace(p, q, trace) && trace[0] == sf
    ensures var r := InnerLoop(p, sf, q, least, dists);
      && r.sf == trace[|trace| - 1] && DistortedAt(p, trace[|trace| - 2], dists, r.dists)
      && r.minScaler == LeastSeen(p, least, trace, |trace| - 1)
    decreases q, Room(sf[0])
  {
    hide Count, Shifted, IsTrace, PassBits, LeastSeen, DistortedAt, InRange, Searching, InnerLoop, NextStep, MovedBy,
      LeastOf, Heard;
    SearchingShape(p, sf, q);
    var t := Count(p, sf, least, dists, |p.heads|);
    var up := t.bits > p.destBits;
    var sf' := Shifted(sf, q, up);
    var q' := NextStep(q, t.bits, p.destBits, sf'[0]);
    SearchingInRange(p, sf, q);
    PassIs(p, sf, least, dists);
    ShiftMoves(sf, q, up);
    OnePassOn(p, sf, q, least, dists);
    SearchingInRange(p, sf', q');
    if q' == 0 {
      trace := [sf, sf'];
      OnePass(p, q, sf, sf', least);
    } else {
      var rest := InnerTrace(p, sf', q', t.minScaler, t.dists);
      trace := [sf] + rest;
      OneMorePass(p, q, q', sf, rest, least, dists, t.dists, InnerLoop(p, sf, q, least, dists).dists);
    }
  }

  // ---------- the outer step ----------

  /** y is the number of lo..hi that is nearest to x. */
  predicate Nearest(y: int, x: int, lo: int, hi: int) {
    && lo <= y <= hi && (lo <= x <= hi ==> y == x) && (x < lo ==> y == lo) && (x > hi ==> y == hi)
  }

  /** Is there more noise in the band than it may have, and can it get a smaller scalefactor? */
  predicate TooNoisy(p: Search, dist: real, h: nat, x: int)
    requires h < |p.uplims|
  {
    dist > p.uplims[h] && x > 60
  }

  /** What the outer step makes of one band: a band that is too noisy goes down by one, or by two if
      one would leave nothing of it, and every band is brought into low..low + 60. */
  predicate Refined(p: Search, low: int, dist: real, h: nat, x: int, y: int)
    requires h < |p.uplims|
  {
    && (!TooNoisy(p, dist, h, x) ==> Nearest(y, x, low, low + 60))
    && (TooNoisy(p, dist, h, x) && p.minBook(h, x - 1) != 0 ==> Nearest(y, x - 1, low, low + 60))
    && (TooNoisy(p, dist, h, x) && p.minBook(h, x - 1) == 0 ==> Nearest(y, x - 2, low, low + 60))
  }

  ghost predicate AllRefined(p: Search, low: int, dists: seq<real>, a: seq<int>, b: seq<int>) {
    && ValidSearch(p) && |dists| == |a| == |b| == ENTRIES
    && (forall m :: 0 <= m < |p.heads| ==>
          Refined(p, low, dists[p.heads[m]], p.heads[m], a[p.heads[m]], b[p.heads[m]]))
    && (forall i :: 0 <= i < ENTRIES && i !in p.heads ==> b[i] == a[i])
  }

  ghost predicate Differ(p: Search, a: seq<int>, b: seq<int>)
    requires ValidSearch(p) && |a| == |b| == ENTRIES
  {
    exists m :: 0 <= m < |p.heads| && a[p.heads[m]] != b[p.heads[m]]
  }

  lemma BaseIsNearest(least: int)
    ensures Nearest(Base(least), least, 60, 195)
  {
  }

  lemma AdjustedIsRefined(p: Search, dist: real, low: int, h: nat, x: int)
    requires h < |p.uplims| && 60 <= low <= 195 && x <= 217
    ensures Refined(p, low, dist, h, x, Adjusted(p, dist, low, h, x))
  {
  }

  lemma {:induction false} OthersKept(p: Search, r: Inner, k: nat, i: nat)
    requires ValidSearch(p) && k <= |p.heads| && |r.sf| == |r.dists| == ENTRIES && i < ENTRIES && i !in p.heads
    ensures AdjustedTo(p, r, k)[i] == r.sf[i]
  {
    if k > 0 {
      OthersKept(p, r, k - 1, i);
    }
  }

  lemma {:induction false} ChangedIs(p: Search, r: Inner, k: nat)
    requires ValidSearch(p) && k <= |p.heads| && |r.sf| == |r.dists| == ENTRIES
    ensures Changed(p, r, k)
       <==> (exists m :: 0 <= m < k
               && Adjusted(p, r.dists[p.heads[m]], Base(r.minScaler), p.heads[m], r.sf[p.heads[m]]) != r.sf[p.heads[m]])
  {
    hide Adjusted;
    if k > 0 {
      ChangedIs(p, r, k - 1);
    }
  }

  /** The outer step. */
  lemma OuterStepIs(p: Search, r: Inner)
    requires InRange(p, r.sf) && |r.dists| == ENTRIES
    ensures var sf := AdjustedTo(p, r, |p.heads|);
      && AllRefined(p, Base(r.minScaler), r.dists, r.sf, sf)
      && (Changed(p, r, |p.heads|) <==> Differ(p, r.sf, sf))
  {
    hide Adjusted, Refined, Spread, AdjustedTo;
    var sf := AdjustedTo(p, r, |p.heads|);
    BaseIsNearest(r.minScaler);
    ChangedIs(p, r, |p.heads|);
    forall m | 0 <= m < |p.heads|
      ensures sf[p.heads[m]]
           == Adjusted(p, r.dists[p.heads[m]], Base(r.minScaler), p.heads[m], r.sf[p.heads[m]])
      ensures Refined(p, Base(r.minScaler), r.dists[p.heads[m]], p.heads[m], r.sf[p.heads[m]], sf[p.heads[m]])
    {
      AdjustedAt(p, r, |p.heads|, m);
      AdjustedIsRefined(p, r.dists[p.heads[m]], Base(r.minScaler), p.heads[m], r.sf[p.heads[m]]);
    }
    forall i | 0 <= i < ENTRIES && i !in p.heads ensures sf[i] == r.sf[i] {
      OthersKept(p, r, |p.heads|, i);
    }
  }

  /** A noisy band above the least scalefactor of the round gets a strictly smaller one. */
  lemma NoisyFalls(p: Search, low: int, dist: real, h: nat, x: int, y: int)
    requires h < |p.uplims| && Refined(p, low, dist, h, x, y)
    ensures TooNoisy(p, dist, h, x) && low < x ==> y < x
    ensures TooNoisy(p, dist, h, x) && x == y ==> x == low
    ensures !TooNoisy(p, dist, h, x) && low <= x <= low + 60 ==> y == x
  {
  }

  // ---------- the whole search ----------

  /** One round: the scalefactors pass by pass, the distortions before and after, the least
      scalefactor allowed after it, and the scalefactors the outer step leaves. */
  datatype Round = Round(trace: seq<seq<int>>, dists0: seq<real>, dists: seq<real>, low: int, after: seq<int>)

  ghost predicate IsRound(p: Search, its: nat, r: Round) {
    && IsTrace(p, if its == 0 then 32 else 1, r.trace) && |r.trace[0]| == ENTRIES
    && DistortedAt(p, r.trace[|r.trace| - 2], r.dists0, r.dists)
    && Nearest(r.low, LeastSeen(p, r.trace[0][0], r.trace, |r.trace| - 1), 60, 195)
    && AllRefined(p, r.low, r.dists, r.trace[|r.trace| - 1], r.after)
  }

  /** The scalefactors before the outer step of a round. */
  ghost function Fitted(r: Round): seq<int>
    requires |r.trace| > 0
  {
    r.trace[|r.trace| - 1]
  }

  ghost predicate GoesOn(p: Search, its: nat, r: Round) {
    IsRound(p, its, r) && ValidSearch(p) && |Fitted(r)| == |r.after| == ENTRIES
    && Differ(p, Fitted(r), r.after) && its + 1 < 10
  }

  /** The rounds of a search, from round its on: it goes on while a band changes, ten rounds at most. */
  ghost predicate IsSearch(p: Search, sf: seq<int>, dists: seq<real>, its: nat, rounds: seq<Round>)
    decreases |rounds|
  {
    && |rounds| > 0 && IsRound(p, its, rounds[0]) && rounds[0].trace[0] == sf && rounds[0].dists0 == dists
    && (GoesOn(p, its, rounds[0]) <==> |rounds| > 1)
    && (|rounds| > 1 ==> IsSearch(p, rounds[0].after, rounds[0].dists, its + 1, rounds[1..]))
  }

  /** One turn of the outer loop. */
  lemma OneRoundOn(p: Search, sf: seq<int>, dists: seq<real>, its: nat) returns (r: Round)
    requires its < 10 && Searching(p, sf, if its == 0 then 32 else 1) && |dists| == ENTRIES
    ensures IsRound(p, its, r) && r.trace[0] == sf && r.dists0 == dists && |r.dists| == ENTRIES
    ensures GoesOn(p, its, r) ==>
      Searching(p, r.after, 1) && OuterLoop(p, sf, dists, its) == OuterLoop(p, r.after, r.dists, its + 1)
    ensures !GoesOn(p, its, r) ==>
      OuterLoop(p, sf, dists, its).sf == r.after && OuterLoop(p, sf, dists, its).rounds == its + 1
  {
    hide InnerLoop, IsTrace, DistortedAt, LeastSeen, AllRefined, InRange, Spread, AdjustedTo, Changed, Base, Within,
      Differ;
    var q := if its == 0 then 32 else 1;
    var trace := InnerTrace(p, sf, q, sf[0], dists);
    var i := InnerLoop(p, sf, q, sf[0], dists);
    InnerLoopKeepsSpread(p, sf, q, sf[0], dists);
    SearchingInRange(p, i.sf, 0);
    OuterStepKeepsSpread(p, i);
    OuterStepIs(p, i);
    BaseIsNearest(i.minScaler);
    TraceShape(p, q, trace);
    r := Round(trace, dists, i.dists, Base(i.minScaler), AdjustedTo(p, i, |p.heads|));
    RefinedIsSearching(p, r.after);
  }

  lemma TraceShape(p: Search, q: nat, trace: seq<seq<int>>)
    requires IsTrace(p, q, trace)
    ensures ValidSearch(p) && |trace| >= 2 && forall k :: 0 <= k < |trace| ==> |trace[k]| == ENTRIES
    ensures forall k :: 0 <= k < |trace| ==> InRange(p, trace[k])
  {
  }

  lemma RefinedIsSearching(p: Search, sf: seq<int>)
    requires ValidSearch(p) && |sf| == ENTRIES && Spread(p.heads, sf) && Within(p.heads, sf, 60, 217)
    ensures Searching(p, sf, 1)
  {
  }

  /** The search is such a sequence of rounds, and ends with the scalefactors of the last. */
  lemma {:induction false} SearchRounds(p: Search, sf: seq<int>, dists: seq<real>, its: nat)
    returns (rounds: seq<Round>)
    requires its < 10 && Searching(p, sf, if its == 0 then 32 else 1) && |dists| == ENTRIES
    ensures IsSearch(p, sf, dists, its, rounds)
    ensures OuterLoop(p, sf, dists, its).sf == rounds[|rounds| - 1].after
    ensures OuterLoop(p, sf, dists, its).rounds == its + |rounds|
    decreases 10 - its
  {
    hide OuterLoop, IsRound, GoesOn, Searching;
    var r := OneRoundOn(p, sf, dists, its);
    if GoesOn(p, its, r) {
      NotTen(p, its, r);
      var rest := SearchRounds(p, r.after, r.dists, its + 1);
      rounds := [r] + rest;
      assert rounds[1..] == rest;
    } else {
      rounds := [r];
    }
  }

  lemma NotTen(p: Search, its: nat, r: Round)
    requires GoesOn(p, its, r)
    ensures its + 1 < 10
  {
  }

  /** How the search ends: the bits of the last pass are at most two per cent too many, or the first
      scalefactor before the last outer step is at least 217; and after fewer than ten rounds every
      band whose last distortion is over its limit stands at the least scalefactor of the round or
      at 60 or below. */
  lemma {:induction false} SearchSettles(p: Search, sf: seq<int>, dists: seq<real>, its: nat, rounds: seq<Round>)
    requires IsSearch(p, sf, dists, its, rounds)
    ensures var r := rounds[|rounds| - 1];
      && ValidSearch(p) && |r.trace| >= 2 && |r.after| == |r.dists| == |Fitted(r)| == ENTRIES
      && (PassBits(p, r.trace[|r.trace| - 2]) as real <= p.destBits as real * 1.02 || Fitted(r)[0] >= 217)
      && (its + |rounds| < 10 ==> forall m :: 0 <= m < |p.heads| ==>
            var h := p.heads[m];
            r.after[h] == Fitted(r)[h] && (r.dists[h] > p.uplims[h] ==> r.after[h] == r.low || r.after[h] <= 60))
    decreases |rounds|
  {
    hide IsRound, GoesOn, PassBits, Fitted, IsSearch;
    SearchTail(p, sf, dists, its, rounds);
    if |rounds| > 1 {
      SearchSettles(p, rounds[0].after, rounds[0].dists, its + 1, rounds[1..]);
      assert rounds[1..][|rounds| - 2] == rounds[|rounds| - 1];
    } else {
      RoundSettles(p, its, rounds[0]);
    }
  }

  lemma SearchTail(p: Search, sf: seq<int>, dists: seq<real>, its: nat, rounds: seq<Round>)
    requires IsSearch(p, sf, dists, its, rounds)
    ensures |rounds| > 0 && IsRound(p, its, rounds[0]) && (GoesOn(p, its, rounds[0]) <==> |rounds| > 1)
    ensures |rounds| > 1 ==> IsSearch(p, rounds[0].after, rounds[0].dists, its + 1, rounds[1..])
  {
    hide IsRound, GoesOn;
  }

  lemma RoundSettles(p: Search, its: nat, r: Round)
    requires IsRound(p, its, r) && !GoesOn(p, its, r)
    ensures ValidSearch(p) && |r.trace| >= 2 && |r.after| == |r.dists| == |Fitted(r)| == ENTRIES
    ensures PassBits(p, r.trace[|r.trace| - 2]) as real <= p.destBits as real * 1.02 || Fitted(r)[0] >= 217
    ensures its + 1 < 10 ==> forall m :: 0 <= m < |p.heads| ==>
      var h := p.heads[m];
      r.after[h] == Fitted(r)[h] && (r.dists[h] > p.uplims[h] ==> r.after[h] == r.low || r.after[h] <= 60)
  {
    hide PassBits, MovedBy, InRange, Refined, LeastSeen;
    assert LastPass(p, if its == 0 then 32 else 1, r.trace, |r.trace| - 2);
    if its + 1 < 10 {
      forall m | 0 <= m < |p.heads|
        ensures var h := p.heads[m];
          r.after[h] == Fitted(r)[h] && (r.dists[h] > p.uplims[h] ==> r.after[h] == r.low || r.after[h] <= 60)
      {
        var h := p.heads[m];
        NoisyFalls(p, r.low, r.dists[h], h, Fitted(r)[h], r.after[h]);
      }
    }
  }

  // ---------- where the search starts ----------

  /** The thresholds of the windows of a band from window w on. */
  function ThresholdSum(bands: seq<Psy>, h: nat, w: nat, n: nat): real
    requires w <= n && (n == 0 || h + 16 * (n - 1) < |bands|)
    decreases n - w
  {
    if w == n then 0.0 else bands[h + 16 * w].threshold + ThresholdSum(bands, h, w + 1, n)
  }

  lemma {:induction false} ThresholdLast(bands: seq<Psy>, h: nat, w: nat, n: nat)
    requires w < n && h + 16 * (n - 1) < |bands|
    ensures ThresholdSum(bands, h, w, n) == ThresholdSum(bands, h, w, n - 1) + bands[h + 16 * (n - 1)].threshold
    decreases n - w
  {
    if w + 1 < n {
      ThresholdLast(bands, h, w + 1, n);
    }
  }

  lemma {:induction false} AllowanceIs(bands: seq<Psy>, h: nat, n: nat)
    requires n == 0 || h + 16 * (n - 1) < |bands|
    ensures Allowance(bands, h, n) == ThresholdSum(bands, h, 0, n)
  {
    if n > 0 {
      AllowanceIs(bands, h, n - 1);
      ThresholdLast(bands, h, 0, n);
    }
  }

  /** Nothing can be heard in window w of the band. */
  predicate Unheard(bands: seq<Psy>, h: nat, w: nat)
    requires h + 16 * w < |bands|
  {
    bands[h + 16 * w].energy <= bands[h + 16 * w].threshold || bands[h + 16 * w].threshold == 0.0
  }

  lemma {:induction false} LoudIs(bands: seq<Psy>, h: nat, n: nat)
    requires n == 0 || h + 16 * (n - 1) < |bands|
    ensures Loud(bands, h, n) <==> exists w :: 0 <= w < n && !Unheard(bands, h, w)
  {
    if n > 0 {
      LoudIs(bands, h, n - 1);
      assert Unheard(bands, h, n - 1) == Silent(bands[h + 16 * (n - 1)]);
    }
  }

  /** The first scalefactor and limit of a band: silent bands, in which no window is heard, stand at
      140; the others above it by the steps of the ratio of their limit to the least allowance of a
      band that is heard, at most 59, where the allowance is the sum of the thresholds of a band's
      windows and its limit 512 times that. */
  lemma SearchStart(bands: seq<Psy>, heads: seq<nat>, lens: seq<nat>, sf: seq<int>, zeroes: seq<bool>,
                    uplims: seq<real>, minthr: Option<real>, steps: real -> int, m: nat)
    requires HeadsInside(bands, heads, lens) && |sf| == |zeroes| == |uplims| == ENTRIES && m < |heads|
    requires Judged(bands, heads, lens, zeroes, uplims, minthr, |heads|)
    requires Started(heads, sf, zeroes, uplims, minthr, steps, |heads|)
    ensures var h, n := heads[m], lens[m];
      && (zeroes[h] <==> forall w :: 0 <= w < n ==> Unheard(bands, h, w))
      && uplims[h] == 512.0 * ThresholdSum(bands, h, 0, n)
      && (zeroes[h] ==> sf[h] == 140)
      && (!zeroes[h] ==>
            && minthr.Some? && minthr.value > 0.0
            && var s := steps(uplims[h] / minthr.value);
               sf[h] == 140 + if s < 59 then s else 59)
    ensures minthr.Some? ==>
      && (forall k :: 0 <= k < |heads| && !zeroes[heads[k]] ==>
            minthr.value <= ThresholdSum(bands, heads[k], 0, lens[k]))
      && exists k :: 0 <= k < |heads| && !zeroes[heads[k]] && minthr.value == ThresholdSum(bands, heads[k], 0, lens[k])
  {
    hide Allowance, Loud;
    var h, n := heads[m], lens[m];
    forall k | 0 <= k < |heads|
      ensures Allowance(bands, heads[k], lens[k]) == ThresholdSum(bands, heads[k], 0, lens[k])
      ensures zeroes[heads[k]] == !Loud(bands, heads[k], lens[k])
      ensures uplims[heads[k]] == Allowance(bands, heads[k], lens[k]) * 512.0
    {
      assert JudgedHead(bands, heads, lens, zeroes, uplims, k);
      AllowanceIs(bands, heads[k], lens[k]);
    }
    LoudIs(bands, h, n);
    assert zeroes[h] || LoudHead(bands, heads, lens, m);
    if minthr.Some? {
      var k :| 0 <= k < |heads| && LoudHead(bands, heads, lens, k)
          && minthr.value == Allowance(bands, heads[k], lens[k]);
      LoudAllowance(bands, heads[k], lens[k]);
    }
  }
}
