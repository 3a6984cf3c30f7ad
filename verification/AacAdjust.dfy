/** Between the scalefactor search and the channel coder: the number of coded bands and the silent
    flags of the window groups (adjust_frame_information of libavcodec/aacenc.c, without mid/side
    stereo). */
module AacAdjust {
  import opened Wrappers
  import opened AacSpectrum
  import opened AacTwoLoop

  // ---------- the number of coded bands ----------

  /** The bands of a window up to the last one in use. */
  function InUse(zeroes: seq<bool>, base: nat, n: nat): (c: nat)
    requires base + n <= |zeroes|
    ensures c <= n && (forall a :: base + c <= a < base + n ==> zeroes[a]) && (c > 0 ==> !zeroes[base + c - 1])
  {
    if n == 0 || !zeroes[base + n - 1] then n else InUse(zeroes, base, n - 1)
  }

  /** Window k lies in the array. */
  predicate WindowFits(zeroes: seq<bool>, numSwb: nat, k: nat) {
    k > 0 ==> 16 * (k - 1) + numSwb <= |zeroes|
  }

  /** The greatest number of bands in use in the first k windows. */
  function MostInUse(zeroes: seq<bool>, numSwb: nat, k: nat): (c: nat)
    requires WindowFits(zeroes, numSwb, k)
    ensures c <= numSwb
  {
    if k == 0 then 0
    else
      var before, here := MostInUse(zeroes, numSwb, k - 1), InUse(zeroes, 16 * (k - 1), numSwb);
      if before > here then before else here
  }

  /** Bands c and up are silent in window w. */
  ghost predicate SilentFrom(zeroes: seq<bool>, numSwb: nat, w: nat, c: nat) {
    16 * w + numSwb <= |zeroes| && forall a :: 16 * w + c <= a < 16 * w + numSwb ==> zeroes[a]
  }

  ghost predicate LastInUse(zeroes: seq<bool>, numSwb: nat, w: nat, c: nat) {
    0 < c <= numSwb && 16 * w + numSwb <= |zeroes| && !zeroes[16 * w + c - 1]
  }

  /** The number is the least one from which on all windows are silent. */
  lemma {:induction false} MostInUseIsLeast(zeroes: seq<bool>, numSwb: nat, k: nat)
    requires WindowFits(zeroes, numSwb, k)
    ensures var c := MostInUse(zeroes, numSwb, k);
      && (forall w :: 0 <= w < k ==> SilentFrom(zeroes, numSwb, w, c))
      && (c > 0 ==> exists w :: 0 <= w < k && LastInUse(zeroes, numSwb, w, c))
  {
    if k > 0 {
      MostInUseIsLeast(zeroes, numSwb, k - 1);
      var before, here, c := MostInUse(zeroes, numSwb, k - 1), InUse(zeroes, 16 * (k - 1), numSwb),
          MostInUse(zeroes, numSwb, k);
      forall w | 0 <= w < k ensures SilentFrom(zeroes, numSwb, w, c) {
        assert w < k - 1 ==> SilentFrom(zeroes, numSwb, w, before);
      }
      if c > 0 && here == c {
        assert LastInUse(zeroes, numSwb, k - 1, c);
      } else if c > 0 {
        var w :| 0 <= w < k - 1 && LastInUse(zeroes, numSwb, w, c);
      }
    }
  }

  /** max_sfb. */
  method CountBands(zeroes: array<bool>, numSwb: nat, numWindows: nat) returns (maxSfb: nat)
    requires WindowFits(zeroes[..], numSwb, numWindows)
    ensures maxSfb == MostInUse(zeroes[..], numSwb, numWindows)
  {
    maxSfb := 0;
    for w := 0 to numWindows
      invariant maxSfb == MostInUse(zeroes[..], numSwb, w)
    {
      var cmaxsfb: nat := numSwb;
      while cmaxsfb > 0 && zeroes[16 * w + cmaxsfb - 1]
        invariant cmaxsfb <= numSwb
        invariant InUse(zeroes[..], 16 * w, numSwb) == InUse(zeroes[..], 16 * w, cmaxsfb)
      {
        cmaxsfb := cmaxsfb - 1;
      }
      maxSfb := if maxSfb > cmaxsfb then maxSfb else cmaxsfb;
    }
  }

  // ---------- the flags of the groups ----------

  /** Are all windows of the band silent? */
  method AllSilent(zeroes: array<bool>, h: nat, len: nat) returns (silent: bool)
    requires len > 0 && h + 16 * (len - 1) < zeroes.Length
    ensures silent == AllFlagged(zeroes[..], h, len)
  {
    silent := true;
    for w2 := 0 to len
      invariant silent && AllFlagged(zeroes[..], h, w2)
    {
      if !zeroes[h + 16 * w2] {
        assert Covers(h, len, h + 16 * w2);
        return false;
      }
    }
  }

  /** The first k bands of the coding order have their group's flags, all else is unchanged. */
  ghost predicate Adjusted(z0: seq<bool>, z: seq<bool>, heads: seq<nat>, lens: seq<nat>, k: nat) {
    && |z| == |z0| && k <= |heads| == |lens|
    && (forall m :: 0 <= m < k ==> heads[m] < |z| && z[heads[m]] == AllFlagged(z0, heads[m], lens[m]))
    && forall a :: 0 <= a < |z| && a !in heads[..k] ==> z[a] == z0[a]
  }

  lemma NothingAdjusted(z: seq<bool>, heads: seq<nat>, lens: seq<nat>)
    requires |heads| == |lens|
    ensures Adjusted(z, z, heads, lens, 0)
  {
  }

  /** The flags read for a band are still those from before. */
  lemma StillUnread(z0: seq<bool>, z: seq<bool>, heads: seq<nat>, lens: seq<nat>, k: nat)
    requires Adjusted(z0, z, heads, lens, k) && k < |heads| && (forall m :: 0 <= m < k ==> lens[m] > 0)
    requires forall m :: 0 <= m < k ==> Disjoint(heads[k], lens[k], heads[m], lens[m])
    ensures AllFlagged(z, heads[k], lens[k]) == AllFlagged(z0, heads[k], lens[k])
  {
    forall j | 0 <= j < |z| && Covers(heads[k], lens[k], j) ensures z[j] == z0[j] {
      if j in heads[..k] {
        var m :| 0 <= m < k && heads[m] == j;
        assert Disjoint(heads[k], lens[k], heads[m], lens[m]);
        HeadCovered(heads[m], lens[m]);
      }
    }
  }

  lemma OneAdjusted(z0: seq<bool>, z: seq<bool>, heads: seq<nat>, lens: seq<nat>, k: nat)
    requires Adjusted(z0, z, heads, lens, k) && k < |heads| && heads[k] < |z|
    requires forall m :: 0 <= m < k ==> heads[m] != heads[k]
    ensures Adjusted(z0, z[heads[k] := AllFlagged(z0, heads[k], lens[k])], heads, lens, k + 1)
  {
    assert heads[..k + 1] == heads[..k] + [heads[k]];
  }

  /** One window group. */
  method AdjustGroup(zeroes: array<bool>, w: nat, len: nat, maxSfb: nat, ghost z0: seq<bool>, ghost heads: seq<nat>,
                     ghost lens: seq<nat>, ghost k: nat)
    requires zeroes.Length == ENTRIES && Adjusted(z0, zeroes[..], heads, lens, k) && len > 0
    requires GroupPart(heads, lens, k, w, len, maxSfb) && (forall m :: 0 <= m < |lens| ==> lens[m] > 0)
    requires forall m :: 0 <= m < |heads| ==> heads[m] + 16 * (lens[m] - 1) < ENTRIES
    modifies zeroes
    ensures Adjusted(z0, zeroes[..], heads, lens, k + maxSfb)
  {
    hide Adjusted, Disjoint, Covers, AllFlagged;
    for g := 0 to maxSfb
      invariant Adjusted(z0, zeroes[..], heads, lens, k + g)
    {
      ghost var n, z := k + g, zeroes[..];
      assert heads[n] == 16 * w + g && lens[n] == len;
      var silent := AllSilent(zeroes, 16 * w + g, len);
      StillUnread(z0, z, heads, lens, n);
      forall m | 0 <= m < n ensures heads[m] != heads[n] {
        HeadCovered(heads[m], lens[m]);
        HeadCovered(heads[n], lens[n]);
        NotBoth(heads[n], lens[n], heads[m], lens[m]);
      }
      OneAdjusted(z0, z, heads, lens, n);
      zeroes[16 * w + g] := silent;
      assert zeroes[..] == z[heads[n] := silent];
    }
  }

  lemma NotBoth(h: nat, len: nat, h': nat, len': nat)
    requires Disjoint(h, len, h', len') && Covers(h, len, h) && Covers(h', len', h')
    ensures h != h'
  {
  }

  /** All window groups. */
  method AdjustGroups(zeroes: array<bool>, maxSfb: nat, groupLen: seq<nat>, numWindows: nat, ghost groups: seq<nat>)
    requires zeroes.Length == ENTRIES && Geometry(groups, maxSfb) && Grouped(groups, groupLen, numWindows)
    modifies zeroes
    ensures var heads, lens := Heads(groups, maxSfb, |groups|), Lens(groups, maxSfb, |groups|);
      Adjusted(old(zeroes[..]), zeroes[..], heads, lens, |heads|)
  {
    hide Grouped, Heads, Lens, Adjusted, GroupPart, Geometry;
    ghost var heads, lens, z0 := Heads(groups, maxSfb, |groups|), Lens(groups, maxSfb, |groups|), zeroes[..];
    HeadsHaveRoom(groups, maxSfb);
    ghost var g, k := 0, 0;
    var w := 0;
    NothingAdjusted(z0, heads, lens);
    NoHeads(groups, maxSfb);
    GroupAt(groups, groupLen, numWindows, 0);
    while w < numWindows
      invariant g <= |groups| && w == Windows(groups, g) && k == |Heads(groups, maxSfb, g)| <= |heads|
      invariant g < |groups| <==> w < numWindows
      invariant Adjusted(z0, zeroes[..], heads, lens, k)
      decreases |groups| - g
    {
      GroupAt(groups, groupLen, numWindows, g);
      GroupPartAt(groups, maxSfb, g);
      HeadsGrow(groups, maxSfb, g);
      PositiveGroups(groups, maxSfb);
      AdjustGroup(zeroes, w, groupLen[w], maxSfb, z0, heads, lens, k);
      w := w + groupLen[w];
      g, k := g + 1, k + maxSfb;
      GroupAt(groups, groupLen, numWindows, g);
    }
  }

  lemma HeadsHaveRoom(groups: seq<nat>, numSwb: nat)
    requires Geometry(groups, numSwb)
    ensures var heads, lens := Heads(groups, numSwb, |groups|), Lens(groups, numSwb, |groups|);
      |heads| == |lens| && forall m :: 0 <= m < |heads| ==> lens[m] > 0 && heads[m] + 16 * (lens[m] - 1) < ENTRIES
  {
    var psy := seq(ENTRIES, _ => Psy(0.0, 0.0));
    HeadsAreInside(psy, groups, numSwb);
  }

  // ---------- after the search ----------

  /** Silent bands are flagged in all windows of their group. */
  ghost predicate FlagsAgree(zeroes: seq<bool>, heads: seq<nat>, lens: seq<nat>) {
    |heads| == |lens| && forall m :: 0 <= m < |heads| ==> FlagAgrees(zeroes, heads[m], lens[m])
  }

  ghost predicate FlagAgrees(zeroes: seq<bool>, h: nat, len: nat) {
    h < |zeroes| && len > 0 && (zeroes[h] ==> AllFlagged(zeroes, h, len))
  }

  /** So the search leaves them. */
  lemma SearchedAgree(bands: seq<Psy>, heads: seq<nat>, lens: seq<nat>, zeroes: seq<bool>, uplims: seq<real>,
                      minthr: Option<real>)
    requires HeadsInside(bands, heads, lens) && |zeroes| == |uplims| == ENTRIES
    requires Judged(bands, heads, lens, zeroes, uplims, minthr, |heads|)
    ensures FlagsAgree(zeroes, heads, lens)
    ensures forall m :: 0 <= m < |heads| ==> zeroes[heads[m]] == !LoudHead(bands, heads, lens, m)
  {
    hide AllFlagged, Allowance, Loud;
    forall m | 0 <= m < |heads|
      ensures FlagAgrees(zeroes, heads[m], lens[m]) && zeroes[heads[m]] == !LoudHead(bands, heads, lens, m)
    {
      assert JudgedHead(bands, heads, lens, zeroes, uplims, m);
    }
  }

  /** Fewer bands a window: their heads are among those of all bands. */
  lemma FewerAgree(zeroes: seq<bool>, groups: seq<nat>, few: nat, many: nat)
    requires few <= many
    requires FlagsAgree(zeroes, Heads(groups, many, |groups|), Lens(groups, many, |groups|))
    ensures FlagsAgree(zeroes, Heads(groups, few, |groups|), Lens(groups, few, |groups|))
  {
    hide Heads, Lens, AllFlagged;
    var heads, lens := Heads(groups, few, |groups|), Lens(groups, few, |groups|);
    LensOfHeads(groups, few, |groups|);
    forall m | 0 <= m < |heads| ensures FlagAgrees(zeroes, heads[m], lens[m]) {
      var g, i := HeadIs(groups, few, |groups|, m);
      LensOfHeads(groups, few, g);
      LensOfHeads(groups, many, g);
      HeadAt(groups, few, g, |groups|, i);
      LenAt(groups, few, g, |groups|, i);
      HeadAt(groups, many, g, |groups|, i);
      LenAt(groups, many, g, |groups|, i);
      var n := |Heads(groups, many, g)| + i;
      assert FlagAgrees(zeroes, Heads(groups, many, |groups|)[n], Lens(groups, many, |groups|)[n]);
    }
  }

  /** Then the flags of the groups are what they were. */
  lemma AgreedIsKept(z0: seq<bool>, z: seq<bool>, heads: seq<nat>, lens: seq<nat>)
    requires FlagsAgree(z0, heads, lens) && Adjusted(z0, z, heads, lens, |heads|)
    ensures z == z0
  {
    forall a | 0 <= a < |z| ensures z[a] == z0[a] {
      if a in heads[..|heads|] {
        var m :| 0 <= m < |heads| && heads[m] == a;
        assert FlagAgrees(z0, heads[m], lens[m]);
        HeadCovered(heads[m], lens[m]);
      }
    }
  }

  /** The number of coded bands, and the flags of the groups. After the search no flag changes, and
      what is cut off is silent in every window. */
  method AdjustFrameInformation(zeroes: array<bool>, numSwb: nat, groupLen: seq<nat>, numWindows: nat,
                                ghost groups: seq<nat>) returns (maxSfb: nat)
    requires zeroes.Length == ENTRIES && Geometry(groups, numSwb) && Grouped(groups, groupLen, numWindows)
    requires FlagsAgree(zeroes[..], Heads(groups, numSwb, |groups|), Lens(groups, numSwb, |groups|))
    modifies zeroes
    ensures WindowFits(zeroes[..], numSwb, numWindows) && maxSfb == MostInUse(old(zeroes[..]), numSwb, numWindows)
    ensures zeroes[..] == old(zeroes[..])
  {
    hide Heads, Lens, Adjusted, FlagsAgree;
    AllWindowsFit(zeroes[..], groups, numSwb, numWindows, groupLen);
    ghost var z0 := zeroes[..];
    maxSfb := CountBands(zeroes, numSwb, numWindows);
    if maxSfb > 0 {
      FewerBands(groups, maxSfb, numSwb);
      AdjustGroups(zeroes, maxSfb, groupLen, numWindows, groups);
      FewerAgree(z0, groups, maxSfb, numSwb);
      AgreedIsKept(z0, zeroes[..], Heads(groups, maxSfb, |groups|), Lens(groups, maxSfb, |groups|));
    }
  }

  lemma AllWindowsFit(zeroes: seq<bool>, groups: seq<nat>, numSwb: nat, numWindows: nat, groupLen: seq<nat>)
    requires Geometry(groups, numSwb) && Grouped(groups, groupLen, numWindows) && |zeroes| == ENTRIES
    ensures WindowFits(zeroes, numSwb, numWindows)
  {
    if groups == [1] {
      assert Windows(groups, 1) == Windows(groups, 0) + 1;
    }
  }

  lemma FewerBands(groups: seq<nat>, few: nat, many: nat)
    requires Geometry(groups, many) && 0 < few <= many
    ensures Geometry(groups, few)
  {
  }
}
