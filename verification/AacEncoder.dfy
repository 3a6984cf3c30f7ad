/** One channel written in place (put_ics_info, encode_band_info, encode_scale_factors,
    encode_spectral_coeffs and encode_individual_channel of libavcodec/aacenc.c). */
module AacEncoder {
  import opened Wrappers
  import opened Sums
  import opened BitIO
  import opened CodeLists
  import opened AacSections
  import opened AacSpectral
  import opened AacSpectrum
  import opened AacChannel
  import opened AacStream
  import opened AacTrellis
  import opened AacSectionCoder
  import opened AacBandCoder
  import opened AacTwoLoop
  import opened AacBudget
  import opened AacQuantise

  // ---------- window information ----------

  lemma FlagsStep(groupLen: seq<nat>, w: nat)
    requires 0 < w < |groupLen|
    ensures GroupFlags(groupLen)[..w] == GroupFlags(groupLen)[..w - 1] + [groupLen[w] == 0]
  {
  }

  /** Five parts in a row, as they are appended. */
  lemma FiveAppended(before: Bits, parts: seq<Bits>)
    requires |parts| == 5
    ensures before + parts[0] + parts[1] + parts[2] + parts[3] + parts[4] == before + Join(parts, 5)
  {
    var j1, j2, j3, j4 := Join(parts, 1), Join(parts, 2), Join(parts, 3), Join(parts, 4);
    assert Join(parts, 0) == [] && j1 == parts[0];
    assert j2 == j1 + parts[1] && j3 == j2 + parts[2] && j4 == j3 + parts[3] && Join(parts, 5) == j4 + parts[4];
  }

  /** put_ics_info. */
  method PutIcsInfo(pb: PutBitContext, windowSequence: nat, kbWindow: bool, maxSfb: nat, groupLen: seq<nat>,
                    ghost groups: seq<nat>)
    requires ValidIcs(Ics(windowSequence, kbWindow, maxSfb, groups))
    requires Grouped(groups, groupLen, Windows(groups, |groups|))
    modifies pb
    ensures pb.bits == old(pb.bits) + IcsCode(Ics(windowSequence, kbWindow, maxSfb, groups))
  {
    hide ToBits, Join, Windows, GroupLen;
    FieldsFit();
    ghost var parts := IcsParts(Ics(windowSequence, kbWindow, maxSfb, groups));
    OneBit(false);
    OneBit(kbWindow);
    pb.PutBits(1, 0);
    pb.PutBits(2, windowSequence);
    pb.PutBits(1, if kbWindow then 1 else 0);
    if windowSequence != EIGHT_SHORT {
      pb.PutBits(6, maxSfb);
      pb.PutBits(1, 0);
    } else {
      pb.PutBits(4, maxSfb);
      PutGrouping(pb, groupLen, groups);
    }
    FiveAppended(old(pb.bits), parts);
  }

  /** The grouping flags of eight short windows. */
  method PutGrouping(pb: PutBitContext, groupLen: seq<nat>, ghost groups: seq<nat>)
    requires Grouped(groups, groupLen, 8)
    modifies pb
    ensures pb.bits == old(pb.bits) + GroupFlags(GroupLen(groups, |groups|))
  {
    GroupLenSize(groups, |groups|);
    ghost var flags := GroupFlags(groupLen);
    for w := 1 to 8
      invariant pb.bits == old(pb.bits) + flags[..w - 1]
    {
      OneBit(groupLen[w] == 0);
      FlagsStep(groupLen, w);
      pb.PutBits(1, if groupLen[w] == 0 then 1 else 0);
    }
    assert flags[..7] == flags;
  }

  // ---------- sections ----------

  /** Bit counts of the bands of the group at window w, by band and codebook. */
  type Spends = nat -> ((nat, nat) -> nat)

  /** Groups whose bands have entries of their own in the flat arrays. */
  ghost predicate Apart(groups: seq<nat>, maxSfb: nat) {
    && (forall k :: 0 <= k < |groups| ==> groups[k] > 0)
    && ((groups == [1] && maxSfb <= 51) || (maxSfb <= 16 && Windows(groups, |groups|) == 8))
  }

  lemma EntriesInRange(groups: seq<nat>, maxSfb: nat, g: nat)
    requires Apart(groups, maxSfb) && g < |groups|
    ensures 16 * Windows(groups, g) + maxSfb <= ENTRIES
    ensures g + 1 < |groups| ==> 16 * Windows(groups, g) + maxSfb <= 16 * Windows(groups, g + 1)
  {
    WindowsMonotone(groups, g + 1, |groups|);
    assert Windows(groups, 0) == 0;
  }

  /** The bands of group g as the arrays describe them. */
  ghost function GroupBands(zeroes: seq<bool>, bandType: seq<nat>, groups: seq<nat>, maxSfb: nat, spends: Spends,
                            g: nat): seq<Band>
    requires g < |groups| && |zeroes| == |bandType| == ENTRIES && 16 * Windows(groups, g) + maxSfb <= ENTRIES
  {
    BandsOf(zeroes, bandType, 16 * Windows(groups, g), maxSfb, spends(Windows(groups, g)))
  }

  /** The trellis applies to every group: some choice of codebooks stays below its sentinel. */
  ghost predicate Sectionable(short: bool, zeroes: seq<bool>, bandType: seq<nat>, groups: seq<nat>, maxSfb: nat,
                              spends: Spends) {
    && Apart(groups, maxSfb) && |zeroes| == |bandType| == ENTRIES
    && forall g :: 0 <= g < |groups| ==> GroupSectionable(short, zeroes, bandType, groups, maxSfb, spends, g)
  }

  ghost predicate GroupSectionable(short: bool, zeroes: seq<bool>, bandType: seq<nat>, groups: seq<nat>, maxSfb: nat,
                                   spends: Spends, g: nat) {
    && g < |groups| && |zeroes| == |bandType| == ENTRIES && 16 * Windows(groups, g) + maxSfb <= ENTRIES
    && var bands := GroupBands(zeroes, bandType, groups, maxSfb, spends, g);
       ValidBands(bands) && (maxSfb > 0 ==> Affordable(short, bands))
  }

  /** The sections of every group. */
  ghost function SectionsOf(short: bool, zeroes: seq<bool>, bandType: seq<nat>, groups: seq<nat>, maxSfb: nat,
                            spends: Spends): (r: seq<seq<Section>>)
    requires Sectionable(short, zeroes, bandType, groups, maxSfb, spends)
    ensures |r| == |groups|
  {
    seq(|groups|, g requires 0 <= g < |groups| =>
      assert GroupSectionable(short, zeroes, bandType, groups, maxSfb, spends, g);
      Chosen(short, GroupBands(zeroes, bandType, groups, maxSfb, spends, g)))
  }

  lemma SectionsAt(short: bool, zeroes: seq<bool>, bandType: seq<nat>, groups: seq<nat>, maxSfb: nat, spends: Spends,
                   g: nat)
    requires Sectionable(short, zeroes, bandType, groups, maxSfb, spends) && g < |groups|
    ensures GroupSectionable(short, zeroes, bandType, groups, maxSfb, spends, g)
    ensures SectionsOf(short, zeroes, bandType, groups, maxSfb, spends)[g]
         == Chosen(short, GroupBands(zeroes, bandType, groups, maxSfb, spends, g))
  {
  }

  /** The arrays hold the codebooks of the first g groups. */
  ghost predicate AllRecorded(zeroes: seq<bool>, bandType: seq<nat>, groups: seq<nat>, maxSfb: nat,
                              books: seq<seq<nat>>, g: nat)
    requires g <= |groups| == |books| && |zeroes| == |bandType| == ENTRIES
  {
    forall k :: 0 <= k < g ==> RecordedGroup(zeroes, bandType, 16 * Windows(groups, k), maxSfb, books[k])
  }

  ghost predicate RecordedGroup(zeroes: seq<bool>, bandType: seq<nat>, base: nat, maxSfb: nat, books: seq<nat>) {
    && base + maxSfb <= |zeroes| && base + maxSfb <= |bandType| && |books| == maxSfb
    && forall i :: 0 <= i < maxSfb ==> bandType[base + i] == books[i] && zeroes[base + i] == (books[i] == 0)
  }

  /** The entries from some index on are untouched. */
  ghost predicate SameFrom(z0: seq<bool>, b0: seq<nat>, z: seq<bool>, b: seq<nat>, from: nat) {
    && |z| == |z0| && |b| == |b0|
    && (forall i :: from <= i < |z| ==> z[i] == z0[i]) && (forall i :: from <= i < |b| ==> b[i] == b0[i])
  }

  lemma SameBands(z0: seq<bool>, b0: seq<nat>, z: seq<bool>, b: seq<nat>, base: nat, maxSfb: nat,
                  spend: (nat, nat) -> nat)
    requires SameFrom(z0, b0, z, b, base) && base + maxSfb <= |z| && base + maxSfb <= |b|
    ensures BandsOf(z, b, base, maxSfb, spend) == BandsOf(z0, b0, base, maxSfb, spend)
  {
  }

  lemma GroupRecorded(z1: seq<bool>, b1: seq<nat>, z2: seq<bool>, b2: seq<nat>, groups: seq<nat>, maxSfb: nat,
                      books: seq<seq<nat>>, g: nat)
    requires Apart(groups, maxSfb) && g < |groups| == |books| && |z1| == |b1| == |z2| == |b2| == ENTRIES
    requires AllRecorded(z1, b1, groups, maxSfb, books, g) && |books[g]| == maxSfb
    requires AacSectionCoder.Recorded(z1, b1, z2, b2, 16 * Windows(groups, g), books[g])
    ensures AllRecorded(z2, b2, groups, maxSfb, books, g + 1)
  {
    hide Windows, Apart, RecordedGroup, AacSectionCoder.Recorded;
    EntriesInRange(groups, maxSfb, g);
    forall k | 0 <= k < g + 1 ensures RecordedGroup(z2, b2, 16 * Windows(groups, k), maxSfb, books[k]) {
      if k < g {
        EntriesInRange(groups, maxSfb, k);
        WindowsMonotone(groups, k + 1, g);
        assert RecordedGroup(z1, b1, 16 * Windows(groups, k), maxSfb, books[k]);
        EarlierRecorded(z1, b1, z2, b2, 16 * Windows(groups, k), maxSfb, books[k], 16 * Windows(groups, g), books[g]);
      } else {
        NewlyRecorded(z1, b1, z2, b2, maxSfb, 16 * Windows(groups, g), books[g]);
      }
    }
  }

  lemma EarlierRecorded(z1: seq<bool>, b1: seq<nat>, z2: seq<bool>, b2: seq<nat>, base: nat, maxSfb: nat,
                        books: seq<nat>, later: nat, more: seq<nat>)
    requires RecordedGroup(z1, b1, base, maxSfb, books) && base + maxSfb <= later
    requires AacSectionCoder.Recorded(z1, b1, z2, b2, later, more)
    ensures RecordedGroup(z2, b2, base, maxSfb, books)
  {
  }

  lemma NewlyRecorded(z1: seq<bool>, b1: seq<nat>, z2: seq<bool>, b2: seq<nat>, maxSfb: nat, base: nat, books: seq<nat>)
    requires AacSectionCoder.Recorded(z1, b1, z2, b2, base, books) && |books| == maxSfb
    ensures RecordedGroup(z2, b2, base, maxSfb, books)
  {
  }

  /** The sections of one window group. */
  method EncodeGroupInfo(pb: PutBitContext, zeroes: array<bool>, bandType: array<nat>, maxSfb: nat, short: bool,
                         spends: Spends, w: nat, ghost groups: seq<nat>, ghost g: nat, ghost z0: seq<bool>,
                         ghost b0: seq<nat>)
    requires zeroes.Length == bandType.Length == ENTRIES && g < |groups| && w == Windows(groups, g)
    requires Sectionable(short, z0, b0, groups, maxSfb, spends)
    requires AllRecorded(zeroes[..], bandType[..], groups, maxSfb,
                         GroupBooks(SectionsOf(short, z0, b0, groups, maxSfb, spends)), g)
    requires SameFrom(z0, b0, zeroes[..], bandType[..], 16 * w)
    modifies pb, zeroes, bandType
    ensures var ss := SectionsOf(short, z0, b0, groups, maxSfb, spends);
      && pb.bits == old(pb.bits) + SectionsCode(short, ss[g])
      && AllRecorded(zeroes[..], bandType[..], groups, maxSfb, GroupBooks(ss), g + 1)
    ensures g + 1 < |groups| ==> SameFrom(z0, b0, zeroes[..], bandType[..], 16 * Windows(groups, g + 1))
  {
    hide Chosen, Books, ValidBands, Affordable, SectionsCode, AllRecorded, SameFrom, BandsOf, RecordedGroup, Apart,
      Windows, SectionsOf;
    ghost var z1, b1 := zeroes[..], bandType[..];
    ghost var ss := SectionsOf(short, z0, b0, groups, maxSfb, spends);
    EntriesInRange(groups, maxSfb, g);
    AtMost51(groups, maxSfb);
    SectionsAt(short, z0, b0, groups, maxSfb, spends, g);
    SameBands(z0, b0, z1, b1, 16 * w, maxSfb, spends(w));
    CodebookTrellisRate(pb, zeroes, bandType, 16 * w, maxSfb, short, spends(w));
    GroupRecorded(z1, b1, zeroes[..], bandType[..], groups, maxSfb, GroupBooks(ss), g);
    StillSame(z0, b0, z1, b1, zeroes[..], bandType[..], groups, maxSfb, g, Books(ss[g]));
  }

  /** encode_band_info: the sections of all window groups. */
  method EncodeBandInfo(pb: PutBitContext, zeroes: array<bool>, bandType: array<nat>, maxSfb: nat, short: bool,
                        spends: Spends, groupLen: seq<nat>, numWindows: nat, ghost groups: seq<nat>)
    requires zeroes.Length == bandType.Length == ENTRIES && Grouped(groups, groupLen, numWindows)
    requires Sectionable(short, zeroes[..], bandType[..], groups, maxSfb, spends)
    modifies pb, zeroes, bandType
    ensures var ss := SectionsOf(short, old(zeroes[..]), old(bandType[..]), groups, maxSfb, spends);
      && pb.bits == old(pb.bits) + Cat(SectionData(short), ss, |ss|)
      && AllRecorded(zeroes[..], bandType[..], groups, maxSfb, GroupBooks(ss), |groups|)
  {
    hide Grouped, SectionsCode, AllRecorded, SameFrom, RecordedGroup, Sectionable, Windows, SectionsOf,
      GroupSectionable, GroupBooks;
    ghost var z0, b0 := zeroes[..], bandType[..];
    ghost var ss := SectionsOf(short, z0, b0, groups, maxSfb, spends);
    ghost var g := 0;
    var w := 0;
    GroupAt(groups, groupLen, numWindows, 0);
    NothingRecorded(z0, b0, groups, maxSfb, GroupBooks(ss));
    while w < numWindows
      invariant g <= |groups| && w == Windows(groups, g) && (g < |groups| <==> w < numWindows)
      invariant pb.bits == old(pb.bits) + Cat(SectionData(short), ss, g)
      invariant AllRecorded(zeroes[..], bandType[..], groups, maxSfb, GroupBooks(ss), g)
      invariant g < |groups| ==> SameFrom(z0, b0, zeroes[..], bandType[..], 16 * Windows(groups, g))
      decreases |groups| - g
    {
      EncodeGroupInfo(pb, zeroes, bandType, maxSfb, short, spends, w, groups, g, z0, b0);
      GroupAt(groups, groupLen, numWindows, g);
      NextGroup(groups, g);
      w := w + groupLen[w];
      g := g + 1;
      GroupAt(groups, groupLen, numWindows, g);
    }
  }

  lemma NextGroup(groups: seq<nat>, g: nat)
    requires g < |groups|
    ensures Windows(groups, g + 1) == Windows(groups, g) + groups[g]
  {
  }

  lemma AtMost51(groups: seq<nat>, maxSfb: nat)
    requires Apart(groups, maxSfb)
    ensures maxSfb <= 51
  {
  }

  lemma NothingRecorded(z: seq<bool>, b: seq<nat>, groups: seq<nat>, maxSfb: nat, books: seq<seq<nat>>)
    requires |groups| == |books| && |z| == |b| == ENTRIES
    ensures AllRecorded(z, b, groups, maxSfb, books, 0) && SameFrom(z, b, z, b, 16 * Windows(groups, 0))
    ensures Windows(groups, 0) == 0
  {
  }

  lemma StillSame(z0: seq<bool>, b0: seq<nat>, z1: seq<bool>, b1: seq<nat>, z2: seq<bool>, b2: seq<nat>,
                  groups: seq<nat>, maxSfb: nat, g: nat, books: seq<nat>)
    requires Apart(groups, maxSfb) && g < |groups| && |books| == maxSfb
    requires SameFrom(z0, b0, z1, b1, 16 * Windows(groups, g))
    requires AacSectionCoder.Recorded(z1, b1, z2, b2, 16 * Windows(groups, g), books)
    ensures g + 1 < |groups| ==> SameFrom(z0, b0, z2, b2, 16 * Windows(groups, g + 1))
  {
    EntriesInRange(groups, maxSfb, g);
  }

  // ---------- scalefactors ----------

  /** The dense lists of codebooks and scalefactors as the flat arrays hold them. */
  ghost predicate DenseView(heads: seq<nat>, zeroes: seq<bool>, sfIdx: seq<int>, books: seq<nat>, sf: seq<nat>) {
    && |books| == |sf| == |heads| && |zeroes| == |sfIdx| == ENTRIES
    && forall k :: 0 <= k < |heads|
        ==> heads[k] < ENTRIES && zeroes[heads[k]] == (books[k] == 0) && sf[k] == sfIdx[heads[k]]
  }

  /** The code words of the first k bands. */
  ghost function ScaleBitsTo(words: seq<Bits>, gain: nat, books: seq<nat>, sf: seq<nat>, k: nat): Bits
    requires |sf| == |books| && k <= |sf|
  {
    Join(ScaleCodes(words, gain, books, sf), k)
  }

  lemma OneScaleMore(words: seq<Bits>, gain: nat, books: seq<nat>, sf: seq<nat>, k: nat)
    requires CodableScales(gain, books, sf) && |words| == 121 && k < |sf| && books[k] <= 11
    ensures var prev := Previous(gain, books, sf, k);
      if books[k] == 0 then
        ScaleBitsTo(words, gain, books, sf, k + 1) == ScaleBitsTo(words, gain, books, sf, k)
        && Previous(gain, books, sf, k + 1) == prev
      else
        && 0 <= sf[k] - prev + SF_ZERO < 121 && Previous(gain, books, sf, k + 1) == sf[k]
        && ScaleBitsTo(words, gain, books, sf, k + 1)
            == ScaleBitsTo(words, gain, books, sf, k) + words[sf[k] - prev + SF_ZERO]
  {
    assert CodableScale(gain, books, sf, k);
  }

  /** The scalefactors of one window group. */
  method EncodeGroupScales(pb: PutBitContext, words: seq<Bits>, sfIdx: array<int>, zeroes: array<bool>, w: nat,
                           maxSfb: nat, off0: nat, ghost heads: seq<nat>, ghost gain: nat, ghost books: seq<nat>,
                           ghost sf: seq<nat>,
                           ghost k: nat, ghost before: Bits) returns (off: nat)
    requires DenseView(heads, zeroes[..], sfIdx[..], books, sf) && CodableScales(gain, books, sf) && |words| == 121
    requires k + maxSfb <= |heads| && forall m :: k <= m < k + maxSfb ==> heads[m] == 16 * w + m - k
    requires forall m :: 0 <= m < |books| ==> books[m] <= 11
    requires off0 == Previous(gain, books, sf, k) && pb.bits == before + ScaleBitsTo(words, gain, books, sf, k)
    modifies pb
    ensures off == Previous(gain, books, sf, k + maxSfb)
    ensures pb.bits == before + ScaleBitsTo(words, gain, books, sf, k + maxSfb)
  {
    hide ScaleBitsTo, Previous, CodableScales;
    off := off0;
    for i := 0 to maxSfb
      invariant off == Previous(gain, books, sf, k + i)
      invariant pb.bits == before + ScaleBitsTo(words, gain, books, sf, k + i)
    {
      OneScaleMore(words, gain, books, sf, k + i);
      assert heads[k + i] == 16 * w + i;
      if !zeroes[16 * w + i] {
        var diff := sfIdx[16 * w + i] - off + SF_ZERO;
        PutWord(pb, words[diff]);
        off := sfIdx[16 * w + i];
      }
    }
  }

  /** encode_scale_factors: no difference is outside the code. */
  method EncodeScaleFactors(pb: PutBitContext, words: seq<Bits>, sfIdx: array<int>, zeroes: array<bool>, maxSfb: nat,
                            groupLen: seq<nat>, numWindows: nat, ghost groups: seq<nat>, ghost books: seq<nat>,
                            ghost sf: seq<nat>)
    requires Grouped(groups, groupLen, numWindows) && |words| == 121 && sfIdx.Length == zeroes.Length == ENTRIES
    requires DenseView(Heads(groups, maxSfb, |groups|), zeroes[..], sfIdx[..], books, sf)
    requires sfIdx[0] >= 0 && CodableScales(sfIdx[0], books, sf)
    requires forall m :: 0 <= m < |books| ==> books[m] <= 11
    modifies pb
    ensures pb.bits == old(pb.bits) + Join(ScaleCodes(words, sfIdx[0], books, sf), |sf|)
  {
    hide Grouped, Heads, ScaleBitsTo, Previous, CodableScales, DenseView, Windows;
    ghost var heads := Heads(groups, maxSfb, |groups|);
    ghost var gain: nat := sfIdx[0];
    ghost var before := pb.bits;
    ghost var g, k := 0, 0;
    var off: nat := sfIdx[0];
    var w := 0;
    DenseLengths(heads, zeroes[..], sfIdx[..], books, sf);
    NoScales(words, gain, books, sf);
    NoHeads(groups, maxSfb);
    NoWindows(groups);
    GroupAt(groups, groupLen, numWindows, 0);
    while w < numWindows
      invariant g <= |groups| && w == Windows(groups, g) && (g < |groups| <==> w < numWindows)
      invariant k == |Heads(groups, maxSfb, g)| <= |heads|
      invariant off == Previous(gain, books, sf, k) && pb.bits == before + ScaleBitsTo(words, gain, books, sf, k)
      decreases |groups| - g
    {
      HeadRowAt(groups, maxSfb, g);
      off := EncodeGroupScales(pb, words, sfIdx, zeroes, w, maxSfb, off, heads, gain, books, sf, k, before);
      GroupAt(groups, groupLen, numWindows, g);
      NextGroup(groups, g);
      w := w + groupLen[w];
      g, k := g + 1, k + maxSfb;
      GroupAt(groups, groupLen, numWindows, g);
    }
    AllScales(words, gain, books, sf);
  }

  lemma DenseLengths(heads: seq<nat>, zeroes: seq<bool>, sfIdx: seq<int>, books: seq<nat>, sf: seq<nat>)
    requires DenseView(heads, zeroes, sfIdx, books, sf)
    ensures |books| == |sf| == |heads|
  {
  }

  lemma NoScales(words: seq<Bits>, gain: nat, books: seq<nat>, sf: seq<nat>)
    requires |sf| == |books|
    ensures ScaleBitsTo(words, gain, books, sf, 0) == [] && Previous(gain, books, sf, 0) == gain
  {
  }

  lemma AllScales(words: seq<Bits>, gain: nat, books: seq<nat>, sf: seq<nat>)
    requires |sf| == |books|
    ensures ScaleBitsTo(words, gain, books, sf, |sf|) == Join(ScaleCodes(words, gain, books, sf), |sf|)
  {
  }

  lemma NoWindows(groups: seq<nat>)
    ensures Windows(groups, 0) == 0
  {
  }

  /** The heads of one group are consecutive entries. */
  lemma HeadRowAt(groups: seq<nat>, n: nat, g: nat)
    requires g < |groups|
    ensures var heads, k := Heads(groups, n, |groups|), |Heads(groups, n, g)|;
      && k + n <= |heads| && |Heads(groups, n, g + 1)| == k + n
      && forall m :: k <= m < k + n ==> heads[m] == 16 * Windows(groups, g) + m - k
  {
    HeadsGrow(groups, n, g);
    var heads, k := Heads(groups, n, |groups|), |Heads(groups, n, g)|;
    forall m | k <= m < k + n ensures heads[m] == 16 * Windows(groups, g) + m - k {
      HeadAt(groups, n, g, |groups|, m - k);
    }
  }

  // ---------- spectrum ----------

  /** The bits of the first k bands of windows. */
  ghost function SpectrumTo(t: Tables, jobs: seq<Job>, q: seq<int>, k: nat): Bits
    requires |t.books| == 11 && k <= |jobs| && forall m :: 0 <= m < |jobs| ==> jobs[m].start + jobs[m].len <= |q|
  {
    Cat(JobCoder(t), CodedJobs(jobs, q), k)
  }

  /** What the encoder needs of its jobs: they lie in the spectrum and their books hold them. */
  ghost predicate SpectrumFits(t: Tables, jobs: seq<Job>, q: seq<int>) {
    && ValidTables(t) && |q| == COEFS && Transmits(jobs, q)
  }

  lemma JobMore(t: Tables, jobs: seq<Job>, q: seq<int>, k: nat)
    requires SpectrumFits(t, jobs, q) && k < |jobs|
    ensures var job := jobs[k];
      && job.start + job.len <= |q| && job.len % 4 == 0 && |t.books| == 11
      && (forall m :: 0 <= m < |jobs| ==> jobs[m].start + jobs[m].len <= |q|)
      && (IsCoded(job.book) ==>
            AllFit(job.book, q[job.start..job.start + job.len]) && ValidBook(t.books[job.book - 1], job.book)
            && SpectrumTo(t, jobs, q, k + 1)
               == SpectrumTo(t, jobs, q, k)
                  + BandCode(t.books[job.book - 1], job.book, q[job.start..job.start + job.len]))
      && (!IsCoded(job.book) ==> SpectrumTo(t, jobs, q, k + 1) == SpectrumTo(t, jobs, q, k))
  {
    hide BandCode, AllFit, ValidBook;
    assert Carries(CodedJobs(jobs, q)[k], q);
  }

  /** One band of a group, window by window. */
  method EncodeBandWindows(pb: PutBitContext, t: Tables, q: array<int>, book: nat, first: nat, len: nat, start: nat,
                           size: nat, ghost jobs: seq<Job>, ghost k: nat, ghost before: Bits)
    requires SpectrumFits(t, jobs, q[..]) && BandRow(jobs, k, len, book, first, start, size)
    requires book <= 11
    requires (forall m :: 0 <= m < |jobs| ==> jobs[m].start + jobs[m].len <= q.Length) && |t.books| == 11
    requires pb.bits == before + SpectrumTo(t, jobs, q[..], k)
    modifies pb
    ensures pb.bits == before + SpectrumTo(t, jobs, q[..], k + len)
  {
    hide SpectrumTo, SpectrumFits, BandCode, AllFit, ValidBook, CodedJobs;
    for w2 := 0 to len
      invariant pb.bits == before + SpectrumTo(t, jobs, q[..], k + w2)
    {
      JobMore(t, jobs, q[..], k + w2);
      var at := (first + w2) * WINDOW + start;
      assert jobs[k + w2] == Job(book, at, size);
      if book != 0 {
        var bits := QuantizeAndEncodeBandCost(pb, t.books[book - 1], book, q[at..at + size]);
        assert q[..][at..at + size] == q[at..at + size];
      }
    }
  }

  lemma {:induction false} SilentBand(t: Tables, jobs: seq<Job>, q: seq<int>, k: nat, n: nat, len: nat, first: nat,
                                      start: nat, size: nat)
    requires SpectrumFits(t, jobs, q) && n <= len && BandRow(jobs, k, len, 0, first, start, size)
    requires |t.books| == 11 && forall m :: 0 <= m < |jobs| ==> jobs[m].start + jobs[m].len <= |q|
    ensures SpectrumTo(t, jobs, q, k + n) == SpectrumTo(t, jobs, q, k)
  {
    hide SpectrumTo, SpectrumFits;
    if n > 0 {
      SilentBand(t, jobs, q, k, n - 1, len, first, start, size);
      JobMore(t, jobs, q, k + n - 1);
    }
  }

  /** The bands of one window group. */
  method EncodeGroupSpectrum(pb: PutBitContext, t: Tables, q: array<int>, zeroes: array<bool>, bandType: array<nat>,
                             swbSizes: seq<nat>, w: nat, len: nat, maxSfb: nat, ghost lay: Layout,
                             ghost books: seq<seq<nat>>, ghost g: nat, ghost before: Bits)
    requires ValidLayout(lay) && ValidBooks(lay, books) && g < |lay.groups| && len == lay.groups[g]
        && w == Windows(lay.groups, g)
    requires maxSfb == lay.maxSfb == |swbSizes|
        && forall i :: 0 <= i < maxSfb ==> swbSizes[i] == lay.offsets[i + 1] - lay.offsets[i]
    requires RecordedGroup(zeroes[..], bandType[..], 16 * w, maxSfb, books[g])
        && forall i :: 0 <= i < maxSfb ==> books[g][i] <= 11
    requires var jobs := Jobs(lay, books);
      && SpectrumFits(t, jobs, q[..]) && |t.books| == 11
      && (forall m :: 0 <= m < |jobs| ==> jobs[m].start + jobs[m].len <= q.Length)
      && JobIndex(lay, books, g, maxSfb) <= |jobs|
      && JobIndex(lay, books, g, 0) <= |jobs|
      && pb.bits == before + SpectrumTo(t, jobs, q[..], JobIndex(lay, books, g, 0))
    modifies pb
    ensures pb.bits == before + SpectrumTo(t, Jobs(lay, books), q[..], JobIndex(lay, books, g, maxSfb))
  {
    hide SpectrumTo, SpectrumFits, GroupJobs, BandJobs, JobIndex, BandRow;
    ghost var jobs := Jobs(lay, books);
    var start := 0;
    for i := 0 to maxSfb
      invariant start == lay.offsets[i] && JobIndex(lay, books, g, i) <= |jobs|
      invariant pb.bits == before + SpectrumTo(t, jobs, q[..], JobIndex(lay, books, g, i))
    {
      BandRowAt(lay, books, g, i);
      ghost var k := JobIndex(lay, books, g, i);
      RowInside(jobs, k, len, books[g][i], w, start, swbSizes[i]);
      if zeroes[w * 16 + i] {
        SilentBand(t, jobs, q[..], k, len, len, w, start, swbSizes[i]);
      } else {
        EncodeBandWindows(pb, t, q, bandType[w * 16 + i], w, len, start, swbSizes[i], jobs, k, before);
      }
      start := start + swbSizes[i];
    }
  }

  /** encode_spectral_coeffs. */
  method EncodeSpectralCoeffs(pb: PutBitContext, t: Tables, q: array<int>, zeroes: array<bool>, bandType: array<nat>,
                              swbSizes: seq<nat>, maxSfb: nat, groupLen: seq<nat>, numWindows: nat, ghost lay: Layout,
                              ghost books: seq<seq<nat>>)
    requires ValidLayout(lay) && ValidBooks(lay, books) && Grouped(lay.groups, groupLen, numWindows)
    requires maxSfb == lay.maxSfb == |swbSizes|
        && forall i :: 0 <= i < maxSfb ==> swbSizes[i] == lay.offsets[i + 1] - lay.offsets[i]
    requires zeroes.Length == bandType.Length == ENTRIES
        && AllRecorded(zeroes[..], bandType[..], lay.groups, maxSfb, books, |lay.groups|)
    requires forall g, i :: 0 <= g < |books| && 0 <= i < |books[g]| ==> books[g][i] <= 11
    requires SpectrumFits(t, Jobs(lay, books), q[..])
    modifies pb
    ensures |t.books| == 11 && forall m :: 0 <= m < |Jobs(lay, books)|
                                           ==> Jobs(lay, books)[m].start + Jobs(lay, books)[m].len <= q.Length
    ensures pb.bits == old(pb.bits) + SpectrumCode(t, Jobs(lay, books), q[..])
  {
    hide Grouped, SpectrumTo, SpectrumFits, GroupJobs, JobIndex, RecordedGroup, Windows, SpectrumCode, ValidLayout;
    ghost var jobs, before := Jobs(lay, books), pb.bits;
    CodableFacts(t, jobs, q[..]);
    ghost var g := 0;
    var w := 0;
    NoWindows(lay.groups);
    NoJobs(lay, books);
    GroupAt(lay.groups, groupLen, numWindows, 0);
    while w < numWindows
      invariant g <= |lay.groups| && w == Windows(lay.groups, g) && (g < |lay.groups| <==> w < numWindows)
      invariant |GroupJobs(lay, books, g)| <= |jobs|
      invariant pb.bits == before + SpectrumTo(t, jobs, q[..], |GroupJobs(lay, books, g)|)
      decreases |lay.groups| - g
    {
      GroupEdges(lay, books, g);
      JobsInside(lay, books, g + 1);
      GroupAt(lay.groups, groupLen, numWindows, g);
      EncodeGroupSpectrum(pb, t, q, zeroes, bandType, swbSizes, w, groupLen[w], maxSfb, lay, books, g, before);
      NextGroup(lay.groups, g);
      w := w + groupLen[w];
      g := g + 1;
      GroupAt(lay.groups, groupLen, numWindows, g);
    }
    WholeSpectrum(t, lay, books, q[..]);
  }

  lemma CodableFacts(t: Tables, jobs: seq<Job>, q: seq<int>)
    requires SpectrumFits(t, jobs, q)
    ensures |t.books| == 11 && |q| == COEFS && forall m :: 0 <= m < |jobs| ==> jobs[m].start + jobs[m].len <= |q|
    ensures SpectrumTo(t, jobs, q, 0) == []
  {
  }

  lemma WholeSpectrum(t: Tables, lay: Layout, books: seq<seq<nat>>, q: seq<int>)
    requires ValidLayout(lay) && ValidBooks(lay, books) && |t.books| == 11
    requires forall m :: 0 <= m < |Jobs(lay, books)| ==> Jobs(lay, books)[m].start + Jobs(lay, books)[m].len <= |q|
    ensures SpectrumTo(t, Jobs(lay, books), q, |GroupJobs(lay, books, |lay.groups|)|)
        == SpectrumCode(t, Jobs(lay, books), q)
  {
  }

  // ---------- the channel ----------

  /** The codebook holds the values; codebook 0 only zeros. */
  predicate Holds(book: nat, vals: seq<int>) {
    if Book(book) then AllFit(book, vals) else book == 0 && forall k :: 0 <= k < |vals| ==> vals[k] == 0
  }

  /** A larger codebook holds what a smaller one holds. */
  lemma LargerHolds(small: nat, large: nat, vals: seq<int>)
    requires Holds(small, vals) && small <= large <= 11
    ensures Holds(large, vals)
  {
    if Book(large) {
      forall k | 0 <= k < |vals| ensures Fits(large, vals[k]) {
        if Book(small) {
          assert Fits(small, vals[k]);
        }
      }
    }
  }

  /** The values of band i in window w. */
  ghost function BandValues(lay: Layout, q: seq<int>, w: nat, i: nat): seq<int>
    requires |q| == COEFS && i < lay.maxSfb && |lay.offsets| == lay.maxSfb + 1 && lay.offsets[i] <= lay.offsets[i + 1]
    requires w * WINDOW + lay.offsets[i + 1] <= COEFS
  {
    q[w * WINDOW + lay.offsets[i]..w * WINDOW + lay.offsets[i + 1]]
  }

  /** The quantised values: zero in silent bands, held by the band's least codebook in others. */
  ghost predicate BandQuantised(lay: Layout, zeroes: seq<bool>, bandType: seq<nat>, q: seq<int>, base: nat, w: nat,
                                i: nat) {
    && ValidLayout(lay) && |zeroes| == |bandType| == ENTRIES && base + i < ENTRIES && |q| == COEFS && i < lay.maxSfb
    && w * WINDOW + lay.offsets[i + 1] <= COEFS
    && Holds(if zeroes[base + i] then 0 else bandType[base + i], BandValues(lay, q, w, i))
  }

  /** All bands of window w, whose group's entries start at base. */
  ghost predicate AllQuantised(lay: Layout, zeroes: seq<bool>, bandType: seq<nat>, q: seq<int>, base: nat, w: nat) {
    forall i :: 0 <= i < lay.maxSfb ==> BandQuantised(lay, zeroes, bandType, q, base, w, i)
  }

  /** All bands of window number w of group g. */
  ghost predicate WindowQuantised(lay: Layout, zeroes: seq<bool>, bandType: seq<nat>, q: seq<int>, g: nat, w: nat) {
    g < |lay.groups| && AllQuantised(lay, zeroes, bandType, q, 16 * Windows(lay.groups, g), Windows(lay.groups, g) + w)
  }

  ghost predicate Quantised(lay: Layout, zeroes: seq<bool>, bandType: seq<nat>, q: seq<int>) {
    && ValidLayout(lay) && |zeroes| == |bandType| == ENTRIES && |q| == COEFS
    && (forall g, w :: 0 <= g < |lay.groups| && 0 <= w < lay.groups[g]
                       ==> WindowQuantised(lay, zeroes, bandType, q, g, w))
    && forall p :: 0 <= p < COEFS && InTail(lay, p) ==> q[p] == 0
  }

  /** The element of the encoder: silent flags, least codebooks and scalefactors by flat index,
      and the quantised spectrum. */
  datatype Element = Element(zeroes: seq<bool>, bandType: seq<nat>, sfIdx: seq<int>, q: seq<int>)

  /** What the quantizer search, the trellis and the layout promise. */
  ghost predicate Ready(fmt: Format, ics: Ics, e: Element, numSwb: nat, spends: Spends) {
    && ValidFormat(fmt) && ValidIcs(ics) && ValidIcsFor(fmt, ics) && ics.maxSfb <= numSwb
    && |e.zeroes| == |e.bandType| == |e.sfIdx| == ENTRIES
    && Sectionable(IsShort(ics), e.zeroes, e.bandType, ics.groups, ics.maxSfb, spends)
    && numSwb > 0 && Spread(Heads(ics.groups, numSwb, |ics.groups|), e.sfIdx)
    && Within(Heads(ics.groups, numSwb, |ics.groups|), e.sfIdx, 0, 255)
    && Quantised(LayoutOf(fmt, ics), e.zeroes, e.bandType, e.q)
  }

  lemma {:induction false} FewerHeads(groups: seq<nat>, few: nat, many: nat, g: nat, k: nat)
    requires few <= many && g <= |groups| && k < |Heads(groups, few, g)|
    ensures Heads(groups, few, g)[k] in Heads(groups, many, g)
  {
    hide HeadRow, Windows;
    var before := Heads(groups, few, g - 1);
    if k < |before| {
      FewerHeads(groups, few, many, g - 1, k);
      assert Heads(groups, few, g)[k] == before[k];
    } else {
      HeadAt(groups, many, g - 1, g, k - |before|);
      HeadAt(groups, few, g - 1, g, k - |before|);
    }
  }

  lemma FirstHead(groups: seq<nat>, n: nat)
    requires n > 0 && |groups| > 0
    ensures var heads := Heads(groups, n, |groups|); |heads| > 0 && heads[0] == 0
  {
    HeadAt(groups, n, 0, |groups|, 0);
    assert Windows(groups, 0) == 0;
  }

  ghost predicate ScalesReady(groups: seq<nat>, maxSfb: nat, numSwb: nat, sfIdx: seq<int>) {
    && |groups| > 0 && 0 < numSwb && maxSfb <= numSwb
    && Spread(Heads(groups, numSwb, |groups|), sfIdx) && Within(Heads(groups, numSwb, |groups|), sfIdx, 0, 255)
  }

  lemma PickedInRange(groups: seq<nat>, maxSfb: nat, numSwb: nat, sfIdx: seq<int>)
    requires ScalesReady(groups, maxSfb, numSwb, sfIdx)
    ensures |sfIdx| > 0 && 0 <= sfIdx[0] <= 255
    ensures Pickable(sfIdx, Heads(groups, maxSfb, |groups|))
  {
    FirstHead(groups, numSwb);
    var all := Heads(groups, numSwb, |groups|);
    assert all[0] == 0;
    var heads := Heads(groups, maxSfb, |groups|);
    forall k | 0 <= k < |heads| ensures heads[k] < |sfIdx| && sfIdx[heads[k]] >= 0 {
      FewerHeads(groups, maxSfb, numSwb, |groups|, k);
      var m :| 0 <= m < |all| && all[m] == heads[k];
    }
  }

  /** The scalefactors of the coded bands, group-major. */
  ghost function SentScales(groups: seq<nat>, maxSfb: nat, numSwb: nat, sfIdx: seq<int>): (sf: seq<nat>)
    requires ScalesReady(groups, maxSfb, numSwb, sfIdx)
  {
    PickedInRange(groups, maxSfb, numSwb, sfIdx);
    Picked(sfIdx, Heads(groups, maxSfb, |groups|))
  }

  /** The channel that is sent. */
  ghost function SentChannel(fmt: Format, ics: Ics, e: Element, numSwb: nat, spends: Spends): Channel
    requires Ready(fmt, ics, e, numSwb, spends)
  {
    PickedInRange(ics.groups, ics.maxSfb, numSwb, e.sfIdx);
    Channel(ics, e.sfIdx[0], SectionsOf(IsShort(ics), e.zeroes, e.bandType, ics.groups, ics.maxSfb, spends),
            SentScales(ics.groups, ics.maxSfb, numSwb, e.sfIdx), e.q)
  }

  // ---------- the channel that is sent is valid ----------

  /** The codebook of every band is one its trellis allows. */
  ghost predicate BooksAllowed(zeroes: seq<bool>, bandType: seq<nat>, base: nat, maxSfb: nat, books: seq<nat>) {
    && |books| == maxSfb && base + maxSfb <= |zeroes| && base + maxSfb <= |bandType|
    && forall i :: 0 <= i < maxSfb ==>
         books[i] <= 11 && (if zeroes[base + i] then books[i] == 0 else bandType[base + i] <= books[i])
  }

  lemma ChosenAllowed(short: bool, zeroes: seq<bool>, bandType: seq<nat>, base: nat, maxSfb: nat,
                      spend: (nat, nat) -> nat)
    requires base + maxSfb <= |zeroes| && base + maxSfb <= |bandType| && maxSfb <= 51
    requires ValidBands(BandsOf(zeroes, bandType, base, maxSfb, spend))
    requires maxSfb > 0 ==> Affordable(short, BandsOf(zeroes, bandType, base, maxSfb, spend))
    ensures var ss := Chosen(short, BandsOf(zeroes, bandType, base, maxSfb, spend));
      Sectioning(ss, maxSfb) && BooksAllowed(zeroes, bandType, base, maxSfb, Books(ss))
  {
    var bands := BandsOf(zeroes, bandType, base, maxSfb, spend);
    var ss := Chosen(short, bands);
    if maxSfb > 0 {
      ChosenTiles(short, bands);
      BooksInSections(ss);
      forall i | 0 <= i < maxSfb
        ensures Books(ss)[i] <= 11
        ensures if zeroes[base + i] then Books(ss)[i] == 0 else bandType[base + i] <= Books(ss)[i]
      {
        assert Allowed(bands[i], Books(ss)[i]);
      }
    }
  }

  /** The sections of the channel. */
  ghost function Chosens(ics: Ics, e: Element, spends: Spends): seq<seq<Section>>
    requires Sectionable(IsShort(ics), e.zeroes, e.bandType, ics.groups, ics.maxSfb, spends)
  {
    SectionsOf(IsShort(ics), e.zeroes, e.bandType, ics.groups, ics.maxSfb, spends)
  }

  lemma GroupChosen(ics: Ics, e: Element, spends: Spends, g: nat)
    requires Sectionable(IsShort(ics), e.zeroes, e.bandType, ics.groups, ics.maxSfb, spends) && g < |ics.groups|
    ensures |Chosens(ics, e, spends)| == |ics.groups| && Sectioning(Chosens(ics, e, spends)[g], ics.maxSfb)
    ensures BooksAllowed(e.zeroes, e.bandType, 16 * Windows(ics.groups, g), ics.maxSfb,
                         Books(Chosens(ics, e, spends)[g]))
  {
    hide Chosen, Books, Affordable, ValidBands, BandsOf, Sectioning, BooksAllowed, SectionsOf, Sectionable;
    SectionsAt(IsShort(ics), e.zeroes, e.bandType, ics.groups, ics.maxSfb, spends, g);
    SectionableFacts(IsShort(ics), e.zeroes, e.bandType, ics.groups, ics.maxSfb, spends);
    ChosenAllowed(IsShort(ics), e.zeroes, e.bandType, 16 * Windows(ics.groups, g), ics.maxSfb,
                  spends(Windows(ics.groups, g)));
  }

  lemma SectionableFacts(short: bool, zeroes: seq<bool>, bandType: seq<nat>, groups: seq<nat>, maxSfb: nat,
                         spends: Spends)
    requires Sectionable(short, zeroes, bandType, groups, maxSfb, spends)
    ensures |zeroes| == |bandType| == ENTRIES && maxSfb <= 51 && Apart(groups, maxSfb)
  {
  }

  /** The codebook of a band holds its values in every window. */
  lemma BookHolds(lay: Layout, e: Element, books: seq<nat>, base: nat, w: nat, i: nat)
    requires BandQuantised(lay, e.zeroes, e.bandType, e.q, base, w, i)
    requires BooksAllowed(e.zeroes, e.bandType, base, lay.maxSfb, books)
    ensures books[i] <= 11 && Holds(books[i], BandValues(lay, e.q, w, i))
  {
    hide Holds, BandValues;
    LargerHolds(if e.zeroes[base + i] then 0 else e.bandType[base + i], books[i], BandValues(lay, e.q, w, i));
  }

  /** Every job lies in the spectrum, and its codebook holds its values. */
  lemma JobHolds(lay: Layout, e: Element, books: seq<seq<nat>>, k: nat)
    requires Quantised(lay, e.zeroes, e.bandType, e.q) && ValidBooks(lay, books) && k < |Jobs(lay, books)|
    requires forall g :: 0 <= g < |books|
                         ==> BooksAllowed(e.zeroes, e.bandType, 16 * Windows(lay.groups, g), lay.maxSfb, books[g])
    ensures var job := Jobs(lay, books)[k];
      && job.start + job.len <= COEFS && job.len % 4 == 0 && job.book <= 11
      && Holds(job.book, e.q[job.start..job.start + job.len])
  {
    hide Holds, GroupJobs, BooksAllowed, BandValues, Windows;
    GroupJobsFit(lay, books, |lay.groups|, k);
    var g, i, w := JobIs(lay, books, |lay.groups|, k);
    var base, win := 16 * Windows(lay.groups, g), Windows(lay.groups, g) + w;
    assert WindowQuantised(lay, e.zeroes, e.bandType, e.q, g, w);
    assert AllQuantised(lay, e.zeroes, e.bandType, e.q, base, win);
    assert BandQuantised(lay, e.zeroes, e.bandType, e.q, base, win, i);
    BookHolds(lay, e, books[g], base, win, i);
    ValuesOfBand(lay, e.q, win, i);
  }

  lemma ValuesOfBand(lay: Layout, q: seq<int>, w: nat, i: nat)
    requires |q| == COEFS && i < lay.maxSfb && |lay.offsets| == lay.maxSfb + 1 && lay.offsets[i] <= lay.offsets[i + 1]
    requires w * WINDOW + lay.offsets[i + 1] <= COEFS
    ensures var start := w * WINDOW + lay.offsets[i];
      BandValues(lay, q, w, i) == q[start..start + (lay.offsets[i + 1] - lay.offsets[i])]
  {
  }

  lemma AllTransmit(lay: Layout, e: Element, books: seq<seq<nat>>)
    requires Quantised(lay, e.zeroes, e.bandType, e.q) && ValidBooks(lay, books)
    requires forall g :: 0 <= g < |books|
                         ==> BooksAllowed(e.zeroes, e.bandType, 16 * Windows(lay.groups, g), lay.maxSfb, books[g])
    ensures Transmits(Jobs(lay, books), e.q)
  {
    hide BooksAllowed, GroupJobs, AllFit, Quantised, Carries, ValidLayout;
    QuantisedFacts(lay, e);
    var jobs := Jobs(lay, books);
    forall k | 0 <= k < |jobs| ensures jobs[k].start + jobs[k].len <= |e.q| {
      JobHolds(lay, e, books, k);
    }
    forall k | 0 <= k < |jobs| ensures Carries(CodedJobs(jobs, e.q)[k], e.q) {
      JobHolds(lay, e, books, k);
      HeldCarries(jobs[k], e.q);
    }
  }

  lemma QuantisedFacts(lay: Layout, e: Element)
    requires Quantised(lay, e.zeroes, e.bandType, e.q)
    ensures ValidLayout(lay) && |e.q| == COEFS && forall p :: 0 <= p < COEFS && InTail(lay, p) ==> e.q[p] == 0
  {
  }

  lemma HeldCarries(job: Job, q: seq<int>)
    requires job.start + job.len <= |q| && job.len % 4 == 0 && Holds(job.book, q[job.start..job.start + job.len])
    ensures Carries(Coded(job, q[job.start..job.start + job.len]), q)
  {
  }

  lemma {:induction false} DenseLength(books: seq<seq<nat>>, groups: seq<nat>, n: nat, g: nat)
    requires g <= |books| == |groups| && forall k :: 0 <= k < |books| ==> |books[k]| == n
    ensures |Dense(books, g)| == |Heads(groups, n, g)|
  {
    if g > 0 {
      DenseLength(books, groups, n, g - 1);
    }
  }

  lemma {:induction false} DenseAt(books: seq<seq<nat>>, groups: seq<nat>, n: nat, g: nat, k: nat)
    returns (j: nat, i: nat)
    requires g <= |books| == |groups| && (forall m :: 0 <= m < |books| ==> |books[m]| == n) && k < |Dense(books, g)|
    ensures |Dense(books, g)| == |Heads(groups, n, g)| && j < g && i < n
    ensures Dense(books, g)[k] == books[j][i] && Heads(groups, n, g)[k] == 16 * Windows(groups, j) + i
  {
    hide Windows;
    DenseLength(books, groups, n, g);
    DenseLength(books, groups, n, g - 1);
    var before := |Dense(books, g - 1)|;
    if k < before {
      j, i := DenseAt(books, groups, n, g - 1, k);
    } else {
      j, i := g - 1, k - before;
    }
  }

  lemma AllSectioned(ics: Ics, e: Element, spends: Spends)
    requires Sectionable(IsShort(ics), e.zeroes, e.bandType, ics.groups, ics.maxSfb, spends)
    ensures var ss := Chosens(ics, e, spends);
      && |ss| == |ics.groups| && (forall g :: 0 <= g < |ss| ==> Sectioning(ss[g], ics.maxSfb))
      && (forall g :: 0 <= g < |ss| ==> |GroupBooks(ss)[g]| == ics.maxSfb)
      && (forall g :: 0 <= g < |ss| ==>
            BooksAllowed(e.zeroes, e.bandType, 16 * Windows(ics.groups, g), ics.maxSfb, GroupBooks(ss)[g]))
  {
    hide Sectionable, Sectioning, BooksAllowed, Chosens, Windows, Books;
    var ss := Chosens(ics, e, spends);
    if |ics.groups| > 0 {
      GroupChosen(ics, e, spends, 0);
    } else {
      NoGroups(ics, e, spends);
    }
    forall g | 0 <= g < |ss|
      ensures Sectioning(ss[g], ics.maxSfb) && |GroupBooks(ss)[g]| == ics.maxSfb
      ensures BooksAllowed(e.zeroes, e.bandType, 16 * Windows(ics.groups, g), ics.maxSfb, GroupBooks(ss)[g])
    {
      GroupChosen(ics, e, spends, g);
      AllowedLength(e.zeroes, e.bandType, 16 * Windows(ics.groups, g), ics.maxSfb, GroupBooks(ss)[g]);
    }
  }

  lemma NoGroups(ics: Ics, e: Element, spends: Spends)
    requires Sectionable(IsShort(ics), e.zeroes, e.bandType, ics.groups, ics.maxSfb, spends)
    ensures |Chosens(ics, e, spends)| == |ics.groups|
  {
  }

  lemma AllowedLength(zeroes: seq<bool>, bandType: seq<nat>, base: nat, maxSfb: nat, books: seq<nat>)
    requires BooksAllowed(zeroes, bandType, base, maxSfb, books)
    ensures |books| == maxSfb && forall i :: 0 <= i < maxSfb ==> books[i] <= 11
  {
  }

  /** Every difference of scalefactors that is sent has a code word. */
  lemma SentScalesCodable(groups: seq<nat>, maxSfb: nat, numSwb: nat, sfIdx: seq<int>, books: seq<seq<nat>>)
    requires ScalesReady(groups, maxSfb, numSwb, sfIdx) && |books| == |groups|
    requires forall g :: 0 <= g < |books| ==> |books[g]| == maxSfb && forall i :: 0 <= i < maxSfb ==> books[g][i] <= 11
    ensures |sfIdx| > 0 && sfIdx[0] >= 0
    ensures CodableScales(sfIdx[0], Dense(books, |books|), SentScales(groups, maxSfb, numSwb, sfIdx))
  {
    hide Spread, Within, CodableScales, Heads;
    PickedInRange(groups, maxSfb, numSwb, sfIdx);
    FirstHead(groups, numSwb);
    var all, picked, dense := Heads(groups, numSwb, |groups|), Heads(groups, maxSfb, |groups|), Dense(books, |books|);
    DenseLength(books, groups, maxSfb, |books|);
    forall m | 0 <= m < |picked| ensures picked[m] in all && dense[m] <= 11 {
      FewerHeads(groups, maxSfb, numSwb, |groups|, m);
      var j, i := DenseAt(books, groups, maxSfb, |books|, m);
    }
    SpreadIsCodable(all, sfIdx, dense, picked);
  }

  lemma ReadyFacts(fmt: Format, ics: Ics, e: Element, numSwb: nat, spends: Spends)
    requires Ready(fmt, ics, e, numSwb, spends)
    ensures ScalesReady(ics.groups, ics.maxSfb, numSwb, e.sfIdx)
    ensures var lay := LayoutOf(fmt, ics);
      && ValidLayout(lay) && lay.groups == ics.groups && lay.maxSfb == ics.maxSfb
      && Quantised(lay, e.zeroes, e.bandType, e.q)
  {
  }

  /** What the encoder sends is a channel that can be coded. */
  lemma SentIsValid(fmt: Format, ics: Ics, e: Element, numSwb: nat, spends: Spends)
    requires Ready(fmt, ics, e, numSwb, spends)
    ensures ValidChannel(fmt, SentChannel(fmt, ics, e, numSwb, spends))
  {
    hide Sectionable, Sectioning, BooksAllowed, Quantised, ScalesReady, CodableScales, Transmits, Spread, Within,
      SentScales, ValidLayout, Windows, Jobs, ValidTables;
    var ch := SentChannel(fmt, ics, e, numSwb, spends);
    var lay := LayoutOf(fmt, ics);
    ReadyFacts(fmt, ics, e, numSwb, spends);
    AllSectioned(ics, e, spends);
    assert ch.sections == Chosens(ics, e, spends);
    var books := GroupBooks(ch.sections);
    forall g | 0 <= g < |books| ensures |books[g]| == ics.maxSfb
        && forall i :: 0 <= i < ics.maxSfb ==> books[g][i] <= 11 {
      AllowedLength(e.zeroes, e.bandType, 16 * Windows(ics.groups, g), ics.maxSfb, books[g]);
    }
    SentScalesCodable(ics.groups, ics.maxSfb, numSwb, e.sfIdx, books);
    PickedInRange(ics.groups, ics.maxSfb, numSwb, e.sfIdx);
    AllTransmit(lay, e, books);
    QuantisedFacts(lay, e);
  }

  /** The arrays after encode_band_info show the dense lists. */
  lemma RecordedIsDense(groups: seq<nat>, maxSfb: nat, numSwb: nat, zeroes: seq<bool>, bandType: seq<nat>,
                        sfIdx: seq<int>, books: seq<seq<nat>>)
    requires ScalesReady(groups, maxSfb, numSwb, sfIdx) && |books| == |groups|
        && |zeroes| == |bandType| == |sfIdx| == ENTRIES
    requires (forall g :: 0 <= g < |books| ==> |books[g]| == maxSfb)
        && AllRecorded(zeroes, bandType, groups, maxSfb, books, |groups|)
    ensures DenseView(Heads(groups, maxSfb, |groups|), zeroes, sfIdx, Dense(books, |books|),
                      SentScales(groups, maxSfb, numSwb, sfIdx))
  {
    hide Spread, Within, AllRecorded, Heads, Dense, Windows;
    PickedInRange(groups, maxSfb, numSwb, sfIdx);
    var heads, dense := Heads(groups, maxSfb, |groups|), Dense(books, |books|);
    DenseLength(books, groups, maxSfb, |books|);
    forall k | 0 <= k < |heads| ensures heads[k] < ENTRIES && zeroes[heads[k]] == (dense[k] == 0) {
      var j, i := DenseAt(books, groups, maxSfb, |books|, k);
      GroupIsRecorded(zeroes, bandType, groups, maxSfb, books, j);
    }
  }

  lemma GroupIsRecorded(zeroes: seq<bool>, bandType: seq<nat>, groups: seq<nat>, maxSfb: nat, books: seq<seq<nat>>,
                        j: nat)
    requires |books| == |groups| && |zeroes| == |bandType| == ENTRIES && j < |groups|
    requires AllRecorded(zeroes, bandType, groups, maxSfb, books, |groups|)
    ensures RecordedGroup(zeroes, bandType, 16 * Windows(groups, j), maxSfb, books[j])
  {
  }

  lemma SixAppended(before: Bits, a: Bits, b: Bits, c: Bits, d: Bits, e: Bits, f: Bits)
    ensures before + a + b + c + d + e + f == before + (a + (b + (c + (d + (e + f)))))
  {
  }

  /** The sizes of the coded bands, from the offsets of the sampling rate. */
  ghost predicate SizesOf(fmt: Format, ics: Ics, swbSizes: seq<nat>) {
    && |swbSizes| == ics.maxSfb < |Offsets(fmt, ics)|
    && forall i :: 0 <= i < ics.maxSfb ==> swbSizes[i] + Offsets(fmt, ics)[i] == Offsets(fmt, ics)[i + 1]
  }

  lemma SizesOfLayout(fmt: Format, ics: Ics, swbSizes: seq<nat>)
    requires ValidFormat(fmt) && ValidIcsFor(fmt, ics) && SizesOf(fmt, ics, swbSizes)
    ensures var lay := LayoutOf(fmt, ics);
      && ics.maxSfb == lay.maxSfb == |swbSizes| && |lay.offsets| == lay.maxSfb + 1 && lay.groups == ics.groups
      && forall i :: 0 <= i < lay.maxSfb ==> swbSizes[i] == lay.offsets[i + 1] - lay.offsets[i]
  {
  }

  lemma ThreeZeros()
    ensures ToBits(1, 0) == [false] && Pow2(1) == 2
    ensures forall b: Bits :: b + [false] + [false] + [false] == b + [false, false, false]
  {
    assert ToBits(1, 0) == ToBits(0, 0) + [false];
  }

  lemma WindowPart(common: bool, ics: Ics)
    requires forall k :: 0 <= k < |ics.groups| ==> ics.groups[k] > 0
    ensures WindowCode(common, ics) == if common then [] else IcsCode(ics)
    ensures IsShort(ics) == (ics.windowSequence == EIGHT_SHORT)
  {
  }

  /** The channel's bits as they are appended. */
  lemma CodeInParts(fmt: Format, ch: Channel, common: bool, before: Bits)
    requires ValidChannel(fmt, ch)
    ensures before + ToBits(8, ch.gain) + WindowCode(common, ch.ics) + SectionBits(ch) + ScaleBits(fmt, ch)
              + [false, false, false] + SpectrumBits(fmt, ch) == before + ChannelCode(fmt, ch, common)
  {
    hide ToBits, WindowCode, SectionBits, ScaleBits, SpectrumBits;
    SixAppended(before, ToBits(8, ch.gain), WindowCode(common, ch.ics), SectionBits(ch), ScaleBits(fmt, ch),
                [false, false, false], SpectrumBits(fmt, ch));
  }

  // ---------- the channel in place ----------

  /** The bits of a band in the first n windows of a group, as the cost call counts them. */
  function WindowsCost(t: Tables, cb: nat, q: seq<int>, first: nat, start: nat, size: nat, n: nat): nat
    requires |t.books| == 11
  {
    if n == 0 then 0
    else WindowsCost(t, cb, q, first, start, size, n - 1)
         + WindowCost(t, cb, q, (first + (n - 1)) * WINDOW + start, size)
  }

  function WindowCost(t: Tables, cb: nat, q: seq<int>, at: nat, size: nat): nat
    requires |t.books| == 11
  {
    if Book(cb) && at + size <= |q| then CostOf(t.books[cb - 1], cb, q[at..at + size]) else 0
  }

  function CostOf(book: CodeBook, cb: nat, vals: seq<int>): (bits: nat)
    ensures bits == |BandCode(book, cb, vals)|
  {
    BandCostExact(book, cb, vals);
    BandCost(book, cb, vals)
  }

  /** What the trellis is told: the bits of band swb of the group at window w in codebook cb, for
      the spectrum as it is quantised to count in that codebook. */
  function SpendsOf(t: Tables, counted: nat -> seq<int>, offsets: seq<nat>, groupLen: seq<nat>): Spends
    requires |t.books| == 11
  {
    (w: nat) => (swb: nat, cb: nat) =>
      if w < |groupLen| && swb + 1 < |offsets| && offsets[swb] <= offsets[swb + 1]
      then WindowsCost(t, cb, counted(cb), w, offsets[swb], offsets[swb + 1] - offsets[swb], groupLen[w])
      else 0
  }

  /** What every part of the encoder needs, and what the parts of the channel are. */
  lemma EncodeFacts(fmt: Format, ics: Ics, e: Element, numSwb: nat, spends: Spends, groupLen: seq<nat>, numWindows: nat)
    requires Ready(fmt, ics, e, numSwb, spends) && Grouped(ics.groups, groupLen, numWindows)
    ensures var ch, lay := SentChannel(fmt, ics, e, numSwb, spends), LayoutOf(fmt, ics);
      var books := GroupBooks(ch.sections);
      && ValidChannel(fmt, ch) && ch.ics == ics && ch.q == e.q && 0 <= e.sfIdx[0] == ch.gain < 256 == Pow2(8)
      && ScalesReady(ics.groups, ics.maxSfb, numSwb, e.sfIdx)
      && ch.sf == SentScales(ics.groups, ics.maxSfb, numSwb, e.sfIdx)
      && |books| == |ch.sections| == |ics.groups| && (forall g :: 0 <= g < |books| ==> |books[g]| == ics.maxSfb)
      && DenseBooks(ch.sections) == Dense(books, |books|)
      && ch.sections == SectionsOf(IsShort(ics), e.zeroes, e.bandType, ics.groups, ics.maxSfb, spends)
      && SectionBits(ch) == Cat(SectionData(IsShort(ics)), ch.sections, |ch.sections|)
      && CodableScales(ch.gain, DenseBooks(ch.sections), ch.sf) && |ch.sf| == |DenseBooks(ch.sections)|
      && ScaleBits(fmt, ch) == Join(ScaleCodes(fmt.tables.scale, ch.gain, DenseBooks(ch.sections), ch.sf), |ch.sf|)
    ensures Sectionable(IsShort(ics), e.zeroes, e.bandType, ics.groups, ics.maxSfb, spends) && ValidIcsFor(fmt, ics)
        && ValidIcs(ics)
    ensures numWindows == Windows(ics.groups, |ics.groups|)
    ensures forall k :: 0 <= k < |ics.groups| ==> ics.groups[k] > 0
    ensures |fmt.tables.scale| == 121 && |e.zeroes| == |e.bandType| == |e.sfIdx| == ENTRIES
  {
    hide Sectionable, Sectioning, Quantised, Transmits, Spread, Within, SentScales, ValidLayout, Jobs, GroupJobs,
      SectionsOf, ScaleCodes, Cat, Join, Dense, ValidBooks, ValidBook, LayoutOf;
    ReadyFacts(fmt, ics, e, numSwb, spends);
    SentIsValid(fmt, ics, e, numSwb, spends);
    PickedInRange(ics.groups, ics.maxSfb, numSwb, e.sfIdx);
    AllSectioned(ics, e, spends);
    FieldsFit();
  }

  lemma SpectrumFacts(fmt: Format, ics: Ics, e: Element, numSwb: nat, spends: Spends)
    requires Ready(fmt, ics, e, numSwb, spends)
    ensures var ch, lay := SentChannel(fmt, ics, e, numSwb, spends), LayoutOf(fmt, ics);
      var books := GroupBooks(ch.sections);
      && ValidChannel(fmt, ch) && ValidFormat(fmt) && ValidLayout(lay) && ValidBooks(lay, books)
      && SpectrumFits(fmt.tables, Jobs(lay, books), e.q)
      && SpectrumBits(fmt, ch) == SpectrumCode(fmt.tables, Jobs(lay, books), e.q)
    ensures var books := GroupBooks(SentChannel(fmt, ics, e, numSwb, spends).sections);
      forall g, i :: 0 <= g < |books| && 0 <= i < |books[g]| ==> books[g][i] <= 11
  {
    hide Sectionable, Sectioning, Quantised, Carries, Spread, Within, SentScales, ValidLayout, GroupJobs, SectionsOf,
      SpectrumCode, ValidBook, BooksAllowed;
    SentIsValid(fmt, ics, e, numSwb, spends);
    AllSectioned(ics, e, spends);
    var books := GroupBooks(Chosens(ics, e, spends));
    forall g | 0 <= g < |books| ensures forall i :: 0 <= i < |books[g]| ==> books[g][i] <= 11 {
      AllowedLength(e.zeroes, e.bandType, 16 * Windows(ics.groups, g), ics.maxSfb, books[g]);
    }
  }

  // ---------- rounding gives what the encoder asks for ----------

  lemma {:induction false} OffsetsIncrease(offsets: seq<nat>, j: nat, k: nat)
    requires forall i :: 0 <= i < |offsets| - 1 ==> offsets[i] < offsets[i + 1]
    requires j < k < |offsets|
    ensures offsets[j] < offsets[k]
  {
    if j < k - 1 {
      OffsetsIncrease(offsets, j, k - 1);
    }
  }

  /** The place of a coefficient of a coded band. */
  lemma PlaceOf(fmt: Format, ics: Ics, g: nat, w: nat, i: nat, r: nat)
    requires ValidFormat(fmt) && ValidIcsFor(fmt, ics) && g < |ics.groups| && w < ics.groups[g] && i < ics.maxSfb
    requires Offsets(fmt, ics)[i] <= r < Offsets(fmt, ics)[i + 1]
    ensures var lay, win := LayoutOf(fmt, ics), Windows(ics.groups, g) + w; var p := win * WINDOW + r;
      && p < COEFS && OwnEntry(IsShort(ics), Offsets(fmt, ics), p) == 16 * win + i
      && HeadEntry(lay, p) == 16 * Windows(ics.groups, g) + i && !InTail(lay, p)
  {
    hide ValidTables, HeadEntry, OwnEntry, InTail, Windows, ValidLayout;
    var offsets := Offsets(fmt, ics);
    forall j, k | 0 <= j < k < |offsets| ensures offsets[j] < offsets[k] {
      OffsetsIncrease(offsets, j, k);
    }
    EntriesOf(LayoutOf(fmt, ics), offsets, g, w, i, r);
  }

  lemma BandInside(fmt: Format, ics: Ics, i: nat)
    requires ValidFormat(fmt) && ValidIcsFor(fmt, ics) && i < ics.maxSfb
    ensures i + 1 < |Offsets(fmt, ics)| && Offsets(fmt, ics)[i] < Offsets(fmt, ics)[i + 1]
    ensures |LayoutOf(fmt, ics).offsets| == LayoutOf(fmt, ics).maxSfb + 1
  {
  }

  lemma LayoutShape(fmt: Format, ics: Ics)
    requires ValidFormat(fmt) && ValidIcsFor(fmt, ics)
    ensures var lay := LayoutOf(fmt, ics); |lay.offsets| == lay.maxSfb + 1
  {
  }

  lemma OffsetsOf(fmt: Format, ics: Ics, i: nat)
    requires ValidFormat(fmt) && ValidIcsFor(fmt, ics) && i < ics.maxSfb
    ensures var offsets := LayoutOf(fmt, ics).offsets;
      && |offsets| == ics.maxSfb + 1 && i + 1 < |Offsets(fmt, ics)| && offsets[i] <= offsets[i + 1]
      && offsets[i] == Offsets(fmt, ics)[i] && offsets[i + 1] == Offsets(fmt, ics)[i + 1]
  {
  }

  /** A band of a window holds what its least codebook holds. */
  lemma BandRounded(fmt: Format, ics: Ics, zeroes: seq<bool>, bandType: seq<nat>, sfIdx: seq<int>, value: Value,
                    g: nat, w: nat, i: nat)
    requires ValidFormat(fmt) && ValidIcsFor(fmt, ics) && g < |ics.groups| && w < ics.groups[g] && i < ics.maxSfb
    requires |zeroes| == |bandType| == |sfIdx| == ENTRIES && 16 * Windows(ics.groups, g) + i < ENTRIES
    requires bandType[16 * Windows(ics.groups, g) + i] < BOOKS
    ensures var lay := LayoutOf(fmt, ics);
      |lay.offsets| == lay.maxSfb + 1 &&
      BandQuantised(lay, zeroes, bandType, Rounded(lay, zeroes, bandType, sfIdx, value), 16 * Windows(ics.groups, g),
                    Windows(ics.groups, g) + w, i)
  {
    hide ValidTables, HeadEntry, OwnEntry, InTail, Windows, Cut, LayoutOf, Rounded, ValidOffsets, ValidLayout;
    BandInside(fmt, ics, i);
    OffsetsOf(fmt, ics, i);
    var lay, win, a := LayoutOf(fmt, ics), Windows(ics.groups, g) + w, 16 * Windows(ics.groups, g) + i;
    var q := Rounded(lay, zeroes, bandType, sfIdx, value);
    var book := if zeroes[a] then 0 else bandType[a];
    PlaceOf(fmt, ics, g, w, i, lay.offsets[i + 1] - 1);
    forall p | win * WINDOW + lay.offsets[i] <= p < win * WINDOW + lay.offsets[i + 1]
      ensures p < COEFS && Abs(q[p]) <= Reach(book)
    {
      PlaceOf(fmt, ics, g, w, i, p - win * WINDOW);
    }
    LimitedHolds(q, win * WINDOW + lay.offsets[i], win * WINDOW + lay.offsets[i + 1], book);
  }

  lemma LimitedHolds(q: seq<int>, lo: nat, hi: nat, book: nat)
    requires lo <= hi <= |q| && book <= 11 && forall p :: lo <= p < hi ==> Abs(q[p]) <= Reach(book)
    ensures Holds(book, q[lo..hi])
  {
    forall k | 0 <= k < |q[lo..hi]| ensures q[lo..hi][k] == q[lo + k] && Abs(q[lo + k]) <= Reach(book) {
    }
  }

  /** Whatever the coefficients are rounded to, once cut to the least codebooks they are what the
      channel coder asks for. */
  lemma RoundedIsQuantised(fmt: Format, ics: Ics, zeroes: seq<bool>, bandType: seq<nat>, sfIdx: seq<int>,
                           value: Value)
    requires ValidFormat(fmt) && ValidIcsFor(fmt, ics) && Apart(ics.groups, ics.maxSfb)
    requires |zeroes| == |bandType| == |sfIdx| == ENTRIES
    requires forall g :: 0 <= g < |ics.groups| ==> LeastKnown(bandType, 16 * Windows(ics.groups, g), ics.maxSfb)
    ensures var lay := LayoutOf(fmt, ics);
      |lay.offsets| == lay.maxSfb + 1
      && Quantised(lay, zeroes, bandType, Rounded(lay, zeroes, bandType, sfIdx, value))
  {
    hide ValidTables, Windows, Rounded, BandQuantised, LeastKnown;
    var lay := LayoutOf(fmt, ics);
    var q := Rounded(lay, zeroes, bandType, sfIdx, value);
    forall g, w | 0 <= g < |lay.groups| && 0 <= w < lay.groups[g]
      ensures WindowQuantised(lay, zeroes, bandType, q, g, w)
    {
      EntriesInRange(ics.groups, ics.maxSfb, g);
      var base, win := 16 * Windows(ics.groups, g), Windows(ics.groups, g) + w;
      assert LeastKnown(bandType, base, ics.maxSfb);
      forall i | 0 <= i < lay.maxSfb ensures BandQuantised(lay, zeroes, bandType, q, base, win, i) {
        OneKnown(bandType, base, ics.maxSfb, i);
        BandRounded(fmt, ics, zeroes, bandType, sfIdx, value, g, w, i);
      }
    }
  }

  lemma OneKnown(bandType: seq<nat>, base: nat, n: nat, i: nat)
    requires LeastKnown(bandType, base, n) && i < n
    ensures base + i < |bandType| && bandType[base + i] < BOOKS
  {
  }

  // ---------- the trellis never runs out of costs ----------

  /** Spectral code words of at most sixteen bits. */
  ghost predicate ShortTables(t: Tables) {
    |t.books| == 11 && forall i :: 0 <= i < 11 ==> ShortWords(t.books[i])
  }

  lemma {:induction false} WindowsAtMost(t: Tables, cb: nat, q: seq<int>, first: nat, start: nat, size: nat, n: nat)
    requires ShortTables(t)
    ensures WindowsCost(t, cb, q, first, start, size, n) <= VALUE_BITS * (size * n)
  {
    hide ShortWords, WindowCost;
    if n > 0 {
      WindowsAtMost(t, cb, q, first, start, size, n - 1);
      OneWindowAtMost(t, cb, q, (first + (n - 1)) * WINDOW + start, size);
      OneMore(size, n);
    }
  }

  lemma OneMore(size: nat, n: nat)
    requires n > 0
    ensures VALUE_BITS * (size * n) == VALUE_BITS * (size * (n - 1)) + VALUE_BITS * size
  {
    assert size * n == size * (n - 1) + size;
  }

  lemma OneWindowAtMost(t: Tables, cb: nat, q: seq<int>, at: nat, size: nat)
    requires ShortTables(t)
    ensures WindowCost(t, cb, q, at, size) <= VALUE_BITS * size
  {
    hide ShortWords, BandCost;
    if Book(cb) && at + size <= |q| {
      BandAtMost(t.books[cb - 1], cb, q[at..at + size]);
    }
  }

  lemma Distribute(a: nat, b: nat, len: nat)
    requires a <= b
    ensures a * len + (b - a) * len == b * len
  {
  }

  /** The trellis is told the bits of these spectra, one for every codebook. */
  ghost predicate Counts(t: Tables, lay: Layout, counted: nat -> seq<int>, spends: Spends, g: nat) {
    && |t.books| == 11 && ValidLayout(lay) && g < |lay.groups|
    && forall i, cb :: 0 <= i < lay.maxSfb && 0 <= cb < BOOKS ==> CountsBand(t, lay, counted, spends, g, i, cb)
  }

  ghost predicate CountsBand(t: Tables, lay: Layout, counted: nat -> seq<int>, spends: Spends, g: nat, i: nat, cb: nat)
  {
    && |t.books| == 11 && g < |lay.groups| && i + 1 < |lay.offsets| && lay.offsets[i] <= lay.offsets[i + 1]
    && spends(Windows(lay.groups, g))(i, cb)
       == WindowsCost(t, cb, counted(cb), Windows(lay.groups, g), lay.offsets[i],
                      lay.offsets[i + 1] - lay.offsets[i], lay.groups[g])
  }

  lemma SpendsAt(t: Tables, counted: nat -> seq<int>, offsets: seq<nat>, groupLen: seq<nat>, first: nat, i: nat,
                 cb: nat)
    requires |t.books| == 11
    requires first < |groupLen| && i + 1 < |offsets| && offsets[i] <= offsets[i + 1]
    ensures SpendsOf(t, counted, offsets, groupLen)(first)(i, cb)
      == WindowsCost(t, cb, counted(cb), first, offsets[i], offsets[i + 1] - offsets[i], groupLen[first])
  {
    hide WindowsCost;
  }

  lemma SpendsCount(fmt: Format, ics: Ics, counted: nat -> seq<int>, groupLen: seq<nat>, numWindows: nat, g: nat)
    requires ValidFormat(fmt) && ValidIcsFor(fmt, ics) && Grouped(ics.groups, groupLen, numWindows) && g < |ics.groups|
    ensures |fmt.tables.books| == 11
    ensures Counts(fmt.tables, LayoutOf(fmt, ics), counted, SpendsOf(fmt.tables, counted, Offsets(fmt, ics), groupLen),
                   g)
  {
    hide WindowsCost, SpendsOf, Windows, Grouped, CountsBand;
    var lay := LayoutOf(fmt, ics);
    forall i, cb | 0 <= i < lay.maxSfb && 0 <= cb < BOOKS
      ensures CountsBand(fmt.tables, lay, counted, SpendsOf(fmt.tables, counted, Offsets(fmt, ics), groupLen), g, i, cb)
    {
      SpendsCountBand(fmt, ics, counted, groupLen, numWindows, g, i, cb);
    }
  }

  lemma SpendsCountBand(fmt: Format, ics: Ics, counted: nat -> seq<int>, groupLen: seq<nat>, numWindows: nat, g: nat,
                        i: nat, cb: nat)
    requires ValidFormat(fmt) && ValidIcsFor(fmt, ics) && Grouped(ics.groups, groupLen, numWindows) && g < |ics.groups|
    requires i < ics.maxSfb && |fmt.tables.books| == 11
    ensures CountsBand(fmt.tables, LayoutOf(fmt, ics), counted,
                       SpendsOf(fmt.tables, counted, Offsets(fmt, ics), groupLen), g, i, cb)
  {
    hide WindowsCost, SpendsOf, Windows, Grouped, ValidFormat, ValidIcsFor;
    GroupAt(ics.groups, groupLen, numWindows, g);
    OffsetsOf(fmt, ics, i);
    SpendsAt(fmt.tables, counted, Offsets(fmt, ics), groupLen, Windows(ics.groups, g), i, cb);
  }

  /** A band takes at most thirty bits a value in all windows of its group. */
  lemma SpendAtMost(t: Tables, lay: Layout, counted: nat -> seq<int>, spends: Spends, g: nat, i: nat, book: nat)
    requires ShortTables(t) && CountsBand(t, lay, counted, spends, g, i, book)
    ensures spends(Windows(lay.groups, g))(i, book)
         <= VALUE_BITS * ((lay.offsets[i + 1] - lay.offsets[i]) * lay.groups[g])
  {
    hide WindowsCost, Windows, ShortTables;
    WindowsAtMost(t, book, counted(book), Windows(lay.groups, g), lay.offsets[i], lay.offsets[i + 1] - lay.offsets[i],
                  lay.groups[g]);
  }

  lemma SpendNoMore(zeroes: seq<bool>, bandType: seq<nat>, base: nat, n: nat, spend: (nat, nat) -> nat, i: nat,
                    book: nat)
    requires base + n <= |zeroes| && base + n <= |bandType| && i < n && book < BOOKS
    requires ValidBand(BandsOf(zeroes, bandType, base, n, spend)[i])
    ensures Spend(BandsOf(zeroes, bandType, base, n, spend)[i], book) <= spend(i, book)
  {
  }

  /** The bands of a group take at most thirty bits a value. */
  lemma {:induction false} SpectralAtMost(t: Tables, lay: Layout, counted: nat -> seq<int>, e: Element, spends: Spends,
                                          g: nat, books: seq<nat>, i: nat)
    requires ShortTables(t) && Counts(t, lay, counted, spends, g) && |e.zeroes| == |e.bandType| == ENTRIES
    requires 16 * Windows(lay.groups, g) + lay.maxSfb <= ENTRIES && i <= lay.maxSfb
    requires var bands := GroupBands(e.zeroes, e.bandType, lay.groups, lay.maxSfb, spends, g);
      ValidBands(bands) && Admissible(bands, books)
    ensures SpectralBits(GroupBands(e.zeroes, e.bandType, lay.groups, lay.maxSfb, spends, g), books, i)
         <= VALUE_BITS * (lay.offsets[i] * lay.groups[g])
  {
    hide Windows, WindowsCost, Spend, BandsOf, ShortTables;
    if i > 0 {
      SpectralAtMost(t, lay, counted, e, spends, g, books, i - 1);
      assert CountsBand(t, lay, counted, spends, g, i - 1, books[i - 1]);
      SpendAtMost(t, lay, counted, spends, g, i - 1, books[i - 1]);
      SpendNoMore(e.zeroes, e.bandType, 16 * Windows(lay.groups, g), lay.maxSfb, spends(Windows(lay.groups, g)), i - 1,
                  books[i - 1]);
      Distribute(lay.offsets[i - 1], lay.offsets[i], lay.groups[g]);
    } else {
      assert lay.offsets[0] * lay.groups[g] == 0;
    }
  }

  /** A group has at most as many values as the frame. */
  lemma GroupValues(lay: Layout, g: nat)
    requires ValidLayout(lay) && g < |lay.groups|
    ensures lay.offsets[lay.maxSfb] * lay.groups[g] <= COEFS
  {
    WindowsMonotone(lay.groups, g + 1, |lay.groups|);
    var len, top := lay.groups[g], lay.offsets[lay.maxSfb];
    assert len <= if lay.short then 8 else 1;
    ProductMonotone(top, WindowSize(lay), len);
    ProductMonotone(len, if lay.short then 8 else 1, WindowSize(lay));
  }

  /** The least codebook of every band. */
  function LeastBooks(zeroes: seq<bool>, bandType: seq<nat>, base: nat, n: nat): (books: seq<nat>)
    requires base + n <= |zeroes| && base + n <= |bandType|
    ensures |books| == n && forall i :: 0 <= i < n ==> books[i] == if zeroes[base + i] then 0 else bandType[base + i]
  {
    seq(n, i requires 0 <= i < n => if zeroes[base + i] then 0 else bandType[base + i])
  }

  /** The least codebooks of a group are codebooks of the trellis. */
  ghost predicate LeastKnown(bandType: seq<nat>, base: nat, n: nat) {
    base + n <= |bandType| && forall a :: base <= a < base + n ==> bandType[a] < BOOKS
  }

  lemma LeastIsAdmissible(zeroes: seq<bool>, bandType: seq<nat>, base: nat, n: nat, spend: (nat, nat) -> nat)
    requires base + n <= |zeroes| && LeastKnown(bandType, base, n)
    ensures var bands := BandsOf(zeroes, bandType, base, n, spend);
      ValidBands(bands) && Admissible(bands, LeastBooks(zeroes, bandType, base, n))
  {
    var bands, books := BandsOf(zeroes, bandType, base, n, spend), LeastBooks(zeroes, bandType, base, n);
    forall i | 0 <= i < n ensures ValidBand(bands[i]) && Allowed(bands[i], books[i]) {
      assert bandType[base + i] < BOOKS;
    }
  }

  /** The bands of a group always have a choice of codebooks below the sentinel, whatever spectra
      are counted: a whole frame of escapes stays far below it. */
  lemma AlwaysAffordable(t: Tables, lay: Layout, counted: nat -> seq<int>, e: Element, spends: Spends, g: nat)
    requires ShortTables(t) && Counts(t, lay, counted, spends, g) && |e.zeroes| == |e.bandType| == ENTRIES
    requires 16 * Windows(lay.groups, g) + lay.maxSfb <= ENTRIES && lay.maxSfb <= 51
    requires LeastKnown(e.bandType, 16 * Windows(lay.groups, g), lay.maxSfb)
    ensures var bands := GroupBands(e.zeroes, e.bandType, lay.groups, lay.maxSfb, spends, g);
      ValidBands(bands) && Affordable(lay.short, bands)
  {
    hide Windows, ShortTables, SpectralBits, Counts;
    CountedLayout(t, lay, counted, spends, g);
    var bands := GroupBands(e.zeroes, e.bandType, lay.groups, lay.maxSfb, spends, g);
    var books := LeastBooks(e.zeroes, e.bandType, 16 * Windows(lay.groups, g), lay.maxSfb);
    LeastIsAdmissible(e.zeroes, e.bandType, 16 * Windows(lay.groups, g), lay.maxSfb, spends(Windows(lay.groups, g)));
    SpectralAtMost(t, lay, counted, e, spends, g, books, lay.maxSfb);
    GroupValues(lay, g);
    assert CheapEnough(lay.short, bands, books);
  }

  lemma CountedLayout(t: Tables, lay: Layout, counted: nat -> seq<int>, spends: Spends, g: nat)
    requires Counts(t, lay, counted, spends, g)
    ensures ValidLayout(lay) && g < |lay.groups|
  {
  }

  /** What the quantizer search and the psychoacoustic model leave behind: scalefactors within 60
      of each other, and quantised values that the least codebook of their band holds. */
  ghost predicate Prepared(fmt: Format, ics: Ics, e: Element, numSwb: nat) {
    && ValidFormat(fmt) && ShortTables(fmt.tables) && ValidIcs(ics) && ValidIcsFor(fmt, ics)
    && Apart(ics.groups, ics.maxSfb)
    && |e.zeroes| == |e.bandType| == |e.sfIdx| == ENTRIES && 0 < numSwb && ics.maxSfb <= numSwb
    && Spread(Heads(ics.groups, numSwb, |ics.groups|), e.sfIdx)
    && Within(Heads(ics.groups, numSwb, |ics.groups|), e.sfIdx, 0, 255)
    && (forall g :: 0 <= g < |ics.groups| ==> LeastKnown(e.bandType, 16 * Windows(ics.groups, g), ics.maxSfb))
    && Quantised(LayoutOf(fmt, ics), e.zeroes, e.bandType, e.q)
  }

  /** The bit counts for the trellis: every window of a group quantised at its own scalefactor. */
  function SpendsFor(fmt: Format, ics: Ics, e: Element, groupLen: seq<nat>, value: Value): Spends
    requires |fmt.tables.books| == 11
  {
    SpendsOf(fmt.tables, Counted(IsShort(ics), Offsets(fmt, ics), e.sfIdx, value), Offsets(fmt, ics), groupLen)
  }

  /** The encoder is ready whatever spectra it counts: the trellis needs no assumption on costs. */
  lemma CountedIsReady(fmt: Format, ics: Ics, e: Element, numSwb: nat, groupLen: seq<nat>, numWindows: nat,
                       counted: nat -> seq<int>)
    requires Prepared(fmt, ics, e, numSwb) && Grouped(ics.groups, groupLen, numWindows)
    ensures |fmt.tables.books| == 11
    ensures Ready(fmt, ics, e, numSwb, SpendsOf(fmt.tables, counted, Offsets(fmt, ics), groupLen))
  {
    hide Spread, Within, Quantised, Affordable, ValidBands, Counts, SpendsOf, LeastKnown, ShortWords, ValidBook,
      BandsOf;
    var spends, lay := SpendsOf(fmt.tables, counted, Offsets(fmt, ics), groupLen), LayoutOf(fmt, ics);
    forall g | 0 <= g < |ics.groups|
      ensures GroupSectionable(IsShort(ics), e.zeroes, e.bandType, ics.groups, ics.maxSfb, spends, g)
    {
      EntriesInRange(ics.groups, ics.maxSfb, g);
      SpendsCount(fmt, ics, counted, groupLen, numWindows, g);
      AlwaysAffordable(fmt.tables, lay, counted, e, spends, g);
    }
  }

  lemma PreparedIsReady(fmt: Format, ics: Ics, e: Element, numSwb: nat, groupLen: seq<nat>, numWindows: nat,
                        value: Value)
    requires Prepared(fmt, ics, e, numSwb) && Grouped(ics.groups, groupLen, numWindows)
    ensures |fmt.tables.books| == 11 && Ready(fmt, ics, e, numSwb, SpendsFor(fmt, ics, e, groupLen, value))
  {
    hide Prepared, Ready, Grouped, SpendsOf, Counted;
    CountedIsReady(fmt, ics, e, numSwb, groupLen, numWindows,
                   Counted(IsShort(ics), Offsets(fmt, ics), e.sfIdx, value));
  }

  lemma PreparedFacts(fmt: Format, ics: Ics, e: Element, numSwb: nat, groupLen: seq<nat>, numWindows: nat,
                      value: Value)
    requires Prepared(fmt, ics, e, numSwb) && Grouped(ics.groups, groupLen, numWindows)
    ensures |fmt.tables.books| == 11 && Ready(fmt, ics, e, numSwb, SpendsFor(fmt, ics, e, groupLen, value))
    ensures Offsets(fmt, ics) == if ics.windowSequence == EIGHT_SHORT then fmt.shortOffsets else fmt.longOffsets
    ensures IsShort(ics) == (ics.windowSequence == EIGHT_SHORT)
  {
    hide Prepared, Ready, Grouped, SpendsFor;
    PreparedIsReady(fmt, ics, e, numSwb, groupLen, numWindows, value);
  }

  /** The global gain, and the window information unless it is shared. */
  method PutHead(pb: PutBitContext, gain: int, common: bool, windowSequence: nat, kbWindow: bool, maxSfb: nat,
                 groupLen: seq<nat>, numWindows: nat, ghost groups: seq<nat>)
    requires 0 <= gain < 256 && ValidIcs(Ics(windowSequence, kbWindow, maxSfb, groups))
    requires Grouped(groups, groupLen, numWindows)
    modifies pb
    ensures forall k :: 0 <= k < |groups| ==> groups[k] > 0
    ensures pb.bits == old(pb.bits) + ToBits(8, gain)
                        + WindowCode(common, Ics(windowSequence, kbWindow, maxSfb, groups))
  {
    hide ToBits, IcsCode, Windows, Pow2;
    FieldsFit();
    pb.PutBits(8, gain);
    if !common {
      PutIcsInfo(pb, windowSequence, kbWindow, maxSfb, groupLen, groups);
    }
    WindowPart(common, Ics(windowSequence, kbWindow, maxSfb, groups));
  }

  /** The sections and the scalefactors. */
  method PutBands(pb: PutBitContext, fmt: Format, zeroes: array<bool>, bandType: array<nat>, sfIdx: array<int>,
                  short: bool, maxSfb: nat, spends: Spends, groupLen: seq<nat>, numWindows: nat, ghost ics: Ics,
                  ghost e: Element, ghost numSwb: nat)
    requires Ready(fmt, ics, e, numSwb, spends) && Grouped(ics.groups, groupLen, numWindows)
    requires zeroes.Length == bandType.Length == sfIdx.Length == ENTRIES
    requires zeroes[..] == e.zeroes && bandType[..] == e.bandType && sfIdx[..] == e.sfIdx
    requires maxSfb == ics.maxSfb && short == IsShort(ics)
    requires ValidChannel(fmt, SentChannel(fmt, ics, e, numSwb, spends))
    modifies pb, zeroes, bandType
    ensures var ch := SentChannel(fmt, ics, e, numSwb, spends);
      && pb.bits == old(pb.bits) + SectionBits(ch) + ScaleBits(fmt, ch) && |ch.sections| == |ics.groups|
      && AllRecorded(zeroes[..], bandType[..], ics.groups, maxSfb, GroupBooks(ch.sections), |ics.groups|)
  {
    hide ValidChannel, Sectionable, CodableScales, ScalesReady, SentScales, Windows, Grouped, SectionsOf, SectionBits,
      ScaleBits, ScaleCodes, Cat, AllRecorded, DenseView, Join, Dense, DenseBooks, GroupBooks, Ready, LayoutOf,
      ValidIcs, ValidIcsFor, SentChannel;
    EncodeFacts(fmt, ics, e, numSwb, spends, groupLen, numWindows);
    ghost var ch := SentChannel(fmt, ics, e, numSwb, spends);
    ghost var books := GroupBooks(ch.sections);
    EncodeBandInfo(pb, zeroes, bandType, maxSfb, short, spends, groupLen, numWindows, ics.groups);
    RecordedIsDense(ics.groups, maxSfb, numSwb, zeroes[..], bandType[..], sfIdx[..], books);
    SentBooks(fmt, ics, e, numSwb, spends);
    EncodeScaleFactors(pb, fmt.tables.scale, sfIdx, zeroes, maxSfb, groupLen, numWindows, ics.groups,
                       DenseBooks(ch.sections), ch.sf);
  }

  /** The encoder sends no noise and no intensity bands. */
  lemma SentBooks(fmt: Format, ics: Ics, e: Element, numSwb: nat, spends: Spends)
    requires Ready(fmt, ics, e, numSwb, spends)
    ensures forall m :: 0 <= m < |DenseBooks(SentChannel(fmt, ics, e, numSwb, spends).sections)|
                        ==> DenseBooks(SentChannel(fmt, ics, e, numSwb, spends).sections)[m] <= 11
  {
    hide Sectionable, Sectioning, BooksAllowed, Quantised, Spread, Within, SentScales, SectionsOf, Windows, Dense;
    AllSectioned(ics, e, spends);
    var books := GroupBooks(Chosens(ics, e, spends));
    forall m | 0 <= m < |Dense(books, |books|)| ensures Dense(books, |books|)[m] <= 11 {
      var j, i := DenseAt(books, ics.groups, ics.maxSfb, |books|, m);
      AllowedLength(e.zeroes, e.bandType, 16 * Windows(ics.groups, j), ics.maxSfb, books[j]);
    }
  }

  /** No pulse data, no TNS, no gain control. */
  method PutNoTools(pb: PutBitContext)
    modifies pb
    ensures pb.bits == old(pb.bits) + [false, false, false]
  {
    ThreeZeros();
    pb.PutBits(1, 0);
    pb.PutBits(1, 0);
    pb.PutBits(1, 0);
  }

  /** The encoder's element in place. */
  class SingleChannelElement {
    const zeroes: array<bool>
    const bandType: array<nat>
    const sfIdx: array<int>
    const q: array<int>

    constructor ()
      ensures fresh(zeroes) && fresh(bandType) && fresh(sfIdx) && fresh(q) && sfIdx != q && bandType as object != q
      ensures zeroes.Length == bandType.Length == sfIdx.Length == ENTRIES && q.Length == COEFS
      ensures forall a :: 0 <= a < ENTRIES ==> bandType[a] == 0
    {
      zeroes := new bool[ENTRIES](_ => false);
      bandType := new nat[ENTRIES](_ => 0);
      sfIdx := new int[ENTRIES](_ => 0);
      q := new int[COEFS](_ => 0);
    }

    ghost function View(): Element
      reads this, zeroes, bandType, sfIdx, q
    {
      Element(zeroes[..], bandType[..], sfIdx[..], q[..])
    }

    /** encode_individual_channel: appends the bits of the channel, its sections chosen by the
        trellis, which counts every window at its own scalefactor. */
    method EncodeIndividualChannel(pb: PutBitContext, fmt: Format, windowSequence: nat, kbWindow: bool, maxSfb: nat,
                                   numSwb: nat, swbSizes: seq<nat>, groupLen: seq<nat>, numWindows: nat, common: bool,
                                   value: Value, ghost groups: seq<nat>)
      requires zeroes.Length == bandType.Length == sfIdx.Length == ENTRIES
      requires Prepared(fmt, Ics(windowSequence, kbWindow, maxSfb, groups), View(), numSwb)
      requires Grouped(groups, groupLen, numWindows)
          && SizesOf(fmt, Ics(windowSequence, kbWindow, maxSfb, groups), swbSizes)
      modifies pb, zeroes, bandType
      ensures var ics, e := Ics(windowSequence, kbWindow, maxSfb, groups), old(View());
        Ready(fmt, ics, e, numSwb, SpendsFor(fmt, ics, e, groupLen, value)) &&
        var ch := SentChannel(fmt, ics, e, numSwb, SpendsFor(fmt, ics, e, groupLen, value));
        ValidChannel(fmt, ch) && pb.bits == old(pb.bits) + ChannelCode(fmt, ch, common)
    {
      hide ValidChannel, Sectionable, Quantised, CodableScales, ScalesReady, SentScales, ValidLayout, ValidBooks,
        Windows, Jobs, SpectrumFits, Grouped, WindowCode, SectionsOf, SectionBits, ScaleBits, SpectrumBits, ScaleCodes,
        Cat, ToBits, Pow2, SpectrumCode, AllRecorded, Join, Dense, DenseBooks, GroupBooks, Ready, SizesOf, LayoutOf,
        Offsets, ValidIcs, ValidIcsFor, ValidFormat, ChannelCode, SentChannel, Prepared, SpendsOf, Counted;
      ghost var ics, e := Ics(windowSequence, kbWindow, maxSfb, groups), View();
      ghost var before := pb.bits;
      PreparedFacts(fmt, ics, e, numSwb, groupLen, numWindows, value);
      var offsets := if windowSequence == EIGHT_SHORT then fmt.shortOffsets else fmt.longOffsets;
      var counted := Counted(windowSequence == EIGHT_SHORT, offsets, sfIdx[..], value);
      var spends := SpendsOf(fmt.tables, counted, offsets, groupLen);
      EncodeFacts(fmt, ics, e, numSwb, spends, groupLen, numWindows);
      SpectrumFacts(fmt, ics, e, numSwb, spends);
      SizesOfLayout(fmt, ics, swbSizes);
      ghost var ch, lay := SentChannel(fmt, ics, e, numSwb, spends), LayoutOf(fmt, ics);
      ghost var books := GroupBooks(ch.sections);
      PutHead(pb, sfIdx[0], common, windowSequence, kbWindow, maxSfb, groupLen, numWindows, groups);
      PutBands(pb, fmt, zeroes, bandType, sfIdx, windowSequence == EIGHT_SHORT, maxSfb, spends, groupLen, numWindows,
               ics, e, numSwb);
      PutNoTools(pb);
      EncodeSpectralCoeffs(pb, fmt.tables, q, zeroes, bandType, swbSizes, maxSfb, groupLen, numWindows, lay, books);
      CodeInParts(fmt, ch, common, before);
    }
  }

  /** What the encoder appends decodes to the channel that it sent: its window grouping, the
      codebooks the trellis chose, the scalefactors of the coded bands and all its quantised
      values. */
  lemma SentReadsBack(fmt: Format, ics: Ics, e: Element, numSwb: nat, groupLen: seq<nat>, numWindows: nat,
                      common: bool, strict: bool, value: Value, data: Bits, pos: nat, coefs: seq<int>)
    requires Prepared(fmt, ics, e, numSwb) && Grouped(ics.groups, groupLen, numWindows) && |coefs| == COEFS
    ensures |fmt.tables.books| == 11 && Ready(fmt, ics, e, numSwb, SpendsFor(fmt, ics, e, groupLen, value))
    ensures var ch := SentChannel(fmt, ics, e, numSwb, SpendsFor(fmt, ics, e, groupLen, value));
      && ValidChannel(fmt, ch) && ValidFormat(fmt) && ValidIcsFor(fmt, ics) && |ch.sf| == |DenseBooks(ch.sections)|
      && (StartsAt(data, pos, ChannelCode(fmt, ch, common)) ==>
            ParseChannel(fmt, data, pos, Shared(common, ics), strict, coefs)
            == Ok(Recovered(ch), pos + |ChannelCode(fmt, ch, common)|))
      && Recovered(ch).ics == ics && Recovered(ch).coefs == e.q
  {
    hide Prepared, Ready, Quantised, Sectionable, Spread, Within, ChannelCode, ParseChannel, StartsAt, LayoutOf, Jobs,
      Transmits, ValidTables, SpendsOf, Dense;
    PreparedIsReady(fmt, ics, e, numSwb, groupLen, numWindows, value);
    SentIsValid(fmt, ics, e, numSwb, SpendsFor(fmt, ics, e, groupLen, value));
    var ch := SentChannel(fmt, ics, e, numSwb, SpendsFor(fmt, ics, e, groupLen, value));
    if StartsAt(data, pos, ChannelCode(fmt, ch, common)) {
      ChannelRoundTrip(fmt, ch, common, strict, data, pos, coefs);
    }
  }
}
