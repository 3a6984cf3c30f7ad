/** One channel all the way: the two-loop search of libavcodec/aaccoder.c, the number of coded bands
    and the channel coder of libavcodec/aacenc.c, and the channel decoder of libavcodec/aacdec.c,
    one after the other. */
module AacRoundTrip {
  import opened Wrappers
  import opened Sums
  import opened BitIO
  import opened AacSections
  import opened AacSpectrum
  import opened AacChannel
  import opened AacStream
  import opened AacTwoLoop
  import opened AacQuantise
  import opened AacEncoder
  import opened AacAdjust
  import opened AacSpectral
  import opened AacCheapest
  import AacDecoder

  /** The format and the geometry of a window; full has all bands of the sampling rate. */
  ghost predicate Framed(fmt: Format, full: Ics, groupLen: seq<nat>, numWindows: nat) {
    && ValidFormat(fmt) && ShortTables(fmt.tables) && AacDecoder.RoomFor(fmt)
    && ValidIcs(full) && ValidIcsFor(fmt, full) && full.maxSfb > 0
    && Geometry(full.groups, full.maxSfb) && Apart(full.groups, full.maxSfb)
    && Grouped(full.groups, groupLen, numWindows)
  }

  /** The least codebooks of all bands are codebooks. */
  ghost predicate BooksKnown(heads: seq<nat>, bandType: seq<nat>) {
    |bandType| == ENTRIES && forall m :: 0 <= m < |heads| && heads[m] < ENTRIES ==> bandType[heads[m]] < 12
  }

  /** The flat entries of all bands of the sampling rate. */
  function AllHeads(full: Ics): seq<nat> {
    Heads(full.groups, full.maxSfb, |full.groups|)
  }

  /** Only the first bands of every window are coded. */
  function Coded(full: Ics, maxSfb: nat): Ics {
    full.(maxSfb := maxSfb)
  }

  lemma FewerFramed(fmt: Format, full: Ics, groupLen: seq<nat>, numWindows: nat, maxSfb: nat)
    requires Framed(fmt, full, groupLen, numWindows) && maxSfb <= full.maxSfb
    ensures var ics := Coded(full, maxSfb);
      && ValidFormat(fmt) && ValidIcs(ics) && ValidIcsFor(fmt, ics) && ValidIcsFor(fmt, full)
      && Apart(ics.groups, ics.maxSfb) && ShortTables(fmt.tables) && AacDecoder.RoomFor(fmt)
    ensures Geometry(full.groups, full.maxSfb) && Grouped(full.groups, groupLen, numWindows)
  {
  }

  lemma LeastBooksKnown(full: Ics, maxSfb: nat, bandType: seq<nat>)
    requires maxSfb <= full.maxSfb && Apart(full.groups, full.maxSfb) && BooksKnown(AllHeads(full), bandType)
    ensures forall g :: 0 <= g < |full.groups| ==> LeastKnown(bandType, 16 * Windows(full.groups, g), maxSfb)
  {
    hide Heads, Windows;
    forall g | 0 <= g < |full.groups| ensures LeastKnown(bandType, 16 * Windows(full.groups, g), maxSfb) {
      var base := 16 * Windows(full.groups, g);
      EntriesInRange(full.groups, full.maxSfb, g);
      forall a | base <= a < base + maxSfb ensures bandType[a] < 12 {
        HeadAt(full.groups, full.maxSfb, g, |full.groups|, a - base);
      }
    }
  }

  /** What the search leaves is what the channel coder asks for, however the coefficients are
      rounded and however many bands are coded. */
  lemma SearchedIsPrepared(fmt: Format, full: Ics, groupLen: seq<nat>, numWindows: nat, maxSfb: nat, e: Element,
                           value: Value)
    requires Framed(fmt, full, groupLen, numWindows) && maxSfb <= full.maxSfb
    requires |e.zeroes| == |e.bandType| == |e.sfIdx| == ENTRIES
    requires Spread(AllHeads(full), e.sfIdx) && Within(AllHeads(full), e.sfIdx, 60, 217)
    requires BooksKnown(AllHeads(full), e.bandType)
    requires ValidFormat(fmt) && ValidIcsFor(fmt, Coded(full, maxSfb))
    requires var lay := LayoutOf(fmt, Coded(full, maxSfb));
      |lay.offsets| == lay.maxSfb + 1 && e.q == Rounded(lay, e.zeroes, e.bandType, e.sfIdx, value)
    ensures Prepared(fmt, Coded(full, maxSfb), e, full.maxSfb)
  {
    hide Spread, Quantised, Rounded, ValidTables, ShortTables, Heads, Windows, BooksKnown, Geometry, Grouped;
    LeastBooksKnown(full, maxSfb, e.bandType);
    RoundedIsQuantised(fmt, Coded(full, maxSfb), e.zeroes, e.bandType, e.sfIdx, value);
  }

  // ---------- nothing is lost above the coded bands ----------

  /** Every coefficient below the tail lies in a band. */
  lemma Located(lay: Layout, p: nat) returns (g: nat, w: nat, i: nat, r: nat)
    requires ValidLayout(lay) && p < COEFS && !InTail(lay, p)
    ensures g < |lay.groups| && w < lay.groups[g] && i < lay.maxSfb
    ensures lay.offsets[i] <= r < lay.offsets[i + 1] && p == (Windows(lay.groups, g) + w) * WINDOW + r
  {
    var win := WindowAt(lay.short, p);
    r := Inside(lay.short, p);
    g := FindGroup(lay.groups, |lay.groups|, win);
    w := win - Windows(lay.groups, g);
    i := FindBand(lay.offsets, lay.maxSfb, r);
  }

  /** The bands from maxSfb on are silent in every window. */
  ghost predicate SilentAbove(full: Ics, maxSfb: nat, zeroes: seq<bool>) {
    forall w :: 0 <= w < Windows(full.groups, |full.groups|) ==> SilentFrom(zeroes, full.maxSfb, w, maxSfb)
  }

  lemma SameRounded(fmt: Format, full: Ics, maxSfb: nat, e: Element, value: Value, p: nat)
    requires ValidFormat(fmt) && ValidIcsFor(fmt, full) && ValidIcsFor(fmt, Coded(full, maxSfb))
    requires maxSfb <= full.maxSfb && p < COEFS && |e.zeroes| == |e.bandType| == |e.sfIdx| == ENTRIES
    requires SilentAbove(full, maxSfb, e.zeroes)
    ensures var few, all := LayoutOf(fmt, Coded(full, maxSfb)), LayoutOf(fmt, full);
      && |few.offsets| == few.maxSfb + 1 && |all.offsets| == all.maxSfb + 1
      && RoundedAt(few, e.zeroes, e.bandType, e.sfIdx, value, p)
         == RoundedAt(all, e.zeroes, e.bandType, e.sfIdx, value, p)
  {
    hide ValidTables, Windows, HeadEntry, Cut, ValidOffsets;
    var ics := Coded(full, maxSfb);
    var few, all := LayoutOf(fmt, ics), LayoutOf(fmt, full);
    if InTail(all, p) {
      OffsetsGrow(all, maxSfb);
    } else {
      var g, w, i, r := Located(all, p);
      PlaceOf(fmt, full, g, w, i, r);
      if i < maxSfb {
        PlaceOf(fmt, ics, g, w, i, r);
      } else {
        AboveIsTail(fmt, full, maxSfb, g, w, i, r);
        FirstInside(full, g);
        assert SilentFrom(e.zeroes, full.maxSfb, Windows(full.groups, g), maxSfb);
      }
    }
  }

  /** A band that is not coded lies in the tail. */
  lemma AboveIsTail(fmt: Format, full: Ics, maxSfb: nat, g: nat, w: nat, i: nat, r: nat)
    requires ValidFormat(fmt) && ValidIcsFor(fmt, full) && ValidIcsFor(fmt, Coded(full, maxSfb))
    requires g < |full.groups| && w < full.groups[g] && maxSfb <= i < full.maxSfb
    requires Offsets(fmt, full)[i] <= r < Offsets(fmt, full)[i + 1]
    ensures var few := LayoutOf(fmt, Coded(full, maxSfb));
      |few.offsets| == few.maxSfb + 1 && InTail(few, (Windows(full.groups, g) + w) * WINDOW + r)
  {
    hide ValidTables, Windows;
    var offsets := Offsets(fmt, full);
    if maxSfb < i {
      OffsetsIncrease(offsets, maxSfb, i);
    }
    WindowInside(LayoutOf(fmt, full), g, w, i);
    WindowOf(IsShort(full), Windows(full.groups, g) + w, r);
  }

  lemma FirstInside(full: Ics, g: nat)
    requires g < |full.groups| && full.groups[g] > 0
    ensures Windows(full.groups, g) < Windows(full.groups, |full.groups|)
  {
    WindowsMonotone(full.groups, g + 1, |full.groups|);
  }

  /** With the silent bands cut off the spectrum is the same. */
  lemma NothingIsLost(fmt: Format, full: Ics, maxSfb: nat, e: Element, value: Value)
    requires ValidFormat(fmt) && ValidIcsFor(fmt, full) && ValidIcsFor(fmt, Coded(full, maxSfb))
    requires maxSfb <= full.maxSfb && |e.zeroes| == |e.bandType| == |e.sfIdx| == ENTRIES
    requires SilentAbove(full, maxSfb, e.zeroes)
    ensures var few, all := LayoutOf(fmt, Coded(full, maxSfb)), LayoutOf(fmt, full);
      && |few.offsets| == few.maxSfb + 1 && |all.offsets| == all.maxSfb + 1
      && Rounded(few, e.zeroes, e.bandType, e.sfIdx, value) == Rounded(all, e.zeroes, e.bandType, e.sfIdx, value)
  {
    hide ValidFormat, ValidIcsFor, LayoutOf, RoundedAt, SilentAbove;
    forall p | 0 <= p < COEFS
      ensures var few, all := LayoutOf(fmt, Coded(full, maxSfb)), LayoutOf(fmt, full);
        && |few.offsets| == few.maxSfb + 1 && |all.offsets| == all.maxSfb + 1
        && RoundedAt(few, e.zeroes, e.bandType, e.sfIdx, value, p)
           == RoundedAt(all, e.zeroes, e.bandType, e.sfIdx, value, p)
    {
      SameRounded(fmt, full, maxSfb, e, value, p);
    }
    SameRounded(fmt, full, maxSfb, e, value, 0);
  }

  /** What the channel decoder must find: the grouping, every quantised value, and the scalefactor
      of every band whose chosen codebook is not 0. */
  ghost predicate Received(ics: Ics, e: Element, sections: seq<seq<Section>>, r: Option<Ics>, sf: seq<Scale>,
                           coefs: seq<int>) {
    var heads, books := Heads(ics.groups, ics.maxSfb, |ics.groups|), DenseBooks(sections);
    && r == Some(ics) && coefs == e.q && |sections| == |ics.groups|
    && (forall g :: 0 <= g < |sections| ==>
          BooksAllowed(e.zeroes, e.bandType, 16 * Windows(ics.groups, g), ics.maxSfb, GroupBooks(sections)[g]))
    && |books| == |heads| <= |sf|
    && forall k :: 0 <= k < |heads| ==>
         && heads[k] < |e.sfIdx| && e.sfIdx[heads[k]] >= 0
         && sf[k] == ScaleValue(books[k], e.sfIdx[heads[k]])
  }

  lemma SentIsReceived(fmt: Format, ics: Ics, e: Element, numSwb: nat, spends: Spends, sf: seq<Scale>)
    requires Ready(fmt, ics, e, numSwb, spends)
    requires var ch := SentChannel(fmt, ics, e, numSwb, spends);
      |ch.sf| == |DenseBooks(ch.sections)| <= |sf| && sf[..|ch.sf|] == Recovered(ch).scales
    ensures Received(ics, e, SentChannel(fmt, ics, e, numSwb, spends).sections, Some(ics), sf, e.q)
  {
    hide Sectionable, BooksAllowed, Quantised, Spread, Within, Windows, Dense, Heads, GroupBooks;
    AllSectioned(ics, e, spends);
    PickedInRange(ics.groups, ics.maxSfb, numSwb, e.sfIdx);
    var ch := SentChannel(fmt, ics, e, numSwb, spends);
    forall k | 0 <= k < |ch.sf| ensures sf[k] == ScaleValue(DenseBooks(ch.sections)[k], ch.sf[k]) {
      assert sf[..|ch.sf|][k] == sf[k];
    }
  }

  lemma ReceivedIs(fmt: Format, ics: Ics, e: Element, numSwb: nat, spends: Spends)
    requires Ready(fmt, ics, e, numSwb, spends)
    requires var ch := SentChannel(fmt, ics, e, numSwb, spends); |ch.sf| == |DenseBooks(ch.sections)|
    ensures var ch := SentChannel(fmt, ics, e, numSwb, spends);
      && Recovered(ch).ics == ics && Recovered(ch).sections == ch.sections && Recovered(ch).coefs == e.q
      && |Recovered(ch).scales| == |ch.sf|
  {
  }

  lemma Appended(before: Bits, code: Bits)
    ensures StartsAt(before + code, |before|, code)
  {
  }

  /** After the search every least codebook is one the search chose, or one from before. */
  lemma SearchKnowsBooks(p: Search, heads: seq<nat>, sf: seq<int>, bandType: seq<nat>)
    requires ValidSearch(p) && p.heads == heads && |sf| == |bandType| == ENTRIES
    requires BooksChosen(p, sf, bandType, |heads|) && forall n: nat, x: int :: p.minBook(n, x) < 12
    ensures BooksKnown(heads, bandType)
  {
    forall m | 0 <= m < |heads| && heads[m] < ENTRIES ensures bandType[heads[m]] < 12 {
      var n, x := heads[m], sf[heads[m]];
      assert p.minBook(n, x) < 12;
      assert bandType[p.heads[m]] == p.minBook(p.heads[m], sf[p.heads[m]]);
    }
  }

  /** The writer has got the bits of the channel, its sections chosen on these bit counts. */
  ghost predicate Sent(fmt: Format, ics: Ics, e: Element, numSwb: nat, groupLen: seq<nat>, value: Value, common: bool,
                       before: Bits, after: Bits) {
    |fmt.tables.books| == 11 && Ready(fmt, ics, e, numSwb, SpendsFor(fmt, ics, e, groupLen, value)) &&
    var ch := SentChannel(fmt, ics, e, numSwb, SpendsFor(fmt, ics, e, groupLen, value));
    ValidChannel(fmt, ch) && after == before + ChannelCode(fmt, ch, common)
  }

  /** The encoder and the decoder. */
  method EncodeAndDecode(fmt: Format, ics: Ics, numSwb: nat, swbSizes: seq<nat>, groupLen: seq<nat>, numWindows: nat,
                         common: bool, strict: bool, value: Value, pb: PutBitContext,
                         enc: AacEncoder.SingleChannelElement, dec: AacDecoder.SingleChannelElement)
    returns (r: Option<Ics>, ghost sections: seq<seq<Section>>)
    requires ValidFormat(fmt) && ValidIcsFor(fmt, ics) && AacDecoder.RoomFor(fmt) && dec.Sized()
    requires Grouped(ics.groups, groupLen, numWindows) && SizesOf(fmt, ics, swbSizes)
    requires enc.zeroes.Length == enc.bandType.Length == enc.sfIdx.Length == ENTRIES
    requires Prepared(fmt, ics, enc.View(), numSwb)
    modifies pb, enc.zeroes, enc.bandType, dec.bandType, dec.bandTypeRunEnd, dec.sf, dec.coeffs
    ensures Received(ics, old(enc.View()), sections, r, dec.sf[..], dec.coeffs[..])
    ensures Sent(fmt, ics, old(enc.View()), numSwb, groupLen, value, common, old(pb.bits), pb.bits)
  {
    hide Prepared, Ready, SentChannel, ChannelCode, ParseChannel, StartsAt, ValidChannel, Received, Grouped,
      ValidFormat, ValidIcsFor, SizesOf, SpendsFor, DenseBooks, Recovered;
    ghost var e := enc.View();
    PreparedFacts(fmt, ics, e, numSwb, groupLen, numWindows, value);
    var before := pb.bits;
    enc.EncodeIndividualChannel(pb, fmt, ics.windowSequence, ics.kbWindow, ics.maxSfb, numSwb, swbSizes, groupLen,
                                numWindows, common, value, ics.groups);
    ghost var ch := SentChannel(fmt, ics, e, numSwb, SpendsFor(fmt, ics, e, groupLen, value));
    Appended(before, ChannelCode(fmt, ch, common));
    SentReadsBack(fmt, ics, e, numSwb, groupLen, numWindows, common, strict, value, pb.bits, |before|,
                  dec.coeffs[..]);
    var gb := new AacDecoder.GetBitContext(pb.bits, |before|);
    r, sections := dec.DecodeIcs(gb, fmt, Shared(common, ics), strict);
    ReceivedIs(fmt, ics, e, numSwb, SpendsFor(fmt, ics, e, groupLen, value));
    SentIsReceived(fmt, ics, e, numSwb, SpendsFor(fmt, ics, e, groupLen, value), dec.sf[..]);
  }

  // ---------- search, coded bands, rounding ----------

  /** The search, then the number of coded bands. */
  method SearchAndAdjust(psy: seq<Psy>, coder: Coder, scaleBits: seq<nat>, destBits: int, ghost fmt: Format,
                         full: Ics, groupLen: seq<nat>, numWindows: nat, enc: AacEncoder.SingleChannelElement)
    returns (maxSfb: nat)
    requires Framed(fmt, full, groupLen, numWindows)
    requires ValidPsy(psy) && |scaleBits| == 121 && (forall r: real :: r >= 512.0 ==> coder.steps(r) >= 0)
    requires forall n: nat, x: int :: coder.minBook(n, x) < 12
    requires enc.zeroes.Length == enc.bandType.Length == enc.sfIdx.Length == ENTRIES
    requires BooksKnown(AllHeads(full), enc.bandType[..])
    modifies enc.zeroes, enc.bandType, enc.sfIdx
    ensures maxSfb <= full.maxSfb && WindowFits(enc.zeroes[..], full.maxSfb, numWindows)
    ensures maxSfb == MostInUse(enc.zeroes[..], full.maxSfb, numWindows)
    ensures Spread(AllHeads(full), enc.sfIdx[..]) && Within(AllHeads(full), enc.sfIdx[..], 60, 217)
    ensures BooksKnown(AllHeads(full), enc.bandType[..])
    ensures HeadsInside(psy, AllHeads(full), Lens(full.groups, full.maxSfb, |full.groups|))
    ensures FlaggedBy(psy, full, enc.zeroes[..])
    ensures BooksFound(full, coder.minBook, enc.zeroes[..], enc.bandType[..], enc.sfIdx[..])
  {
    hide Framed, Spread, Within, Heads, BooksKnown, BooksChosen, OuterLoop, Judged, Started, HeadsInside, Geometry,
      Grouped, Searching, Lens, ValidSearch, FlagsAgree, FlaggedBy, BooksFound;
    FewerFramed(fmt, full, groupLen, numWindows, 0);
    ghost var p, first, minthr := SearchTwoLoop(psy, coder, scaleBits, destBits, enc.sfIdx, enc.zeroes, enc.bandType,
                                                groupLen, numWindows, full.maxSfb, full.groups);
    if minthr.Some? {
      SearchKnowsBooks(p, AllHeads(full), enc.sfIdx[..], enc.bandType[..]);
    }
    ghost var sf, bandType, zeroes := enc.sfIdx[..], enc.bandType[..], enc.zeroes[..];
    FlagsAreJudged(psy, full, zeroes, p.uplims, minthr);
    SearchFindsBooks(psy, full, p, zeroes, bandType, sf, minthr);
    maxSfb := AdjustFrameInformation(enc.zeroes, full.maxSfb, groupLen, numWindows, full.groups);
    assert enc.sfIdx[..] == sf && enc.bandType[..] == bandType;
  }

  /** A band is in use exactly when one of its windows is heard. */
  ghost predicate FlaggedBy(psy: seq<Psy>, full: Ics, zeroes: seq<bool>) {
    var heads, lens := AllHeads(full), Lens(full.groups, full.maxSfb, |full.groups|);
    && HeadsInside(psy, heads, lens) && |zeroes| == ENTRIES
    && forall m :: 0 <= m < |heads| ==> zeroes[heads[m]] == !LoudHead(psy, heads, lens, m)
  }

  /** Every band in use has the least codebook found for its final scalefactor. */
  ghost predicate BooksFound(full: Ics, minBook: (nat, int) -> nat, zeroes: seq<bool>, bandType: seq<nat>,
                             sfIdx: seq<int>) {
    && |zeroes| == |bandType| == |sfIdx| == ENTRIES
    && forall m :: 0 <= m < |AllHeads(full)| ==> BookFound(minBook, zeroes, bandType, sfIdx, AllHeads(full)[m])
  }

  ghost predicate BookFound(minBook: (nat, int) -> nat, zeroes: seq<bool>, bandType: seq<nat>, sfIdx: seq<int>,
                            a: nat)
    requires |zeroes| == |bandType| == |sfIdx|
  {
    a < |zeroes| && (!zeroes[a] ==> bandType[a] == minBook(a, sfIdx[a]))
  }

  lemma SearchFindsBooks(psy: seq<Psy>, full: Ics, p: Search, zeroes: seq<bool>, bandType: seq<nat>, sf: seq<int>,
                         minthr: Option<real>)
    requires ValidSearch(p) && p.heads == AllHeads(full) && |zeroes| == |bandType| == |sf| == ENTRIES
    requires var lens := Lens(full.groups, full.maxSfb, |full.groups|);
      && HeadsInside(psy, p.heads, lens) && |p.uplims| == ENTRIES
      && Judged(psy, p.heads, lens, zeroes, p.uplims, minthr, |p.heads|)
    requires minthr.Some? ==> BooksChosen(p, sf, bandType, |p.heads|)
    ensures BooksFound(full, p.minBook, zeroes, bandType, sf)
  {
    hide Loud, Allowance, AllFlagged, Lens, Heads;
    var lens := Lens(full.groups, full.maxSfb, |full.groups|);
    forall m | 0 <= m < |p.heads| ensures BookFound(p.minBook, zeroes, bandType, sf, p.heads[m]) {
      assert JudgedHead(psy, p.heads, lens, zeroes, p.uplims, m);
    }
  }

  lemma FlagsAreJudged(psy: seq<Psy>, full: Ics, zeroes: seq<bool>, uplims: seq<real>, minthr: Option<real>)
    requires |zeroes| == |uplims| == ENTRIES
    requires var heads, lens := AllHeads(full), Lens(full.groups, full.maxSfb, |full.groups|);
      HeadsInside(psy, heads, lens) && Judged(psy, heads, lens, zeroes, uplims, minthr, |heads|)
    ensures FlaggedBy(psy, full, zeroes)
    ensures FlagsAgree(zeroes, AllHeads(full), Lens(full.groups, full.maxSfb, |full.groups|))
  {
    hide Judged, LoudHead, Heads, Lens;
    SearchedAgree(psy, AllHeads(full), Lens(full.groups, full.maxSfb, |full.groups|), zeroes, uplims, minthr);
  }

  lemma CutIsSilent(full: Ics, zeroes: seq<bool>, groupLen: seq<nat>, numWindows: nat, maxSfb: nat)
    requires Grouped(full.groups, groupLen, numWindows) && WindowFits(zeroes, full.maxSfb, numWindows)
    requires MostInUse(zeroes, full.maxSfb, numWindows) <= maxSfb <= full.maxSfb
    ensures SilentAbove(full, maxSfb, zeroes)
  {
    MostInUseIsLeast(zeroes, full.maxSfb, numWindows);
    forall w | 0 <= w < numWindows ensures SilentFrom(zeroes, full.maxSfb, w, maxSfb) {
      assert SilentFrom(zeroes, full.maxSfb, w, MostInUse(zeroes, full.maxSfb, numWindows));
    }
  }

  /** The rounding that the writer does on its way. */
  method Round(fmt: Format, ics: Ics, value: Value, enc: AacEncoder.SingleChannelElement)
    requires ValidFormat(fmt) && ValidIcsFor(fmt, ics)
    requires enc.zeroes.Length == enc.bandType.Length == enc.sfIdx.Length == ENTRIES && enc.q.Length == COEFS
    requires enc.sfIdx != enc.q && enc.bandType as object != enc.q
    modifies enc.q
    ensures enc.zeroes[..] == old(enc.zeroes[..]) && enc.bandType[..] == old(enc.bandType[..])
    ensures enc.sfIdx[..] == old(enc.sfIdx[..])
    ensures var lay := LayoutOf(fmt, ics);
      && |lay.offsets| == lay.maxSfb + 1
      && enc.q[..] == Rounded(lay, enc.zeroes[..], enc.bandType[..], enc.sfIdx[..], value)
  {
    hide ValidTables, RoundedAt;
    ghost var zeroes, bandType, sfIdx := enc.zeroes[..], enc.bandType[..], enc.sfIdx[..];
    var lay := Layout(IsShort(ics), ics.groups, ics.maxSfb, Offsets(fmt, ics)[..ics.maxSfb + 1]);
    var q := Rounded(lay, enc.zeroes[..], enc.bandType[..], enc.sfIdx[..], value);
    forall p | 0 <= p < COEFS {
      enc.q[p] := q[p];
    }
    assert enc.q[..] == q;
    assert enc.zeroes[..] == zeroes && enc.bandType[..] == bandType && enc.sfIdx[..] == sfIdx;
  }

  lemma FewerSizes(fmt: Format, full: Ics, maxSfb: nat, swbSizes: seq<nat>)
    requires SizesOf(fmt, full, swbSizes) && maxSfb <= full.maxSfb
    ensures maxSfb <= |swbSizes| && SizesOf(fmt, Coded(full, maxSfb), swbSizes[..maxSfb])
  {
  }

  /** The number of coded bands of a channel: its own, or the greater of both in a pair with a
      common window. */
  function Greater(own: nat, pair: nat): nat {
    if own > pair then own else pair
  }

  /** The search, the encoder and the decoder in a row: whatever the psychoacoustic model, the bit
      counts, the distortions and the rounding say, the decoder ends with the coefficients of all
      bands that are heard, rounded at the scalefactors of the search. */
  method SearchEncodeDecode(psy: seq<Psy>, coder: Coder, scaleBits: seq<nat>, destBits: int, value: Value,
                            fmt: Format, full: Ics, swbSizes: seq<nat>, groupLen: seq<nat>, numWindows: nat,
                            pair: nat, common: bool, strict: bool, pb: PutBitContext,
                            enc: AacEncoder.SingleChannelElement, dec: AacDecoder.SingleChannelElement)
    returns (ghost maxSfb: nat, r: Option<Ics>, ghost e: Element, ghost sections: seq<seq<Section>>)
    requires Framed(fmt, full, groupLen, numWindows) && SizesOf(fmt, full, swbSizes) && dec.Sized()
    requires pair <= full.maxSfb
    requires ValidPsy(psy) && |scaleBits| == 121 && (forall r: real :: r >= 512.0 ==> coder.steps(r) >= 0)
    requires forall n: nat, x: int :: coder.minBook(n, x) < 12
    requires enc.zeroes.Length == enc.bandType.Length == enc.sfIdx.Length == ENTRIES && enc.q.Length == COEFS
    requires enc.sfIdx != enc.q && enc.bandType as object != enc.q
    requires BooksKnown(AllHeads(full), enc.bandType[..])
    modifies pb, enc.zeroes, enc.bandType, enc.sfIdx, enc.q, dec.bandType, dec.bandTypeRunEnd, dec.sf, dec.coeffs
    ensures FlaggedBy(psy, full, e.zeroes)
    ensures Spread(AllHeads(full), e.sfIdx) && Within(AllHeads(full), e.sfIdx, 60, 217)
    ensures WindowFits(e.zeroes, full.maxSfb, numWindows)
    ensures maxSfb == Greater(MostInUse(e.zeroes, full.maxSfb, numWindows), pair)
    ensures Received(Coded(full, maxSfb), e, sections, r, dec.sf[..], dec.coeffs[..])
    ensures ValidFormat(fmt) && ValidIcsFor(fmt, full)
    ensures var all := LayoutOf(fmt, full);
      && |all.offsets| == all.maxSfb + 1
      && dec.coeffs[..] == Rounded(all, e.zeroes, e.bandType, e.sfIdx, value)
    ensures BooksFound(full, coder.minBook, e.zeroes, e.bandType, e.sfIdx)
    ensures Prepared(fmt, Coded(full, maxSfb), e, full.maxSfb) && WrittenIsRounded(fmt, Coded(full, maxSfb), e, value)
    ensures Sent(fmt, Coded(full, maxSfb), e, full.maxSfb, groupLen, value, common, old(pb.bits), pb.bits)
  {
    hide BooksFound, Sent;
    hide Framed, Spread, Within, Heads, Prepared, Received, BooksKnown, SizesOf, ValidFormat, ValidIcsFor, ValidIcs,
      FlaggedBy, LayoutOf, Rounded, HeadsInside, MostInUse, Geometry, Grouped, SilentAbove, Apart, ShortTables;
    var own := SearchAndAdjust(psy, coder, scaleBits, destBits, fmt, full, groupLen, numWindows, enc);
    var n := Greater(own, pair);
    maxSfb := n;
    FewerFramed(fmt, full, groupLen, numWindows, n);
    FewerSizes(fmt, full, n, swbSizes);
    CutIsSilent(full, enc.zeroes[..], groupLen, numWindows, n);
    Round(fmt, Coded(full, n), value, enc);
    e := enc.View();
    NothingIsLost(fmt, full, n, e, value);
    SearchedIsPrepared(fmt, full, groupLen, numWindows, n, e, value);
    r, sections := EncodeAndDecode(fmt, Coded(full, n), full.maxSfb, swbSizes[..n], groupLen, numWindows, common,
                                   strict, value, pb, enc, dec);
    ReceivedCoefs(Coded(full, n), e, sections, r, dec.sf[..], dec.coeffs[..]);
  }

  ghost predicate WrittenIsRounded(fmt: Format, ics: Ics, e: Element, value: Value) {
    ValidFormat(fmt) && ValidIcsFor(fmt, ics) &&
    var lay := LayoutOf(fmt, ics);
    |lay.offsets| == lay.maxSfb + 1 && e.q == Rounded(lay, e.zeroes, e.bandType, e.sfIdx, value)
  }

  lemma ReceivedCoefs(ics: Ics, e: Element, sections: seq<seq<Section>>, r: Option<Ics>, sf: seq<Scale>,
                      coefs: seq<int>)
    requires Received(ics, e, sections, r, sf, coefs)
    ensures coefs == e.q
  {
  }

  // ---------- when the least codebooks hold the coefficients ----------

  /** A least codebook holds the value, or none could hold more of it. */
  predicate HeldBy(cb: nat, x: int) {
    cb == ESC_BOOK || (cb < 12 && Abs(x) <= Reach(cb))
  }

  /** The least codebook of a band at a scalefactor holds all its coefficients there. */
  ghost predicate HoldsBooks(lay: Layout, minBook: (nat, int) -> nat, value: Value)
    requires |lay.offsets| == lay.maxSfb + 1
  {
    forall p: nat, x: int :: p < COEFS && !InTail(lay, p) ==> HeldBy(minBook(HeadEntry(lay, p), x), value(p, x))
  }

  /** The coefficient as it was rounded at the scalefactor of its band, at most cut to the greatest
      escape; zero in silent bands. */
  ghost predicate UncutAt(lay: Layout, e: Element, value: Value, coefs: seq<int>, p: nat)
    requires |lay.offsets| == lay.maxSfb + 1
  {
    var a := HeadEntry(lay, p);
    && p < |coefs| && (InTail(lay, p) || (a < |e.zeroes| && a < |e.sfIdx|))
    && coefs[p] == if InTail(lay, p) || e.zeroes[a] then 0 else Cut(ESC_BOOK, value(p, e.sfIdx[a]))
  }

  /** The band of a coefficient has its head among the heads of all bands. */
  lemma HeadOfCoefficient(fmt: Format, full: Ics, p: nat) returns (m: nat)
    requires ValidFormat(fmt) && ValidIcsFor(fmt, full) && p < COEFS
    requires var all := LayoutOf(fmt, full); |all.offsets| == all.maxSfb + 1 && !InTail(all, p)
    ensures m < |AllHeads(full)| && AllHeads(full)[m] == HeadEntry(LayoutOf(fmt, full), p)
  {
    hide ValidTables, HeadEntry, InTail, ValidOffsets, Windows, Heads, ValidLayout, OwnEntry;
    var g, w, i, r := Located(LayoutOf(fmt, full), p);
    OffsetsOf(fmt, full, i);
    PlaceOf(fmt, full, g, w, i, r);
    HeadAt(full.groups, full.maxSfb, g, |full.groups|, i);
    m := |Heads(full.groups, full.maxSfb, g)| + i;
  }

  lemma OneHeld(lay: Layout, minBook: (nat, int) -> nat, value: Value, p: nat, x: int)
    requires |lay.offsets| == lay.maxSfb + 1 && HoldsBooks(lay, minBook, value) && p < COEFS && !InTail(lay, p)
    ensures HeldBy(minBook(HeadEntry(lay, p), x), value(p, x))
  {
    hide HeadEntry, InTail;
  }

  lemma HeldIsUncutAt(fmt: Format, full: Ics, e: Element, minBook: (nat, int) -> nat, value: Value, p: nat)
    requires ValidFormat(fmt) && ValidIcsFor(fmt, full) && p < COEFS
    requires BooksFound(full, minBook, e.zeroes, e.bandType, e.sfIdx)
    requires var all := LayoutOf(fmt, full); |all.offsets| == all.maxSfb + 1 && HoldsBooks(all, minBook, value)
    ensures var all := LayoutOf(fmt, full);
      && UncutAt(all, e, value, Rounded(all, e.zeroes, e.bandType, e.sfIdx, value), p)
      && (!InTail(all, p) ==> HeadEntry(all, p) < ENTRIES && LeastHolds(all, e, value, p))
  {
    hide ValidFormat, ValidIcsFor, HeadEntry, InTail, LayoutOf, Heads, Reach;
    var all := LayoutOf(fmt, full);
    if !InTail(all, p) {
      var m := HeadOfCoefficient(fmt, full, p);
      var a := HeadEntry(all, p);
      assert BookFound(minBook, e.zeroes, e.bandType, e.sfIdx, AllHeads(full)[m]);
      if !e.zeroes[a] {
        OneHeld(all, minBook, value, p, e.sfIdx[a]);
        if e.bandType[a] != ESC_BOOK {
          ReachGrows(e.bandType[a], ESC_BOOK);
        }
      }
    }
  }

  /** What the decoder ends with. */
  ghost predicate Uncut(lay: Layout, e: Element, value: Value, coefs: seq<int>)
    requires |lay.offsets| == lay.maxSfb + 1
  {
    |coefs| == COEFS && forall p :: 0 <= p < COEFS ==> UncutAt(lay, e, value, coefs, p)
  }

  lemma HeldIsUncut(fmt: Format, full: Ics, e: Element, minBook: (nat, int) -> nat, value: Value)
    requires ValidFormat(fmt) && ValidIcsFor(fmt, full)
    requires BooksFound(full, minBook, e.zeroes, e.bandType, e.sfIdx)
    requires var all := LayoutOf(fmt, full); |all.offsets| == all.maxSfb + 1 && HoldsBooks(all, minBook, value)
    ensures var all := LayoutOf(fmt, full);
      Uncut(all, e, value, Rounded(all, e.zeroes, e.bandType, e.sfIdx, value))
  {
    hide UncutAt, BooksFound, HoldsBooks, ValidFormat, ValidIcsFor, LayoutOf;
    var all := LayoutOf(fmt, full);
    var q := Rounded(all, e.zeroes, e.bandType, e.sfIdx, value);
    forall p | 0 <= p < COEFS ensures UncutAt(all, e, value, q, p) {
      HeldIsUncutAt(fmt, full, e, minBook, value, p);
    }
  }

  /** The coefficients of the coded bands are held in their layout too. */
  lemma HeldWhenCoded(fmt: Format, full: Ics, maxSfb: nat, e: Element, minBook: (nat, int) -> nat, value: Value, p: nat)
    requires ValidFormat(fmt) && ValidIcsFor(fmt, full) && ValidIcsFor(fmt, Coded(full, maxSfb))
    requires maxSfb <= full.maxSfb && BooksFound(full, minBook, e.zeroes, e.bandType, e.sfIdx) && p < COEFS
    requires var all := LayoutOf(fmt, full); |all.offsets| == all.maxSfb + 1 && HoldsBooks(all, minBook, value)
    ensures var few := LayoutOf(fmt, Coded(full, maxSfb));
      |few.offsets| == few.maxSfb + 1 && (!InTail(few, p) ==> LeastHolds(few, e, value, p))
  {
    hide ValidTables, ValidOffsets, HeadEntry, InTail, HoldsBooks, BooksFound, LeastHolds, ValidLayout, Windows;
    var few := LayoutOf(fmt, Coded(full, maxSfb));
    LayoutShape(fmt, Coded(full, maxSfb));
    if !InTail(few, p) {
      var g, w, i, r := Located(few, p);
      PlaceOf(fmt, Coded(full, maxSfb), g, w, i, r);
      PlaceOf(fmt, full, g, w, i, r);
      HeldIsUncutAt(fmt, full, e, minBook, value, p);
      SameEntryHolds(few, LayoutOf(fmt, full), e, value, p);
    }
  }

  lemma SameEntryHolds(few: Layout, all: Layout, e: Element, value: Value, p: nat)
    requires HeadEntry(few, p) == HeadEntry(all, p) && LeastHolds(all, e, value, p)
    ensures LeastHolds(few, e, value, p)
  {
  }

  /** After the search the channel is written as it was rounded, and when all groups are single
      windows and no run can reach the escape value, in the fewest bits. */
  lemma SearchedIsCheapest(fmt: Format, full: Ics, maxSfb: nat, e: Element, minBook: (nat, int) -> nat, value: Value,
                           groupLen: seq<nat>, numWindows: nat)
    requires ValidFormat(fmt) && ValidIcsFor(fmt, full) && maxSfb <= full.maxSfb
    requires Prepared(fmt, Coded(full, maxSfb), e, full.maxSfb) && Grouped(full.groups, groupLen, numWindows)
    requires BooksFound(full, minBook, e.zeroes, e.bandType, e.sfIdx)
        && WrittenIsRounded(fmt, Coded(full, maxSfb), e, value)
    requires var all := LayoutOf(fmt, full); |all.offsets| == all.maxSfb + 1 && HoldsBooks(all, minBook, value)
    ensures WrittenAtHeads(LayoutOf(fmt, Coded(full, maxSfb)), e, value) && |fmt.tables.books| == 11
    ensures 0 < maxSfb < RunEsc(IsShort(full)) && SameScales(full.groups, maxSfb, e.sfIdx) ==>
      FewestSent(fmt, Coded(full, maxSfb), e, full.maxSfb,
                 SpendsFor(fmt, Coded(full, maxSfb), e, groupLen, value))
    ensures (forall g :: 0 <= g < |full.groups| ==> full.groups[g] == 1) ==> SameScales(full.groups, maxSfb, e.sfIdx)
  {
    hide ValidFormat, ValidIcsFor, HoldsBooks, BooksFound, LeastHolds, LayoutOf, Rounded, WrittenAtHeads, FewestSent,
      SpendsFor, SameScales, InTail, Prepared, Grouped;
    var ics := Coded(full, maxSfb);
    PreparedShape(fmt, ics, e, full.maxSfb);
    forall p | 0 <= p < COEFS && !InTail(LayoutOf(fmt, ics), p) ensures LeastHolds(LayoutOf(fmt, ics), e, value, p) {
      HeldWhenCoded(fmt, full, maxSfb, e, minBook, value, p);
    }
    HeldIsWritten(LayoutOf(fmt, ics), e, value);
    if forall g :: 0 <= g < |full.groups| ==> full.groups[g] == 1 {
      SingleWindowsSame(full.groups, maxSfb, e.sfIdx);
    }
    if 0 < maxSfb < RunEsc(IsShort(full)) && SameScales(full.groups, maxSfb, e.sfIdx) {
      SentIsCheapest(fmt, ics, e, full.maxSfb, groupLen, numWindows, value);
    }
  }

  lemma PreparedShape(fmt: Format, ics: Ics, e: Element, numSwb: nat)
    requires Prepared(fmt, ics, e, numSwb)
    ensures ValidFormat(fmt) && ValidIcsFor(fmt, ics) && Apart(ics.groups, ics.maxSfb) && |fmt.tables.books| == 11
    ensures |e.zeroes| == |e.bandType| == |e.sfIdx| == ENTRIES
    ensures |LayoutOf(fmt, ics).offsets| == LayoutOf(fmt, ics).maxSfb + 1
  {
  }

  // ---------- from coefficients to coefficients ----------

  /** find_min_book for the greatest magnitude of every band, at any scalefactor. */
  function LeastBooksOf(lay: Layout, mags: nat -> real, gain: Gains): (nat, int) -> nat
    requires |lay.offsets| == lay.maxSfb + 1
  {
    (n: nat, x: int) => if gain(x) > 0.0 then FindMinBook(GreatestMag(lay, mags, n, COEFS), gain(x)) else 0
  }

  lemma LeastBooksAreBooks(lay: Layout, mags: nat -> real, gain: Gains)
    requires |lay.offsets| == lay.maxSfb + 1
    ensures forall n: nat, x: int :: LeastBooksOf(lay, mags, gain)(n, x) < 12
  {
    forall n: nat, x: int ensures LeastBooksOf(lay, mags, gain)(n, x) < 12 {
      if gain(x) > 0.0 {
        var cb := FindMinBook(GreatestMag(lay, mags, n, COEFS), gain(x));
        assert LeastBooksOf(lay, mags, gain)(n, x) == cb;
      } else {
        assert LeastBooksOf(lay, mags, gain)(n, x) == 0;
      }
    }
  }

  /** These codebooks hold the coefficients. */
  lemma LeastBooksHold(lay: Layout, mags: nat -> real, gain: Gains)
    requires |lay.offsets| == lay.maxSfb + 1 && Steps(gain)
    ensures HoldsBooks(lay, LeastBooksOf(lay, mags, gain), RoundOf(mags, gain))
  {
    hide HeadEntry, InTail, FindMinBook, RoundMag, Steps;
    forall p: nat, x: int | p < COEFS && !InTail(lay, p)
      ensures HeldBy(LeastBooksOf(lay, mags, gain)(HeadEntry(lay, p), x), RoundOf(mags, gain)(p, x))
    {
      GainPositive(gain, x);
      assert Mag(mags(p)) <= GreatestMag(lay, mags, HeadEntry(lay, p), COEFS);
      MinBookHolds(Mag(mags(p)), GreatestMag(lay, mags, HeadEntry(lay, p), COEFS), gain(x));
    }
  }

  /** Coefficients are rounded at the scalefactors that the search finds for them, written and read:
      the decoder ends with all roundings of the bands that are heard, cut to nothing but the
      greatest escape, and with the same scalefactors in every window of a group they took the
      fewest bits. */
  method SendCoefficients(psy: seq<Psy>, coder: Coder, scaleBits: seq<nat>, destBits: int, mags: nat -> real,
                          gain: Gains, fmt: Format, full: Ics, swbSizes: seq<nat>, groupLen: seq<nat>,
                          numWindows: nat, pair: nat, common: bool, strict: bool, pb: PutBitContext,
                          enc: AacEncoder.SingleChannelElement, dec: AacDecoder.SingleChannelElement)
    returns (ghost maxSfb: nat, r: Option<Ics>, ghost e: Element, ghost sections: seq<seq<Section>>)
    requires Framed(fmt, full, groupLen, numWindows) && SizesOf(fmt, full, swbSizes) && dec.Sized()
    requires pair <= full.maxSfb && Steps(gain)
    requires ValidPsy(psy) && |scaleBits| == 121 && (forall r: real :: r >= 512.0 ==> coder.steps(r) >= 0)
    requires enc.zeroes.Length == enc.bandType.Length == enc.sfIdx.Length == ENTRIES && enc.q.Length == COEFS
    requires enc.sfIdx != enc.q && enc.bandType as object != enc.q
    requires BooksKnown(AllHeads(full), enc.bandType[..])
    modifies pb, enc.zeroes, enc.bandType, enc.sfIdx, enc.q, dec.bandType, dec.bandTypeRunEnd, dec.sf, dec.coeffs
    ensures FlaggedBy(psy, full, e.zeroes)
    ensures Spread(AllHeads(full), e.sfIdx) && Within(AllHeads(full), e.sfIdx, 60, 217)
    ensures ValidFormat(fmt) && ValidIcsFor(fmt, full)
    ensures var all := LayoutOf(fmt, full);
      |all.offsets| == all.maxSfb + 1 && Uncut(all, e, RoundOf(mags, gain), dec.coeffs[..])
    ensures Received(Coded(full, maxSfb), e, sections, r, dec.sf[..], dec.coeffs[..])
    ensures Sent(fmt, Coded(full, maxSfb), e, full.maxSfb, groupLen, RoundOf(mags, gain), common, old(pb.bits), pb.bits)
    ensures |fmt.tables.books| == 11
    ensures 0 < maxSfb < RunEsc(IsShort(full)) && SameScales(full.groups, maxSfb, e.sfIdx) ==>
      FewestSent(fmt, Coded(full, maxSfb), e, full.maxSfb,
                 SpendsFor(fmt, Coded(full, maxSfb), e, groupLen, RoundOf(mags, gain)))
    ensures (forall g :: 0 <= g < |full.groups| ==> full.groups[g] == 1) ==> SameScales(full.groups, maxSfb, e.sfIdx)
  {
    hide Framed, Spread, Within, Prepared, Received, BooksKnown, SizesOf, ValidFormat, ValidIcsFor, FlaggedBy, LayoutOf,
      Rounded, BooksFound, Sent, HoldsBooks, Uncut, SameScales, FewestSent, SpendsFor, Steps, RoundOf, LeastBooksOf,
      WrittenIsRounded, MostInUse, Grouped, Heads, WrittenAtHeads;
    FewerFramed(fmt, full, groupLen, numWindows, 0);
    LayoutShape(fmt, full);
    var all := FullLayout(fmt, full);
    LeastBooksAreBooks(all, mags, gain);
    var found := coder.(minBook := LeastBooksOf(all, mags, gain));
    maxSfb, r, e, sections := SearchEncodeDecode(psy, found, scaleBits, destBits, RoundOf(mags, gain), fmt, full,
                                                 swbSizes, groupLen, numWindows, pair, common, strict, pb, enc, dec);
    LeastBooksHold(all, mags, gain);
    HeldIsUncut(fmt, full, e, found.minBook, RoundOf(mags, gain));
    SearchedIsCheapest(fmt, full, maxSfb, e, found.minBook, RoundOf(mags, gain), groupLen, numWindows);
  }

  /** The same with an encoder and a decoder that have seen no frame yet. */
  method SendFirstFrame(psy: seq<Psy>, coder: Coder, scaleBits: seq<nat>, destBits: int, mags: nat -> real,
                        gain: Gains, fmt: Format, full: Ics, swbSizes: seq<nat>, groupLen: seq<nat>,
                        numWindows: nat, pair: nat, common: bool, strict: bool)
    returns (bits: Bits, coefs: seq<int>, ghost e: Element)
    requires Framed(fmt, full, groupLen, numWindows) && SizesOf(fmt, full, swbSizes)
    requires pair <= full.maxSfb && Steps(gain)
    requires ValidPsy(psy) && |scaleBits| == 121 && (forall r: real :: r >= 512.0 ==> coder.steps(r) >= 0)
    ensures FlaggedBy(psy, full, e.zeroes) && ValidFormat(fmt) && ValidIcsFor(fmt, full)
    ensures Spread(AllHeads(full), e.sfIdx) && Within(AllHeads(full), e.sfIdx, 60, 217)
    ensures var all := LayoutOf(fmt, full);
      |all.offsets| == all.maxSfb + 1 && Uncut(all, e, RoundOf(mags, gain), coefs)
  {
    hide Framed, Spread, Within, SizesOf, ValidFormat, ValidIcsFor, FlaggedBy, LayoutOf, Uncut, SameScales, FewestSent,
      SpendsFor, Steps, RoundOf, Received, Sent, Heads;
    var pb := new PutBitContext();
    var enc := new AacEncoder.SingleChannelElement();
    var dec := new AacDecoder.SingleChannelElement();
    ghost var maxSfb, r, sections;
    maxSfb, r, e, sections := SendCoefficients(psy, coder, scaleBits, destBits, mags, gain, fmt, full, swbSizes,
                                               groupLen, numWindows, pair, common, strict, pb, enc, dec);
    bits, coefs := pb.bits, dec.coeffs[..];
  }

  /** The layout with all bands of the sampling rate. */
  function FullLayout(fmt: Format, full: Ics): (lay: Layout)
    requires ValidFormat(fmt) && ValidIcsFor(fmt, full)
    ensures lay == LayoutOf(fmt, full)
  {
    Layout(IsShort(full), full.groups, full.maxSfb, Offsets(fmt, full)[..full.maxSfb + 1])
  }
}
