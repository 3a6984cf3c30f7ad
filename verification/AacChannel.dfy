/** The bits of one AAC channel stream and their reading: window grouping, section data,
    scalefactor differences and spectral data (ISO/IEC 14496-3 tables 4.6, 4.44, 4.46, 4.47 and
    4.50). Writing follows encode_individual_channel (libavcodec/aacenc.c), reading follows
    decode_ics (libavcodec/aacdec.c) for the AAC-LC object type. */
module AacChannel {
  import opened Wrappers
  import opened Sums
  import opened BitIO
  import opened CodeLists
  import opened AacSections
  import opened AacSpectral

  // ---------- section data ----------

  /** do { incr = get_bits; end += incr; checks } while (incr is the escape). */
  function DecodeRun(data: Bits, pos: nat, short: bool, end: nat, maxSfb: nat): (r: Result<nat>)
    ensures r.Ok? ==> pos < r.pos <= |data| && end <= r.value <= maxSfb
    decreases if pos <= |data| then |data| - pos + 1 else 0
  {
    var incr := GetBits(data, pos, RunBits(short));
    var p := pos + RunBits(short);
    if p > |data| then Err
    else if end + incr > maxSfb then Err
    else if incr == RunEsc(short) then DecodeRun(data, p, short, end + incr, maxSfb)
    else Ok(end + incr, p)
  }

  /** The section that starts at band k; codebook 12 is refused. */
  function DecodeSection(data: Bits, pos: nat, short: bool, k: nat, maxSfb: nat): (r: Result<Section>)
    ensures r.Ok? ==> pos < r.pos <= |data| && k + r.value.run <= maxSfb
  {
    var book := GetBits(data, pos, 4);
    if book == 12 then Err
    else
      match DecodeRun(data, pos + 4, short, k, maxSfb)
      case Err => Err
      case Ok(end, p) => Ok(Section(book, end - k), p)
  }

  function SectionParser(short: bool, maxSfb: nat): (Bits, nat, nat) -> Result<Section> {
    (data: Bits, pos: nat, k: nat) => DecodeSection(data, pos, short, k, maxSfb)
  }

  function Width(): Section -> nat {
    (s: Section) => s.run
  }

  /** The sections of one window group: while (k < max_sfb). */
  function DecodeSections(data: Bits, pos: nat, short: bool, maxSfb: nat): Result<seq<Section>> {
    Until(SectionParser(short, maxSfb), Width(), data, pos, 0, maxSfb)
  }

  lemma {:induction false} RunReadsBack(data: Bits, pos: nat, short: bool, run: nat, end: nat, maxSfb: nat)
    requires StartsAt(data, pos, RunCode(short, run)) && end + run <= maxSfb
    ensures DecodeRun(data, pos, short, end, maxSfb) == Ok(end + run, pos + |RunCode(short, run)|)
    decreases run
  {
    hide ToBits, Pow2, GetBits;
    FieldsFit();
    var n, esc := RunBits(short), RunEsc(short);
    if run >= esc {
      StartsAtParts(data, pos, ToBits(n, esc), RunCode(short, run - esc));
      ReadField(data, pos, n, esc);
      RunReadsBack(data, pos + n, short, run - esc, end + esc, maxSfb);
    } else {
      ReadField(data, pos, n, run);
    }
  }

  lemma FieldsFit()
    ensures Pow2(1) == 2 && Pow2(2) == 4 && Pow2(3) == 8 && Pow2(4) == 16 && Pow2(5) == 32 && Pow2(6) == 64
    ensures Pow2(8) == 256
  {
  }

  /** The codebooks of the standard: all but 12. */
  predicate Defined(book: nat) {
    book <= 11 || 13 <= book <= 15
  }

  /** Sections of a window group: positive runs, defined codebooks, covering all bands. */
  ghost predicate Sectioning(ss: seq<Section>, maxSfb: nat) {
    Covered(ss) == maxSfb && forall i :: 0 <= i < |ss| ==> ss[i].run > 0 && Defined(ss[i].book)
  }

  lemma {:induction false} CoveredIsWidth(ss: seq<Section>, i: nat)
    requires i <= |ss|
    ensures Covered(ss) == Covered(ss[..i]) + WidthFrom(Width(), ss, i)
    decreases |ss| - i
  {
    if i < |ss| {
      CoveredIsWidth(ss, i + 1);
      assert ss[..i + 1][..i] == ss[..i];
    } else {
      assert ss[..i] == ss;
    }
  }

  /** One section reads back at any band where it fits. */
  lemma SectionReadsBackAt(data: Bits, pos: nat, short: bool, s: Section, k: nat, maxSfb: nat)
    requires Defined(s.book) && k + s.run <= maxSfb && StartsAt(data, pos, SectionCode(short, s))
    ensures DecodeSection(data, pos, short, k, maxSfb) == Ok(s, pos + |SectionCode(short, s)|)
  {
    StartsAtParts(data, pos, ToBits(4, s.book), RunCode(short, s.run));
    FieldsFit();
    ReadField(data, pos, 4, s.book);
    RunReadsBack(data, pos + 4, short, s.run, k, maxSfb);
  }

  lemma SectionReadsBack(data: Bits, short: bool, s: Section, k: nat, maxSfb: nat)
    requires Defined(s.book) && k + s.run <= maxSfb
    ensures ReadsBack(SectionParser(short, maxSfb), Coder(short), data, k, s)
  {
    forall p: nat | StartsAt(data, p, Coder(short)(s))
      ensures SectionParser(short, maxSfb)(data, p, k) == Ok(s, p + |Coder(short)(s)|)
    {
      SectionReadsBackAt(data, p, short, s, k, maxSfb);
    }
  }

  /** The sections of a window group read back, escapes in their run fields included. */
  lemma SectionsReadBack(data: Bits, pos: nat, short: bool, ss: seq<Section>, maxSfb: nat)
    requires Sectioning(ss, maxSfb) && StartsAt(data, pos, SectionsCode(short, ss))
    ensures DecodeSections(data, pos, short, maxSfb) == Ok(ss, pos + |SectionsCode(short, ss)|)
  {
    CatAll(Coder(short), ss);
    CoveredIsWidth(ss, 0);
    forall n, k: nat | 0 <= n < |ss| && k + Width()(ss[n]) <= maxSfb
      ensures ReadsBack(SectionParser(short, maxSfb), Coder(short), data, k, ss[n])
    {
      SectionReadsBack(data, short, ss[n], k, maxSfb);
    }
    UntilReadBack(SectionParser(short, maxSfb), Width(), Coder(short), data, pos, ss, 0, 0, maxSfb);
    assert ss[0..] == ss;
  }

  /** Whatever the data, sections that are accepted cover the bands of the group exactly. */
  lemma DecodedSectionsCover(data: Bits, pos: nat, short: bool, maxSfb: nat)
    ensures var r := DecodeSections(data, pos, short, maxSfb); r.Ok? ==> Covered(r.value) == maxSfb
  {
    UntilCovers(SectionParser(short, maxSfb), Width(), data, pos, 0, maxSfb);
    var r := DecodeSections(data, pos, short, maxSfb);
    if r.Ok? {
      CoveredIsWidth(r.value, 0);
    }
  }

  // ---------- scalefactors ----------

  const SF_ZERO: int := 60 // SCALE_DIFF_ZERO

  /** What the decoder makes of one band's scalefactor. */
  datatype Scale = NoScale | Gain(index: int) | Intensity(position: int) | Noise(level: int)

  /** The running values of decode_scalefactors: offset[0..2] and noise_flag. */
  datatype ScaleState = ScaleState(gain: int, noise: int, intensity: int, noiseFlag: int)

  function Limit(x: int, lo: int, hi: int): int {
    if x < lo then lo else if x > hi then hi else x
  }

  /** One band: nothing for a zero band, else a difference from the running value of its kind. */
  function DecodeScale(words: seq<Bits>, data: Bits, pos: nat, book: nat, st: ScaleState): Result<(Scale, ScaleState)> {
    if book == 0 then Ok((NoScale, st), pos)
    else if book == 13 && st.noiseFlag > 0 then
      var level := st.noise + GetBits(data, pos, 9) - 256;
      Ok((Noise(Limit(level, -100, 155)), st.(noise := level, noiseFlag := st.noiseFlag - 1)), pos + 9)
    else
      match Lookup(words, data, pos, |words|)
      case Err => Err
      case Ok(v, p) =>
        var diff := v - SF_ZERO;
        if book >= 14 then
          var position := st.intensity + diff;
          Ok((Intensity(Limit(position, -155, 100)), st.(intensity := position)), p)
        else if book == 13 then
          var level := st.noise + diff;
          Ok((Noise(Limit(level, -100, 155)), st.(noise := level, noiseFlag := st.noiseFlag - 1)), p)
        else
          var gain := st.gain + diff;
          if gain < 0 || gain > 255 then Err else Ok((Gain(gain), st.(gain := gain)), p)
  }

  function ScaleParser(words: seq<Bits>): (Bits, nat, nat, ScaleState) -> Result<(Scale, ScaleState)> {
    (data: Bits, pos: nat, book: nat, st: ScaleState) => DecodeScale(words, data, pos, book, st)
  }

  function FirstState(gain: int): ScaleState {
    ScaleState(gain, gain - 90, 0, 1)
  }

  // ---------- the bits of scalefactors, said without the decoder ----------

  /** What a band's scalefactor stands for. */
  datatype Kind = Silence | Spectral | NoiseBand | IntensityBand

  function KindOf(book: nat): Kind {
    match book
    case 0 => Silence
    case 13 => NoiseBand
    case 14 => IntensityBand
    case 15 => IntensityBand
    case _ => Spectral
  }

  /** The scalefactor of the last band of a kind before band k. */
  function Last(start: int, kind: Kind, books: seq<nat>, sf: seq<int>, k: nat): int
    requires |sf| == |books| && k <= |sf|
  {
    if k == 0 then start
    else if KindOf(books[k - 1]) == kind then sf[k - 1]
    else Last(start, kind, books, sf, k - 1)
  }

  /** Spectral bands start from the global gain, noise 90 below it, intensity positions from 0. */
  function PreviousOf(gain: nat, kind: Kind, books: seq<nat>, sf: seq<int>, k: nat): int
    requires |sf| == |books| && k <= |sf|
  {
    Last(match kind case NoiseBand => gain - 90 case IntensityBand => 0 case _ => gain, kind, books, sf, k)
  }

  /** The scalefactor of the last spectral band before band k; the global gain at first. */
  function Previous(gain: nat, books: seq<nat>, sf: seq<int>, k: nat): int
    requires |sf| == |books| && k <= |sf|
  {
    PreviousOf(gain, Spectral, books, sf, k)
  }

  /** Noise bands among the first k. */
  function NoiseBands(books: seq<nat>, k: nat): nat
    requires k <= |books|
  {
    if k == 0 then 0 else NoiseBands(books, k - 1) + if books[k - 1] == 13 then 1 else 0
  }

  /** The first noise band has nine bits of its own. */
  predicate FirstNoise(books: seq<nat>, k: nat)
    requires k < |books|
  {
    books[k] == 13 && NoiseBands(books, k) == 0
  }

  /** Band k has a code: its scalefactor is in range, and so is its difference to the one before it of
      its kind. */
  predicate CodableScale(gain: nat, books: seq<nat>, sf: seq<int>, k: nat)
    requires |sf| == |books| && k < |sf|
  {
    var kind := KindOf(books[k]);
    var diff := sf[k] - PreviousOf(gain, kind, books, sf, k);
    && (kind.Spectral? ==> 0 <= sf[k] <= 255)
    && (kind.Silence? || if FirstNoise(books, k) then -256 <= diff <= 255 else -60 <= diff <= 60)
  }

  ghost predicate CodableScales(gain: nat, books: seq<nat>, sf: seq<int>) {
    && |sf| == |books|
    && (forall k :: 0 <= k < |sf| ==> Defined(books[k]))
    && (forall k :: 0 <= k < |sf| ==> CodableScale(gain, books, sf, k))
  }

  /** Nothing for a silent band; nine bits for the first noise band; else the code word of the
      difference. */
  function ScaleCode(words: seq<Bits>, gain: nat, books: seq<nat>, sf: seq<int>, k: nat): Bits
    requires |sf| == |books| && k < |sf|
  {
    var kind := KindOf(books[k]);
    var diff := sf[k] - PreviousOf(gain, kind, books, sf, k);
    if kind.Silence? then []
    else if FirstNoise(books, k) then (if diff >= -256 then ToBits(9, diff + 256) else [])
    else if 0 <= diff + SF_ZERO < |words| then words[diff + SF_ZERO]
    else []
  }

  /** The code words of all bands, in dense order. */
  function ScaleCodes(words: seq<Bits>, gain: nat, books: seq<nat>, sf: seq<int>): (codes: seq<Bits>)
    requires |sf| == |books|
    ensures |codes| == |sf|
    ensures forall k :: 0 <= k < |sf| ==> codes[k] == ScaleCode(words, gain, books, sf, k)
  {
    seq(|sf|, k requires 0 <= k < |sf| => ScaleCode(words, gain, books, sf, k))
  }

  /** What a decoder makes of the scalefactor of a band: noise levels are cut to -100..155 and
      intensity positions to -155..100. */
  function ScaleValue(book: nat, sf: int): Scale {
    match KindOf(book)
    case Silence => NoScale
    case Spectral => Gain(sf)
    case NoiseBand => Noise(if sf < -100 then -100 else if sf > 155 then 155 else sf)
    case IntensityBand => Intensity(if sf < -155 then -155 else if sf > 100 then 100 else sf)
  }

  /** What the decoder recovers: the scalefactor of every coded band. */
  function ScaleValues(books: seq<nat>, sf: seq<int>): (vs: seq<Scale>)
    requires |sf| == |books|
    ensures |vs| == |sf|
    ensures forall k :: 0 <= k < |sf| ==> vs[k] == ScaleValue(books[k], sf[k])
  {
    seq(|sf|, k requires 0 <= k < |sf| => ScaleValue(books[k], sf[k]))
  }

  /** Each kind keeps its own running value. */
  function StateBefore(gain: nat, books: seq<nat>, sf: seq<int>, k: nat): ScaleState
    requires |sf| == |books| && k <= |sf|
  {
    ScaleState(PreviousOf(gain, Spectral, books, sf, k), PreviousOf(gain, NoiseBand, books, sf, k),
               PreviousOf(gain, IntensityBand, books, sf, k), 1 - NoiseBands(books, k))
  }

  function ScaleStates(gain: nat, books: seq<nat>, sf: seq<int>): (sts: seq<ScaleState>)
    requires |sf| == |books|
    ensures |sts| == |sf| + 1
    ensures forall k :: 0 <= k <= |sf| ==> sts[k] == StateBefore(gain, books, sf, k)
  {
    seq(|sf| + 1, k requires 0 <= k <= |sf| => StateBefore(gain, books, sf, k))
  }

  lemma NineBits()
    ensures Pow2(9) == 512
  {
    assert Pow2(8) == 256;
  }

  /** Only the running value of the band's kind moves. */
  lemma StateStep(gain: nat, books: seq<nat>, sf: seq<int>, k: nat)
    requires |sf| == |books| && k < |sf|
    ensures var st, kind := StateBefore(gain, books, sf, k), KindOf(books[k]);
      StateBefore(gain, books, sf, k + 1)
      == match kind
         case Silence => st
         case Spectral => st.(gain := sf[k])
         case NoiseBand => st.(noise := sf[k], noiseFlag := st.noiseFlag - 1)
         case IntensityBand => st.(intensity := sf[k])
  {
  }

  lemma ScaleReadsBackAt(words: seq<Bits>, data: Bits, pos: nat, gain: nat, books: seq<nat>, sf: seq<int>, k: nat)
    requires PrefixFree(words) && |words| == 121 && CodableScales(gain, books, sf) && k < |sf|
    requires StartsAt(data, pos, ScaleCode(words, gain, books, sf, k))
    ensures DecodeScale(words, data, pos, books[k], StateBefore(gain, books, sf, k))
         == Ok((ScaleValue(books[k], sf[k]), StateBefore(gain, books, sf, k + 1)),
               pos + |ScaleCode(words, gain, books, sf, k)|)
  {
    hide ToBits, Pow2, GetBits, Lookup, Last;
    var kind := KindOf(books[k]);
    var diff := sf[k] - PreviousOf(gain, kind, books, sf, k);
    assert CodableScale(gain, books, sf, k);
    StateStep(gain, books, sf, k);
    if FirstNoise(books, k) {
      NineBits();
      ReadField(data, pos, 9, diff + 256);
    } else if !kind.Silence? {
      LookupFinds(words, data, pos, |words|, diff + SF_ZERO);
    }
  }

  lemma ScaleReadsBack(words: seq<Bits>, data: Bits, gain: nat, books: seq<nat>, sf: seq<int>, k: nat)
    requires PrefixFree(words) && |words| == 121 && CodableScales(gain, books, sf) && k < |sf|
    ensures StepReadsBack(ScaleParser(words), data, ScaleCode(words, gain, books, sf, k), books[k],
                          StateBefore(gain, books, sf, k), ScaleValue(books[k], sf[k]),
                          StateBefore(gain, books, sf, k + 1))
  {
    var st := StateBefore(gain, books, sf, k);
    var code := ScaleCode(words, gain, books, sf, k);
    forall p: nat | StartsAt(data, p, code)
      ensures ScaleParser(words)(data, p, books[k], st)
           == Ok((ScaleValue(books[k], sf[k]), StateBefore(gain, books, sf, k + 1)), p + |code|)
    {
      ScaleReadsBackAt(words, data, p, gain, books, sf, k);
    }
  }

  /** The scalefactors of all coded bands read back. */
  lemma ScalesReadBack(words: seq<Bits>, data: Bits, pos: nat, gain: nat, books: seq<nat>, sf: seq<int>)
    requires PrefixFree(words) && |words| == 121 && CodableScales(gain, books, sf)
    requires StartsAt(data, pos, Join(ScaleCodes(words, gain, books, sf), |sf|))
    ensures Thread(ScaleParser(words), data, pos, books, FirstState(gain), |books|)
         == Ok((ScaleValues(books, sf), StateBefore(gain, books, sf, |sf|)),
               pos + |Join(ScaleCodes(words, gain, books, sf), |sf|)|)
  {
    var codes, vs, sts := ScaleCodes(words, gain, books, sf), ScaleValues(books, sf), ScaleStates(gain, books, sf);
    forall k | 0 <= k < |vs|
      ensures StepReadsBack(ScaleParser(words), data, codes[k], books[k], sts[k], vs[k], sts[k + 1])
    {
      ScaleReadsBack(words, data, gain, books, sf, k);
    }
    ThreadReadsBack(ScaleParser(words), data, pos, codes, books, vs, sts, |vs|);
    assert sts[0] == FirstState(gain);
    assert vs[..|vs|] == vs;
  }

  // ---------- what is refused ----------

  /** A code word that takes a spectral scalefactor out of 0..255 is refused. */
  lemma OutOfRangeRefused(words: seq<Bits>, data: Bits, pos: nat, book: nat, st: ScaleState, idx: nat)
    requires PrefixFree(words) && |words| == 121 && idx < |words| && StartsAt(data, pos, words[idx])
    requires 1 <= book <= 11
    ensures DecodeScale(words, data, pos, book, st).Err? <==> !(0 <= st.gain + idx - SF_ZERO <= 255)
  {
    LookupFinds(words, data, pos, |words|, idx);
  }

  /** Codebook 12 is refused, wherever it stands. */
  lemma ReservedRefused(data: Bits, pos: nat, short: bool, k: nat, maxSfb: nat)
    requires StartsAt(data, pos, [true, true, false, false])
    ensures DecodeSection(data, pos, short, k, maxSfb) == Err
  {
    hide ToBits, Pow2, GetBits, DecodeRun, StartsAt;
    TwelveBits();
    FieldsFit();
    ReadField(data, pos, 4, 12);
  }

  lemma TwelveBits()
    ensures ToBits(4, 12) == [true, true, false, false]
  {
    assert ToBits(1, 1) == ToBits(0, 0) + [true] == [true];
    assert ToBits(2, 3) == ToBits(1, 1) + [true];
    assert ToBits(3, 6) == ToBits(2, 3) + [false];
  }
}
