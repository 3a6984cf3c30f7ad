/** One channel read in place (decode_ics_info, decode_band_types, decode_scalefactors, the
    integer part of decode_spectrum_and_dequant and decode_ics of libavcodec/aacdec.c), proved
    against the functions of the modules AacChannel, AacSpectrum and AacStream. */
module AacDecoder {
  import opened Wrappers
  import opened Sums
  import opened BitIO
  import opened CodeLists
  import opened AacSections
  import opened AacSpectral
  import opened AacSpectrum
  import opened AacChannel
  import opened AacStream

  const BAND_SLOTS: nat := 120

  /** The bit reader. */
  class GetBitContext {
    const data: Bits
    var pos: nat

    constructor (data: Bits, pos: nat)
      ensures this.data == data && this.pos == pos
    {
      this.data, this.pos := data, pos;
    }

    method GetBit() returns (b: bool)
      modifies this
      ensures b == BitAt(data, old(pos)) && pos == old(pos) + 1
    {
      b := pos < |data| && data[pos];
      pos := pos + 1;
    }

    /** get_bits, most significant bit first. */
    method GetBits(n: nat) returns (v: nat)
      modifies this
      ensures v == BitIO.GetBits(data, old(pos), n) && pos == old(pos) + n
    {
      v := 0;
      NoBitsRead(data, pos);
      for i := 0 to n
        invariant pos == old(pos) + i && v == BitIO.GetBits(data, old(pos), i)
      {
        OneBitMore(data, old(pos), i);
        var b := GetBit();
        v := 2 * v + if b then 1 else 0;
      }
    }
  }

  lemma NoBitsRead(data: Bits, pos: nat)
    ensures BitIO.GetBits(data, pos, 0) == 0
  {
  }

  lemma OneBitMore(data: Bits, pos: nat, n: nat)
    ensures BitIO.GetBits(data, pos, n + 1) == 2 * BitIO.GetBits(data, pos, n) + if BitAt(data, pos + n) then 1 else 0
  {
    assert Window(data, pos, n + 1)[..n] == Window(data, pos, n);
  }

  lemma OneFlagMore(data: Bits, pos: nat, n: nat)
    requires n < 7
    ensures var flags := Window(data, pos, 7); var groups := ReadGroups(flags, n);
      ReadGroups(flags, n + 1)
        == if BitAt(data, pos + n) then groups[|groups| - 1 := groups[|groups| - 1] + 1] else groups + [1]
  {
  }

  /** decode_ics_info. */
  method DecodeIcsInfo(gb: GetBitContext, strict: bool, numSwbShort: nat, numSwbLong: nat) returns (r: Option<Ics>)
    modifies gb
    ensures ParseIcsInfo(gb.data, old(gb.pos), strict, numSwbShort, numSwbLong)
         == if r.Some? then Ok(r.value, gb.pos) else Err
  {
    hide BitIO.GetBits, ReadGroups;
    var reserved := gb.GetBit();
    if reserved && strict {
      return None;
    }
    var windowSequence := gb.GetBits(2);
    var kbWindow := gb.GetBit();
    if windowSequence == EIGHT_SHORT {
      var maxSfb := gb.GetBits(4);
      var groups := DecodeGrouping(gb);
      if maxSfb > numSwbShort {
        return None;
      }
      return Some(Ics(windowSequence, kbWindow, maxSfb, groups));
    } else {
      var maxSfb := gb.GetBits(6);
      var predictorPresent := gb.GetBit();
      if predictorPresent || maxSfb > numSwbLong {
        return None;
      }
      return Some(Ics(windowSequence, kbWindow, maxSfb, [1]));
    }
  }

  /** The grouping of eight short windows. */
  method DecodeGrouping(gb: GetBitContext) returns (groupLen: seq<nat>)
    modifies gb
    ensures groupLen == ReadGroups(Window(gb.data, old(gb.pos), 7), 7) && gb.pos == old(gb.pos) + 7
  {
    groupLen := [1];
    ghost var pos := gb.pos;
    for i := 0 to 7
      invariant gb.pos == pos + i && groupLen == ReadGroups(Window(gb.data, pos, 7), i)
    {
      OneFlagMore(gb.data, pos, i);
      var same := gb.GetBit();
      if same {
        groupLen := groupLen[|groupLen| - 1 := groupLen[|groupLen| - 1] + 1];
      } else {
        groupLen := groupLen + [1];
      }
    }
  }

  // ---------- band types ----------

  /** One section at band k of its group. */
  method ReadSection(gb: GetBitContext, short: bool, k: nat, maxSfb: nat) returns (r: Option<Section>)
    modifies gb
    ensures DecodeSection(gb.data, old(gb.pos), short, k, maxSfb) == if r.Some? then Ok(r.value, gb.pos) else Err
  {
    hide BitIO.GetBits;
    var bits := if short then 3 else 5;
    var sectEnd := k;
    var sectBandType := gb.GetBits(4);
    if sectBandType == 12 {
      return None;
    }
    ghost var start := gb.pos;
    var more := true;
    while more
      invariant more ==> k <= sectEnd
      invariant more ==> DecodeRun(gb.data, start, short, k, maxSfb)
                         == DecodeRun(gb.data, gb.pos, short, sectEnd, maxSfb)
      invariant !more ==> k <= sectEnd && DecodeRun(gb.data, start, short, k, maxSfb) == Ok(sectEnd, gb.pos)
      decreases more, |gb.data| - gb.pos
    {
      var sectLenIncr := gb.GetBits(bits);
      sectEnd := sectEnd + sectLenIncr;
      if gb.pos > |gb.data| {
        return None;
      }
      if sectEnd > maxSfb {
        return None;
      }
      more := sectLenIncr == (if short then 7 else 31);
    }
    return Some(Section(sectBandType, sectEnd - k));
  }

  /** What remains to be read of the sections of a group, after those read so far. */
  ghost predicate ReadSoFar(total: Result<seq<Section>>, read: seq<Section>, rest: Result<seq<Section>>) {
    match rest
    case Err => total == Err
    case Ok(ss, p) => total == Ok(read + ss, p)
  }

  lemma NothingRead(total: Result<seq<Section>>)
    ensures ReadSoFar(total, [], total)
  {
    if total.Ok? {
      assert [] + total.value == total.value;
    }
  }

  lemma OneSectionRead(total: Result<seq<Section>>, read: seq<Section>, data: Bits, pos: nat, short: bool, k: nat,
                       maxSfb: nat)
    requires k < maxSfb && ReadSoFar(total, read, Until(SectionParser(short, maxSfb), Width(), data, pos, k, maxSfb))
    ensures match DecodeSection(data, pos, short, k, maxSfb)
            case Err => total == Err
            case Ok(s, p) => ReadSoFar(total, read + [s],
                                       Until(SectionParser(short, maxSfb), Width(), data, p, k + s.run, maxSfb))
  {
    match DecodeSection(data, pos, short, k, maxSfb)
    case Err =>
    case Ok(s, p) =>
      var rest := Until(SectionParser(short, maxSfb), Width(), data, p, k + s.run, maxSfb);
      if rest.Ok? {
        assert read + ([s] + rest.value) == (read + [s]) + rest.value;
      }
  }

  lemma BooksMore(ss: seq<Section>, s: Section)
    ensures Books(ss + [s]) == Books(ss) + seq(s.run, _ => s.book) && Covered(ss + [s]) == Covered(ss) + s.run
  {
    assert (ss + [s])[..|ss|] == ss;
  }

  /** The first k bands of the group at base: their codebooks, and runs of equal codebooks that
      end within them. */
  ghost predicate Filled(bandType: seq<nat>, runEnd: seq<nat>, base: nat, k: nat, books: seq<nat>) {
    && base + k <= |bandType| && base + k <= |runEnd| && |books| == k
    && (forall a :: base <= a < base + k ==> bandType[a] == books[a - base])
    && (forall a :: base <= a < base + k ==> a - base < runEnd[a] <= k)
    && (forall a, b :: base <= a <= b < base + k && b - base < runEnd[a] ==> bandType[b] == bandType[a])
  }

  /** All entries outside a range are as before. */
  ghost predicate SameOutside(s: seq<nat>, t: seq<nat>, from: nat, to: nat) {
    |s| == |t| && forall a :: 0 <= a < |s| && !(from <= a < to) ==> t[a] == s[a]
  }

  lemma FilledMore(b0: seq<nat>, r0: seq<nat>, b1: seq<nat>, r1: seq<nat>, base: nat, ss: seq<Section>, s: Section)
    requires Filled(b0, r0, base, Covered(ss), Books(ss)) && base + Covered(ss) + s.run <= |b0| == |r0| == |b1| == |r1|
    requires var k := base + Covered(ss);
      && (forall a :: 0 <= a < |b1| ==> b1[a] == if k <= a < k + s.run then s.book else b0[a])
      && (forall a :: 0 <= a < |r1| ==> r1[a] == if k <= a < k + s.run then Covered(ss) + s.run else r0[a])
    ensures Filled(b1, r1, base, Covered(ss + [s]), Books(ss + [s]))
  {
    hide Books, Covered;
    BooksMore(ss, s);
  }

  /** The sections of one window group, and the band types of its bands. */
  method ReadGroupSections(gb: GetBitContext, short: bool, maxSfb: nat, bandType: array<nat>, runEnd: array<nat>,
                           idx: nat)
    returns (ok: bool, ghost ss: seq<Section>)
    requires bandType != runEnd && bandType.Length == runEnd.Length && idx + maxSfb <= bandType.Length
    modifies gb, bandType, runEnd
    ensures DecodeSections(gb.data, old(gb.pos), short, maxSfb) == if ok then Ok(ss, gb.pos) else Err
    ensures ok ==> Covered(ss) == maxSfb && Filled(bandType[..], runEnd[..], idx, maxSfb, Books(ss))
    ensures SameOutside(old(bandType[..]), bandType[..], idx, idx + maxSfb)
    ensures SameOutside(old(runEnd[..]), runEnd[..], idx, idx + maxSfb)
  {
    hide Books, Covered, Until, ReadSoFar, DecodeSection, Filled;
    ghost var total := DecodeSections(gb.data, gb.pos, short, maxSfb);
    var k := 0;
    ok, ss := true, [];
    NothingRead(total);
    NothingFilled(bandType[..], runEnd[..], idx);
    while k < maxSfb
      invariant k <= maxSfb && k == Covered(ss)
      invariant ReadSoFar(total, ss, Until(SectionParser(short, maxSfb), Width(), gb.data, gb.pos, k, maxSfb))
      invariant Filled(bandType[..], runEnd[..], idx, k, Books(ss))
      invariant SameOutside(old(bandType[..]), bandType[..], idx, idx + maxSfb)
      invariant SameOutside(old(runEnd[..]), runEnd[..], idx, idx + maxSfb)
      invariant gb.pos <= |gb.data| || ss == []
      decreases |gb.data| - gb.pos
    {
      OneSectionRead(total, ss, gb.data, gb.pos, short, k, maxSfb);
      ghost var b0, r0 := bandType[..], runEnd[..];
      var s := ReadSection(gb, short, k, maxSfb);
      if s == None {
        return false, [];
      }
      FillBands(s.value, bandType, runEnd, idx + k, k + s.value.run);
      FilledMore(b0, r0, bandType[..], runEnd[..], idx, ss, s.value);
      BooksMore(ss, s.value);
      k := k + s.value.run;
      ss := ss + [s.value];
    }
    AllRead(total, ss, gb.data, gb.pos, short, k, maxSfb);
  }

  lemma NothingFilled(bandType: seq<nat>, runEnd: seq<nat>, base: nat)
    requires base <= |bandType| == |runEnd|
    ensures Filled(bandType, runEnd, base, 0, Books([])) && Covered([]) == 0
  {
  }

  lemma AllRead(total: Result<seq<Section>>, read: seq<Section>, data: Bits, pos: nat, short: bool, k: nat, maxSfb: nat)
    requires k >= maxSfb && ReadSoFar(total, read, Until(SectionParser(short, maxSfb), Width(), data, pos, k, maxSfb))
    ensures total == Ok(read, pos)
  {
    assert read + [] == read;
  }

  /** The band types of one section. */
  method FillBands(s: Section, bandType: array<nat>, runEnd: array<nat>, from: nat, sectEnd: nat)
    requires bandType != runEnd && from + s.run <= bandType.Length == runEnd.Length
    modifies bandType, runEnd
    ensures forall a :: 0 <= a < bandType.Length
                        ==> bandType[a] == if from <= a < from + s.run then s.book else old(bandType[a])
    ensures forall a :: 0 <= a < runEnd.Length
                        ==> runEnd[a] == if from <= a < from + s.run then sectEnd else old(runEnd[a])
  {
    for j := 0 to s.run
      invariant forall a :: 0 <= a < bandType.Length
                            ==> bandType[a] == if from <= a < from + j then s.book else old(bandType[a])
      invariant forall a :: 0 <= a < runEnd.Length
                            ==> runEnd[a] == if from <= a < from + j then sectEnd else old(runEnd[a])
    {
      bandType[from + j] := s.book;
      runEnd[from + j] := sectEnd;
    }
  }

  /** The arrays hold the band types and run ends of the groups read so far. */
  ghost predicate GroupsFilled(bandType: seq<nat>, runEnd: seq<nat>, ss: seq<seq<Section>>, maxSfb: nat) {
    forall j :: 0 <= j < |ss| ==> Filled(bandType, runEnd, j * maxSfb, maxSfb, Books(ss[j]))
  }

  lemma FilledKept(b0: seq<nat>, r0: seq<nat>, b1: seq<nat>, r1: seq<nat>, base: nat, n: nat, books: seq<nat>,
                   from: nat, to: nat)
    requires Filled(b0, r0, base, n, books) && base + n <= from
    requires SameOutside(b0, b1, from, to) && SameOutside(r0, r1, from, to)
    ensures Filled(b1, r1, base, n, books)
  {
  }

  lemma ProductStep(g: nat, n: nat)
    ensures (g + 1) * n == g * n + n
  {
  }

  lemma ProductAtMost(g: nat, k: nat, n: nat)
    requires g <= k
    ensures g * n <= k * n
  {
  }

  lemma GroupsFilledMore(b0: seq<nat>, r0: seq<nat>, b1: seq<nat>, r1: seq<nat>, ss: seq<seq<Section>>, s: seq<Section>,
                         maxSfb: nat)
    requires GroupsFilled(b0, r0, ss, maxSfb) && Filled(b1, r1, |ss| * maxSfb, maxSfb, Books(s))
    requires SameOutside(b0, b1, |ss| * maxSfb, |ss| * maxSfb + maxSfb)
        && SameOutside(r0, r1, |ss| * maxSfb, |ss| * maxSfb + maxSfb)
    ensures GroupsFilled(b1, r1, ss + [s], maxSfb)
  {
    hide Filled, SameOutside, Books;
    var all := ss + [s];
    forall j | 0 <= j < |all| ensures Filled(b1, r1, j * maxSfb, maxSfb, Books(all[j])) {
      if j < |ss| {
        assert Filled(b0, r0, j * maxSfb, maxSfb, Books(ss[j]));
        ProductStep(j, maxSfb);
        ProductAtMost(j + 1, |ss|, maxSfb);
        FilledKept(b0, r0, b1, r1, j * maxSfb, maxSfb, Books(ss[j]), |ss| * maxSfb, |ss| * maxSfb + maxSfb);
      }
    }
  }

  /** The sections of g groups, read from a position on. */
  ghost function GroupsRead(data: Bits, pos: nat, ics: Ics, g: nat): Result<seq<seq<Section>>>
    requires g <= |ics.groups|
  {
    Many(GroupParser(IsShort(ics), ics.maxSfb), data, pos, seq(|ics.groups|, _ => ()), g)
  }

  lemma OneGroupRead(data: Bits, pos: nat, ics: Ics, g: nat, ss: seq<seq<Section>>, p: nat)
    requires g < |ics.groups| && GroupsRead(data, pos, ics, g) == Ok(ss, p)
    ensures match DecodeSections(data, p, IsShort(ics), ics.maxSfb)
            case Err => GroupsRead(data, pos, ics, g + 1) == Err
            case Ok(s, p') => GroupsRead(data, pos, ics, g + 1) == Ok(ss + [s], p')
  {
  }

  lemma {:induction false} GroupErrStays(data: Bits, pos: nat, ics: Ics, g: nat, n: nat)
    requires g <= n <= |ics.groups| && GroupsRead(data, pos, ics, g) == Err
    ensures GroupsRead(data, pos, ics, n) == Err
    decreases n
  {
    if g < n {
      GroupErrStays(data, pos, ics, g, n - 1);
    }
  }

  lemma AllGroupsRead(data: Bits, pos: nat, ics: Ics)
    ensures GroupsRead(data, pos, ics, 0) == Ok([], pos)
    ensures ParseBandTypes(data, pos, ics) == GroupsRead(data, pos, ics, |ics.groups|)
  {
  }

  lemma NoGroupsFilled(bandType: seq<nat>, runEnd: seq<nat>, maxSfb: nat)
    ensures GroupsFilled(bandType, runEnd, [], maxSfb)
  {
  }

  /** decode_band_types. */
  method DecodeBandTypes(gb: GetBitContext, ics: Ics, bandType: array<nat>, runEnd: array<nat>)
    returns (ok: bool, ghost ss: seq<seq<Section>>)
    requires bandType != runEnd && bandType.Length == runEnd.Length == BAND_SLOTS
    requires |ics.groups| * ics.maxSfb <= BAND_SLOTS
    modifies gb, bandType, runEnd
    ensures ParseBandTypes(gb.data, old(gb.pos), ics) == if ok then Ok(ss, gb.pos) else Err
    ensures ok ==> |ss| == |ics.groups| && GroupsFilled(bandType[..], runEnd[..], ss, ics.maxSfb)
  {
    hide GroupsRead, DecodeSections, GroupsFilled, Filled, Books, Covered, SameOutside, ParseBandTypes;
    ghost var pos := gb.pos;
    AllGroupsRead(gb.data, pos, ics);
    NoGroupsFilled(bandType[..], runEnd[..], ics.maxSfb);
    var idx := 0;
    ok, ss := true, [];
    for g := 0 to |ics.groups|
      invariant |ss| == g && idx == g * ics.maxSfb
      invariant GroupsRead(gb.data, pos, ics, g) == Ok(ss, gb.pos)
      invariant GroupsFilled(bandType[..], runEnd[..], ss, ics.maxSfb)
    {
      ProductStep(g, ics.maxSfb);
      ProductAtMost(g + 1, |ics.groups|, ics.maxSfb);
      OneGroupRead(gb.data, pos, ics, g, ss, gb.pos);
      ghost var b0, r0 := bandType[..], runEnd[..];
      ghost var s;
      ok, s := ReadGroupSections(gb, IsShort(ics), ics.maxSfb, bandType, runEnd, idx);
      if !ok {
        GroupErrStays(gb.data, pos, ics, g + 1, |ics.groups|);
        return false, [];
      }
      GroupsFilledMore(b0, r0, bandType[..], runEnd[..], ss, s, ics.maxSfb);
      ss := ss + [s];
      idx := idx + ics.maxSfb;
    }
  }

  // ---------- scalefactors ----------

  /** One band's scalefactor. */
  method ReadScale(gb: GetBitContext, words: seq<Bits>, book: nat, st: ScaleState)
    returns (r: Option<Scale>, st': ScaleState)
    modifies gb
    ensures DecodeScale(words, gb.data, old(gb.pos), book, st) == if r.Some? then Ok((r.value, st'), gb.pos) else Err
  {
    hide Lookup, BitIO.GetBits;
    st' := st;
    if book == 0 {
      return Some(NoScale), st;
    }
    if book == 13 && st.noiseFlag > 0 {
      var v := gb.GetBits(9);
      st' := st.(noise := st.noise + v - 256, noiseFlag := st.noiseFlag - 1);
      return Some(Noise(Limit(st'.noise, -100, 155))), st';
    }
    match Lookup(words, gb.data, gb.pos, |words|)
    case Err => return None, st;
    case Ok(v, p) =>
      gb.pos := p;
      var diff := v - SF_ZERO;
      if book >= 14 {
        st' := st.(intensity := st.intensity + diff);
        return Some(Intensity(Limit(st'.intensity, -155, 100))), st';
      }
      if book == 13 {
        st' := st.(noise := st.noise + diff, noiseFlag := st.noiseFlag - 1);
        return Some(Noise(Limit(st'.noise, -100, 155))), st';
      }
      var gain := st.gain + diff;
      if gain < 0 || gain > 255 {
        return None, st;
      }
      return Some(Gain(gain)), st.(gain := gain);
  }

  /** The scalefactors of the first k bands. */
  ghost function ScalesRead(words: seq<Bits>, data: Bits, pos: nat, books: seq<nat>, gain: nat,
                            k: nat): Result<(seq<Scale>, ScaleState)>
    requires k <= |books|
  {
    Thread(ScaleParser(words), data, pos, books, FirstState(gain), k)
  }

  lemma OneScaleRead(words: seq<Bits>, data: Bits, pos: nat, books: seq<nat>, gain: nat, k: nat, vs: seq<Scale>,
                     st: ScaleState, p: nat)
    requires k < |books| && ScalesRead(words, data, pos, books, gain, k) == Ok((vs, st), p)
    ensures match DecodeScale(words, data, p, books[k], st)
            case Err => ScalesRead(words, data, pos, books, gain, k + 1) == Err
            case Ok((v, st'), p') => ScalesRead(words, data, pos, books, gain, k + 1) == Ok((vs + [v], st'), p')
  {
  }

  lemma {:induction false} ScaleErrStays(words: seq<Bits>, data: Bits, pos: nat, books: seq<nat>, gain: nat, k: nat,
                                         n: nat)
    requires k <= n <= |books| && ScalesRead(words, data, pos, books, gain, k) == Err
    ensures ScalesRead(words, data, pos, books, gain, n) == Err
    decreases n
  {
    if k < n {
      ScaleErrStays(words, data, pos, books, gain, k, n - 1);
    }
  }

  lemma {:induction false} DenseIsFilled(bandType: seq<nat>, runEnd: seq<nat>, ss: seq<seq<Section>>, maxSfb: nat,
                                         g: nat)
    requires GroupsFilled(bandType, runEnd, ss, maxSfb) && g <= |ss|
    ensures g * maxSfb <= |bandType| && Dense(GroupBooks(ss), g) == bandType[..g * maxSfb]
  {
    hide Books, Filled;
    if g > 0 {
      DenseIsFilled(bandType, runEnd, ss, maxSfb, g - 1);
      ProductStep(g - 1, maxSfb);
      var base := (g - 1) * maxSfb;
      FilledSlice(bandType, runEnd, base, maxSfb, Books(ss[g - 1]));
    }
  }

  lemma FilledSlice(bandType: seq<nat>, runEnd: seq<nat>, base: nat, n: nat, books: seq<nat>)
    requires Filled(bandType, runEnd, base, n, books)
    ensures base + n <= |bandType| && bandType[..base + n] == bandType[..base] + books
  {
  }

  /** A run of bands with one codebook. */
  method ReadRun(gb: GetBitContext, words: seq<Bits>, book: nat, sf: array<Scale>, from: nat, to: nat, st0: ScaleState,
                 ghost pos: nat, ghost books: seq<nat>, ghost gain: nat) returns (ok: bool, st: ScaleState)
    requires from <= to <= |books| <= sf.Length && forall a :: from <= a < to ==> books[a] == book
    requires ScalesRead(words, gb.data, pos, books, gain, from) == Ok((sf[..from], st0), gb.pos)
    modifies gb, sf
    ensures ok ==> ScalesRead(words, gb.data, pos, books, gain, to) == Ok((sf[..to], st), gb.pos)
    ensures !ok ==> ScalesRead(words, gb.data, pos, books, gain, |books|) == Err
  {
    hide ScalesRead, DecodeScale;
    ok, st := true, st0;
    for k := from to to
      invariant ScalesRead(words, gb.data, pos, books, gain, k) == Ok((sf[..k], st), gb.pos)
    {
      OneScaleRead(words, gb.data, pos, books, gain, k, sf[..k], st, gb.pos);
      var v;
      v, st := ReadScale(gb, words, book, st);
      if v == None {
        ScaleErrStays(words, gb.data, pos, books, gain, k + 1, |books|);
        return false, st;
      }
      ghost var before := sf[..k];
      sf[k] := v.value;
      assert sf[..k + 1] == before + [v.value];
    }
  }

  lemma NoScalesRead(words: seq<Bits>, data: Bits, pos: nat, books: seq<nat>, gain: nat)
    ensures ScalesRead(words, data, pos, books, gain, 0) == Ok(([], FirstState(gain)), pos)
  {
  }

  /** In a filled group, the run at a band ends within the group and has one codebook. */
  lemma RunInGroup(bandType: seq<nat>, runEnd: seq<nat>, ss: seq<seq<Section>>, maxSfb: nat, g: nat, base: nat,
                   i: nat)
    requires GroupsFilled(bandType, runEnd, ss, maxSfb) && g < |ss| && base == g * maxSfb && i < maxSfb
    ensures base + maxSfb <= |bandType| && base + maxSfb <= |runEnd| && i < runEnd[base + i] <= maxSfb
    ensures forall b :: base + i <= b < base + runEnd[base + i] ==> bandType[b] == bandType[base + i]
  {
    hide Books;
    assert Filled(bandType, runEnd, g * maxSfb, maxSfb, Books(ss[g]));
  }

  /** decode_scalefactors, run by run. */
  method DecodeScalefactors(gb: GetBitContext, words: seq<Bits>, sf: array<Scale>, globalGain: nat, maxSfb: nat,
                            numGroups: nat, bandType: array<nat>, runEnd: array<nat>,
                            ghost ss: seq<seq<Section>>) returns (ok: bool)
    requires bandType.Length == runEnd.Length == sf.Length == BAND_SLOTS && |ss| == numGroups
    requires GroupsFilled(bandType[..], runEnd[..], ss, maxSfb)
    modifies gb, sf
    ensures ok ==> |DenseBooks(ss)| <= BAND_SLOTS
    ensures var books := DenseBooks(ss);
      if ok then exists st :: ScalesRead(words, gb.data, old(gb.pos), books, globalGain, |books|)
                              == Ok((sf[..|books|], st), gb.pos)
      else ScalesRead(words, gb.data, old(gb.pos), books, globalGain, |books|) == Err
  {
    hide ScalesRead, GroupsFilled, Dense, GroupBooks;
    ghost var pos := gb.pos;
    ghost var books := Dense(GroupBooks(ss), |ss|);
    DenseIsFilled(bandType[..], runEnd[..], ss, maxSfb, |ss|);
    NoScalesRead(words, gb.data, pos, books, globalGain);
    var st := FirstState(globalGain);
    var idx := 0;
    ok := true;
    for g := 0 to numGroups
      invariant idx == g * maxSfb <= |books|
      invariant ScalesRead(words, gb.data, pos, books, globalGain, idx) == Ok((sf[..idx], st), gb.pos)
    {
      ProductStep(g, maxSfb);
      ProductAtMost(g + 1, numGroups, maxSfb);
      ghost var base := idx;
      var i := 0;
      while i < maxSfb
        invariant i <= maxSfb && idx == base + i
        invariant ScalesRead(words, gb.data, pos, books, globalGain, idx) == Ok((sf[..idx], st), gb.pos)
        decreases maxSfb - i
      {
        RunInGroup(bandType[..], runEnd[..], ss, maxSfb, g, base, i);
        var end := runEnd[idx];
        ok, st := ReadRun(gb, words, bandType[idx], sf, idx, idx + (end - i), st, pos, books, globalGain);
        if !ok {
          return false;
        }
        idx, i := idx + (end - i), end;
      }
    }
  }

  // ---------- spectrum ----------

  /** Values stored from a position on. */
  ghost function Stored(c: seq<int>, start: nat, vals: seq<int>): (r: seq<int>)
    requires start + |vals| <= |c|
    ensures |r| == |c|
  {
    c[..start] + vals + c[start + |vals|..]
  }

  lemma StoredMore(c: seq<int>, start: nat, vals: seq<int>, more: seq<int>, c': seq<int>)
    requires start + |vals| + |more| <= |c| == |c'|
    requires forall a :: 0 <= a < |c| ==>
      c'[a] == if start + |vals| <= a < start + |vals| + |more| then more[a - start - |vals|]
          else Stored(c, start, vals)[a]
    ensures c' == Stored(c, start, vals + more)
  {
  }

  /** The first k vectors of a band. */
  ghost function VectorsRead(book: CodeBook, cb: nat, data: Bits, pos: nat, n: nat, k: nat): Result<seq<seq<int>>>
    requires k <= n
  {
    Many(VectorParser(book, cb), data, pos, seq(n, _ => ()), k)
  }

  lemma OneVectorRead(book: CodeBook, cb: nat, data: Bits, pos: nat, n: nat, k: nat, vs: seq<seq<int>>, p: nat)
    requires k < n && VectorsRead(book, cb, data, pos, n, k) == Ok(vs, p) && Book(cb) && Sized(book, cb)
    ensures match DecodeVector(book, cb, data, p)
            case Err => VectorsRead(book, cb, data, pos, n, k + 1) == Err
            case Ok(v, p') => VectorsRead(book, cb, data, pos, n, k + 1) == Ok(vs + [v], p')
  {
  }

  lemma {:induction false} VectorErrStays(book: CodeBook, cb: nat, data: Bits, pos: nat, n: nat, k: nat, m: nat)
    requires k <= m <= n && VectorsRead(book, cb, data, pos, n, k) == Err
    ensures VectorsRead(book, cb, data, pos, n, m) == Err
    decreases m
  {
    if k < m {
      VectorErrStays(book, cb, data, pos, n, k, m - 1);
    }
  }

  lemma {:induction false} FlattenMore(vs: seq<seq<int>>, v: seq<int>, k: nat)
    requires k <= |vs|
    ensures Flatten(vs + [v], k) == Flatten(vs, k)
  {
    if k > 0 {
      FlattenMore(vs, v, k - 1);
    }
  }

  lemma BandIsVectors(book: CodeBook, cb: nat, data: Bits, pos: nat, len: nat)
    ensures var n := VectorCount(cb, len);
      DecodeBand(book, cb, data, pos, len)
        == match VectorsRead(book, cb, data, pos, n, n) case Err => Err case Ok(vs, p) => Ok(Flatten(vs, n), p)
    ensures VectorsRead(book, cb, data, pos, VectorCount(cb, len), 0) == Ok([], pos)
  {
  }

  lemma OffsetStep(cb: nat, k: nat, len: nat)
    requires len % 4 == 0 && k < VectorCount(cb, len)
    ensures Offset(cb, k + 1) == Offset(cb, k) + Dim(cb) <= len
  {
  }

  /** Stores a vector. */
  method StoreVector(coef: array<int>, at: nat, v: seq<int>)
    requires at + |v| <= coef.Length
    modifies coef
    ensures forall a :: 0 <= a < coef.Length ==> coef[a] == if at <= a < at + |v| then v[a - at] else old(coef[a])
  {
    for j := 0 to |v|
      invariant forall a :: 0 <= a < coef.Length ==> coef[a] == if at <= a < at + j then v[a - at] else old(coef[a])
    {
      coef[at + j] := v[j];
    }
  }

  /** One band of one window, vector by vector. */
  method ReadBand(gb: GetBitContext, book: CodeBook, cb: nat, coef: array<int>, start: nat, len: nat)
    returns (ok: bool, ghost vals: seq<int>)
    requires Book(cb) && Sized(book, cb) && start + len <= coef.Length && len % 4 == 0
    modifies gb, coef
    ensures DecodeBand(book, cb, gb.data, old(gb.pos), len) == if ok then Ok(vals, gb.pos) else Err
    ensures ok ==> |vals| == len && coef[..] == Stored(old(coef[..]), start, vals)
  {
    hide VectorsRead, DecodeVector, DecodeBand, Sized, Stored, Flatten;
    ghost var pos, c0 := gb.pos, coef[..];
    var n := VectorCount(cb, len);
    BandIsVectors(book, cb, gb.data, pos, len);
    ghost var vs: seq<seq<int>> := [];
    vals := [];
    NothingStored(c0, start);
    for k := 0 to n
      invariant VectorsRead(book, cb, gb.data, pos, n, k) == Ok(vs, gb.pos) && |vs| == k
      invariant vals == Flatten(vs, k) && |vals| == Offset(cb, k) <= len
      invariant coef[..] == Stored(c0, start, vals)
    {
      OffsetStep(cb, k, len);
      OneVectorRead(book, cb, gb.data, pos, n, k, vs, gb.pos);
      match DecodeVector(book, cb, gb.data, gb.pos) {
        case Err =>
          VectorErrStays(book, cb, gb.data, pos, n, k + 1, n);
          return false, [];
        case Ok(v, p) =>
          gb.pos := p;
          StoreVector(coef, start + Offset(cb, k), v);
          StoredMore(c0, start, vals, v, coef[..]);
          FlattenLast(vs, v, k);
          vals, vs := vals + v, vs + [v];
      }
    }
    return true, vals;
  }

  lemma FlattenLast(vs: seq<seq<int>>, v: seq<int>, k: nat)
    requires k == |vs|
    ensures Flatten(vs + [v], k + 1) == Flatten(vs, k) + v
  {
    FlattenMore(vs, v, k);
  }

  lemma NothingStored(c: seq<int>, start: nat)
    requires start <= |c|
    ensures Stored(c, start, []) == c && Flatten([], 0) == []
  {
  }

  /** The first k bands of windows. */
  ghost function JobsRead(t: Tables, data: Bits, pos: nat, jobs: seq<Job>, k: nat): Result<seq<Coded>>
    requires |t.books| == 11 && k <= |jobs|
  {
    Many(JobParser(t), data, pos, jobs, k)
  }

  lemma OneJobRead(t: Tables, data: Bits, pos: nat, jobs: seq<Job>, k: nat, cs: seq<Coded>, p: nat)
    requires |t.books| == 11 && k < |jobs| && JobsRead(t, data, pos, jobs, k) == Ok(cs, p)
    ensures match DecodeJob(t, data, p, jobs[k])
            case Err => JobsRead(t, data, pos, jobs, k + 1) == Err
            case Ok(c, p') => JobsRead(t, data, pos, jobs, k + 1) == Ok(cs + [c], p')
  {
  }

  lemma {:induction false} JobErrStays(t: Tables, data: Bits, pos: nat, jobs: seq<Job>, k: nat, n: nat)
    requires |t.books| == 11 && k <= n <= |jobs| && JobsRead(t, data, pos, jobs, k) == Err
    ensures JobsRead(t, data, pos, jobs, n) == Err
    decreases n
  {
    if k < n {
      JobErrStays(t, data, pos, jobs, k, n - 1);
    }
  }

  ghost predicate InArray(cs: seq<Coded>, n: nat) {
    forall i :: 0 <= i < |cs| ==> cs[i].job.start + |cs[i].vals| <= n
  }

  lemma {:induction false} PlaceMore(coefs: seq<int>, cs: seq<Coded>, c: Coded, k: nat)
    requires InArray(cs, |coefs|) && InArray(cs + [c], |coefs|) && k <= |cs|
    ensures Place(coefs, cs + [c], k) == Place(coefs, cs, k)
  {
    if k > 0 {
      PlaceMore(coefs, cs, c, k - 1);
    }
  }

  lemma PlaceLast(coefs: seq<int>, cs: seq<Coded>, c: Coded)
    requires InArray(cs, |coefs|) && c.job.start + |c.vals| <= |coefs|
    ensures InArray(cs + [c], |coefs|)
    ensures Place(coefs, cs + [c], |cs| + 1) == Stored(Place(coefs, cs, |cs|), c.job.start, c.vals)
  {
    hide Place, Stored;
    assert (cs + [c])[|cs|] == c;
    PlaceMore(coefs, cs, c, |cs|);
    PlaceIs(coefs, cs + [c], |cs| + 1);
  }

  lemma PlaceIs(coefs: seq<int>, cs: seq<Coded>, k: nat)
    requires InArray(cs, |coefs|) && 0 < k <= |cs|
    ensures Place(coefs, cs, k) == Stored(Place(coefs, cs, k - 1), cs[k - 1].job.start, cs[k - 1].vals)
  {
  }

  /** What is known while the bands are read: the first k jobs, their values in place. */
  ghost predicate Reading(t: Tables, data: Bits, pos: nat, jobs: seq<Job>, k: nat, c0: seq<int>, cs: seq<Coded>, p: nat,
                          coef: seq<int>) {
    && |t.books| == 11 && k <= |jobs| && JobsRead(t, data, pos, jobs, k) == Ok(cs, p) && |cs| == k
    && InArray(cs, |c0|) && coef == Place(c0, cs, k)
  }

  lemma ReadingMore(t: Tables, data: Bits, pos: nat, jobs: seq<Job>, k: nat, c0: seq<int>, cs: seq<Coded>, p: nat,
                    coef: seq<int>, vals: seq<int>, p': nat, coef': seq<int>)
    requires Reading(t, data, pos, jobs, k, c0, cs, p, coef) && k < |jobs| && |coef| == |c0|
    requires jobs[k].start + |vals| <= |c0| && coef' == Stored(coef, jobs[k].start, vals)
    requires DecodeJob(t, data, p, jobs[k]) == Ok(Coded(jobs[k], vals), p')
    ensures Reading(t, data, pos, jobs, k + 1, c0, cs + [Coded(jobs[k], vals)], p', coef')
  {
    hide JobsRead, DecodeJob, Place;
    OneJobRead(t, data, pos, jobs, k, cs, p);
    PlaceLast(c0, cs, Coded(jobs[k], vals));
  }

  /** The bands of one window of a group: zeros for a band without spectral codebook. */
  method ReadJob(gb: GetBitContext, t: Tables, coef: array<int>, book: nat, start: nat, len: nat, ghost jobs: seq<Job>,
                 ghost pos: nat, ghost k: nat, ghost c0: seq<int>, ghost cs: seq<Coded>)
                   returns (ok: bool, ghost cs': seq<Coded>)
    requires ValidTables(t) && k < |jobs| && jobs[k] == Job(book, start, len)
    requires start + len <= coef.Length == |c0| && len % 4 == 0
    requires Reading(t, gb.data, pos, jobs, k, c0, cs, gb.pos, coef[..])
    modifies gb, coef
    ensures ok ==> Reading(t, gb.data, pos, jobs, k + 1, c0, cs', gb.pos, coef[..])
    ensures !ok ==> |t.books| == 11 && JobsRead(t, gb.data, pos, jobs, |jobs|) == Err
  {
    hide Reading, JobsRead, DecodeBand, Stored, ValidBook;
    ghost var c, p, vals := coef[..], gb.pos, [];
    TablesSized(t, book);
    ReadingSizes(t, gb.data, pos, jobs, k, c0, cs, p, c);
    if IsCoded(book) {
      ok, vals := ReadBand(gb, t.books[book - 1], book, coef, start, len);
      if !ok {
        JobFails(t, gb.data, pos, jobs, k, c0, cs, p, c);
        return false, [];
      }
    } else {
      vals := seq(len, _ => 0);
      ClearBand(coef, start, len);
      ok := true;
    }
    cs' := cs + [Coded(jobs[k], vals)];
    ReadingMore(t, gb.data, pos, jobs, k, c0, cs, p, c, vals, gb.pos, coef[..]);
  }

  lemma TablesSized(t: Tables, book: nat)
    requires ValidTables(t)
    ensures |t.books| == 11 && (IsCoded(book) ==> Book(book) && Sized(t.books[book - 1], book))
  {
  }

  lemma ReadingSizes(t: Tables, data: Bits, pos: nat, jobs: seq<Job>, k: nat, c0: seq<int>, cs: seq<Coded>, p: nat,
                     coef: seq<int>)
    requires Reading(t, data, pos, jobs, k, c0, cs, p, coef)
    ensures |coef| == |c0| && |t.books| == 11 && |cs| == k <= |jobs|
  {
  }

  lemma JobFails(t: Tables, data: Bits, pos: nat, jobs: seq<Job>, k: nat, c0: seq<int>, cs: seq<Coded>, p: nat,
                 coef: seq<int>)
    requires Reading(t, data, pos, jobs, k, c0, cs, p, coef) && k < |jobs| && DecodeJob(t, data, p, jobs[k]) == Err
    ensures JobsRead(t, data, pos, jobs, |jobs|) == Err
  {
    OneJobRead(t, data, pos, jobs, k, cs, p);
    JobErrStays(t, data, pos, jobs, k + 1, |jobs|);
  }

  /** memset of a band. */
  method ClearBand(coef: array<int>, start: nat, len: nat)
    requires start + len <= coef.Length
    modifies coef
    ensures coef[..] == Stored(old(coef[..]), start, seq(len, _ => 0))
  {
    for j := 0 to len
      invariant forall a :: 0 <= a < coef.Length ==> coef[a] == if start <= a < start + j then 0 else old(coef[a])
    {
      coef[start + j] := 0;
    }
  }

  /** One band of a group, in each of its windows. */
  method ReadBandWindows(gb: GetBitContext, t: Tables, coef: array<int>, book: nat, first: nat, gLen: nat, start: nat,
                         len: nat, ghost jobs: seq<Job>, ghost pos: nat, ghost k: nat, ghost c0: seq<int>,
                         ghost cs0: seq<Coded>)
    returns (ok: bool, ghost cs: seq<Coded>)
    requires ValidTables(t) && BandRow(jobs, k, gLen, book, first, start, len) && coef.Length == |c0|
    requires forall m :: 0 <= m < |jobs| ==> jobs[m].start + jobs[m].len <= |c0| && jobs[m].len % 4 == 0
    requires Reading(t, gb.data, pos, jobs, k, c0, cs0, gb.pos, coef[..])
    modifies gb, coef
    ensures ok ==> k + gLen <= |jobs| && Reading(t, gb.data, pos, jobs, k + gLen, c0, cs, gb.pos, coef[..])
    ensures !ok ==> |t.books| == 11 && JobsRead(t, gb.data, pos, jobs, |jobs|) == Err
  {
    hide Reading, JobsRead, ValidTables, BandRow;
    RowInside(jobs, k, gLen, book, first, start, len);
    ok, cs := true, cs0;
    for group := 0 to gLen
      invariant Reading(t, gb.data, pos, jobs, k + group, c0, cs, gb.pos, coef[..])
    {
      RowJob(jobs, k, gLen, book, first, start, len, group);
      assert jobs[k + group].start + jobs[k + group].len <= |c0|;
      ok, cs := ReadJob(gb, t, coef, book, (first + group) * WINDOW + start, len, jobs, pos, k + group, c0, cs);
      if !ok {
        return;
      }
    }
  }

  /** The bands of one window group. */
  method ReadGroup(gb: GetBitContext, t: Tables, coef: array<int>, bandType: array<nat>, idx: nat, offsets: seq<nat>,
                   first: nat, gLen: nat, maxSfb: nat, ghost lay: Layout, ghost books: seq<seq<nat>>, ghost g: nat,
                   ghost pos: nat,
                   ghost c0: seq<int>, ghost cs0: seq<Coded>) returns (ok: bool, ghost cs: seq<Coded>)
    requires ValidTables(t) && ValidLayout(lay) && ValidBooks(lay, books) && g < |lay.groups|
        && coef.Length == |c0| == COEFS
    requires gLen == lay.groups[g] && first == Windows(lay.groups, g) && maxSfb == lay.maxSfb && offsets == lay.offsets
    requires idx + maxSfb <= bandType.Length && forall a :: idx <= a < idx + maxSfb ==> bandType[a] == books[g][a - idx]
    requires Reading(t, gb.data, pos, Jobs(lay, books), JobIndex(lay, books, g, 0), c0, cs0, gb.pos, coef[..])
    modifies gb, coef
    ensures ok ==> Reading(t, gb.data, pos, Jobs(lay, books), JobIndex(lay, books, g, maxSfb), c0, cs, gb.pos, coef[..])
    ensures !ok ==> |t.books| == 11 && JobsRead(t, gb.data, pos, Jobs(lay, books), |Jobs(lay, books)|) == Err
  {
    hide Reading, JobsRead, ValidTables, BandRow, JobIndex, Jobs, Windows;
    JobsFit(lay, books);
    ok, cs := true, cs0;
    for i := 0 to maxSfb
      invariant Reading(t, gb.data, pos, Jobs(lay, books), JobIndex(lay, books, g, i), c0, cs, gb.pos, coef[..])
    {
      BandRowAt(lay, books, g, i);
      assert bandType[idx + i] == books[g][i];
      ok, cs := ReadBandWindows(gb, t, coef, bandType[idx + i], first, gLen, offsets[i], offsets[i + 1] - offsets[i],
                                Jobs(lay, books), pos, JobIndex(lay, books, g, i), c0, cs);
      if !ok {
        return;
      }
    }
  }

  lemma TailOf(short: bool, g: nat, p: nat)
    requires var size := if short then WINDOW else COEFS; g * size <= p < g * size + size
    ensures var size := if short then WINDOW else COEFS; p % size == p - g * size
  {
    if short {
      DivMod(g, WINDOW, p - g * WINDOW);
    } else {
      DivMod(g, COEFS, p - g * COEFS);
    }
  }

  /** The coefficients above the last coded band of every window are cleared. */
  method ClearAllTails(coef: array<int>, short: bool, numWindows: nat, from: nat, ghost lay: Layout)
    requires coef.Length == COEFS && |lay.offsets| == lay.maxSfb + 1 && lay.short == short
    requires from == lay.offsets[lay.maxSfb] <= WindowSize(lay) && numWindows == if short then 8 else 1
    modifies coef
    ensures coef[..] == ClearTails(lay, old(coef[..]))
  {
    var c := if short then WINDOW else COEFS;
    ghost var c0 := coef[..];
    for g := 0 to numWindows
      invariant forall p :: 0 <= p < COEFS ==> coef[p] == if InTail(lay, p) && p < g * c then 0 else c0[p]
    {
      ghost var c1 := coef[..];
      ClearBand(coef, g * WINDOW + from, c - from);
      forall p | 0 <= p < COEFS ensures coef[p] == if InTail(lay, p) && p < (g + 1) * c then 0 else c0[p] {
        StoredAt(c1, g * WINDOW + from, c - from, p);
        if g * c <= p < g * c + c {
          TailOf(short, g, p);
        }
      }
    }
  }

  lemma StoredAt(c: seq<int>, start: nat, len: nat, p: nat)
    requires start + len <= |c| && p < |c|
    ensures Stored(c, start, seq(len, _ => 0))[p] == if start <= p < start + len then 0 else c[p]
  {
  }

  lemma BooksOfFilled(bandType: seq<nat>, runEnd: seq<nat>, ss: seq<seq<Section>>, maxSfb: nat, g: nat)
    requires GroupsFilled(bandType, runEnd, ss, maxSfb) && g < |ss|
    ensures var books := GroupBooks(ss)[g];
      && |books| == maxSfb && g * maxSfb + maxSfb <= |bandType|
      && forall a :: g * maxSfb <= a < g * maxSfb + maxSfb ==> bandType[a] == books[a - g * maxSfb]
  {
    assert Filled(bandType, runEnd, g * maxSfb, maxSfb, Books(ss[g]));
  }

  lemma FilledBooksValid(bandType: seq<nat>, runEnd: seq<nat>, ss: seq<seq<Section>>, lay: Layout)
    requires GroupsFilled(bandType, runEnd, ss, lay.maxSfb) && |ss| == |lay.groups|
    ensures ValidBooks(lay, GroupBooks(ss))
  {
    forall g | 0 <= g < |ss| ensures |GroupBooks(ss)[g]| == lay.maxSfb {
      BooksOfFilled(bandType, runEnd, ss, lay.maxSfb, g);
    }
  }

  /** Before the first band. */
  lemma ReadingStarts(t: Tables, data: Bits, pos: nat, jobs: seq<Job>, c0: seq<int>)
    requires |t.books| == 11
    ensures Reading(t, data, pos, jobs, 0, c0, [], pos, c0)
  {
  }

  lemma SpectrumIs(fmt: Format, data: Bits, pos: nat, ics: Ics, ss: seq<seq<Section>>, coefs: seq<int>)
    requires ValidFormat(fmt) && ValidIcsFor(fmt, ics) && |coefs| == COEFS
        && ValidBooks(LayoutOf(fmt, ics), GroupBooks(ss))
    ensures |fmt.tables.books| == 11
    ensures var lay := LayoutOf(fmt, ics); var jobs := Jobs(lay, GroupBooks(ss));
      match JobsRead(fmt.tables, data, pos, jobs, |jobs|)
      case Err => ParseSpectrum(fmt, data, pos, ics, ss, coefs) == Err
      case Ok(cs, p) =>
        InArray(cs, COEFS) && ParseSpectrum(fmt, data, pos, ics, ss, coefs)
            == Ok(Place(ClearTails(lay, coefs), cs, |cs|), p)
  {
    hide Jobs, ValidBook, GroupBooks, ClearTails, Place, DecodeJob;
    var lay := LayoutOf(fmt, ics);
    var jobs := Jobs(lay, GroupBooks(ss));
    JobsFit(lay, GroupBooks(ss));
    DecodedJobsFit(fmt.tables, data, pos, jobs);
    var r := JobsRead(fmt.tables, data, pos, jobs, |jobs|);
    if r.Ok? {
      forall i | 0 <= i < |r.value| ensures r.value[i].job.start + |r.value[i].vals| <= COEFS {
        assert jobs[i].start + jobs[i].len <= COEFS;
      }
    }
  }

  /** decode_spectrum_and_dequant, its integer part. */
  method DecodeSpectrum(gb: GetBitContext, fmt: Format, ics: Ics, offsets: seq<nat>, bandType: array<nat>,
                        runEnd: array<nat>, coef: array<int>, ghost ss: seq<seq<Section>>) returns (ok: bool)
    requires ValidFormat(fmt) && ValidIcsFor(fmt, ics) && coef.Length == COEFS && offsets == Offsets(fmt, ics)
    requires GroupsFilled(bandType[..], runEnd[..], ss, ics.maxSfb) && |ss| == |ics.groups|
    modifies gb, coef
    ensures ValidBooks(LayoutOf(fmt, ics), GroupBooks(ss))
    ensures ParseSpectrum(fmt, gb.data, old(gb.pos), ics, ss, old(coef[..])) == if ok then Ok(coef[..], gb.pos) else Err
  {
    hide *;
    SpectrumParts(fmt, ics);
    ghost var lay := LayoutOf(fmt, ics);
    ghost var books, pos, coefs := GroupBooks(ss), gb.pos, coef[..];
    FilledBooksValid(bandType[..], runEnd[..], ss, lay);
    SpectrumIs(fmt, gb.data, pos, ics, ss, coefs);
    ghost var jobs := Jobs(lay, books);
    var inner := offsets[..ics.maxSfb + 1];
    ClearAllTails(coef, IsShort(ics), if IsShort(ics) then 8 else 1, inner[ics.maxSfb], lay);
    ghost var c0, cs := coef[..], [];
    ReadingStarts(fmt.tables, gb.data, pos, jobs, c0);
    NoJobs(lay, books);
    var idx, first := 0, 0;
    ok := true;
    FirstWindow(lay.groups);
    for g := 0 to |ics.groups|
      invariant idx == g * ics.maxSfb && first == Windows(lay.groups, g)
      invariant Reading(fmt.tables, gb.data, pos, jobs, |GroupJobs(lay, books, g)|, c0, cs, gb.pos, coef[..])
    {
      GroupEdges(lay, books, g);
      BooksOfFilled(bandType[..], runEnd[..], ss, ics.maxSfb, g);
      ok, cs := ReadGroup(gb, fmt.tables, coef, bandType, idx, inner, first, ics.groups[g], ics.maxSfb, lay, books, g,
                          pos, c0, cs);
      if !ok {
        return false;
      }
      ProductStep(g, ics.maxSfb);
      WindowsStep(lay.groups, g);
      idx, first := idx + ics.maxSfb, first + ics.groups[g];
    }
    ReadingEnds(fmt.tables, gb.data, pos, lay, books, c0, cs, gb.pos, coef[..]);
  }

  lemma SpectrumParts(fmt: Format, ics: Ics)
    requires ValidFormat(fmt) && ValidIcsFor(fmt, ics)
    ensures var lay := LayoutOf(fmt, ics);
      && ValidLayout(lay) && ValidTables(fmt.tables) && ics.maxSfb < |Offsets(fmt, ics)|
      && lay.groups == ics.groups && lay.maxSfb == ics.maxSfb && lay.short == IsShort(ics)
      && lay.offsets == Offsets(fmt, ics)[..ics.maxSfb + 1] && |lay.offsets| == lay.maxSfb + 1
      && lay.offsets[lay.maxSfb] <= WindowSize(lay)
  {
  }

  lemma FirstWindow(groups: seq<nat>)
    ensures Windows(groups, 0) == 0
  {
  }

  lemma WindowsStep(groups: seq<nat>, g: nat)
    requires g < |groups|
    ensures Windows(groups, g + 1) == Windows(groups, g) + groups[g]
  {
  }

  lemma ReadingEnds(t: Tables, data: Bits, pos: nat, lay: Layout, books: seq<seq<nat>>, c0: seq<int>, cs: seq<Coded>,
                    p: nat, coef: seq<int>)
    requires ValidLayout(lay) && ValidBooks(lay, books)
    requires Reading(t, data, pos, Jobs(lay, books), |GroupJobs(lay, books, |lay.groups|)|, c0, cs, p, coef)
    ensures |t.books| == 11 && JobsRead(t, data, pos, Jobs(lay, books), |Jobs(lay, books)|) == Ok(cs, p)
    ensures InArray(cs, |c0|) && coef == Place(c0, cs, |cs|)
  {
  }

  // ---------- the channel ----------

  /** Every window group is at least one window. */
  lemma {:induction false} GroupsAtMostWindows(groups: seq<nat>, g: nat)
    requires g <= |groups| && forall k :: 0 <= k < |groups| ==> groups[k] > 0
    ensures g <= Windows(groups, g)
  {
    if g > 0 {
      GroupsAtMostWindows(groups, g - 1);
    }
  }

  /** No sampling rate has more bands than the arrays have room for: 15 in each of eight short
      windows, 120 in a long one. */
  predicate RoomFor(fmt: Format) {
    |fmt.shortOffsets| <= 16 && |fmt.longOffsets| <= BAND_SLOTS + 1
  }

  lemma BandsFit(fmt: Format, ics: Ics)
    requires ValidIcsFor(fmt, ics) && RoomFor(fmt)
    ensures |ics.groups| * ics.maxSfb <= BAND_SLOTS
  {
    GroupsAtMostWindows(ics.groups, |ics.groups|);
    ProductAtMost(|ics.groups|, if IsShort(ics) then 8 else 1, ics.maxSfb);
  }

  lemma ScalesAre(fmt: Format, data: Bits, pos: nat, gain: nat, ss: seq<seq<Section>>)
    ensures var books := DenseBooks(ss);
      ParseScales(fmt, data, pos, gain, ss)
        == match ScalesRead(fmt.tables.scale, data, pos, books, gain, |books|)
           case Err => Err
           case Ok(scales, p) => Ok(scales.0, p)
  {
  }

  /** A channel that is accepted is put together from its parts. */
  lemma Accepted(fmt: Format, data: Bits, pos: nat, shared: Option<Ics>, strict: bool, coefs: seq<int>, d: Decoded,
                 p1: nat, p2: nat, p3: nat, spectrum: Result<seq<int>>)
    requires ValidFormat(fmt) && (shared.Some? ==> ValidIcsFor(fmt, shared.value)) && |coefs| == COEFS
    requires ParseWindow(fmt, data, pos + 8, shared, strict) == Ok(d.ics, p1)
    requires ParseBandTypes(data, p1, d.ics) == Ok(d.sections, p2)
    requires ParseScales(fmt, data, p2, BitIO.GetBits(data, pos, 8), d.sections) == Ok(d.scales, p3)
    requires !BitAt(data, p3) && !BitAt(data, p3 + 1) && !BitAt(data, p3 + 2)
    requires ValidIcsFor(fmt, d.ics) && ValidBooks(LayoutOf(fmt, d.ics), GroupBooks(d.sections))
    requires ParseSpectrum(fmt, data, p3 + 3, d.ics, d.sections, coefs) == spectrum
    ensures ParseChannel(fmt, data, pos, shared, strict, coefs)
         == match spectrum case Err => Err case Ok(r, p4) => Ok(d.(coefs := r), p4)
  {
    hide ValidFormat, ValidIcsFor, ValidBooks, ParseWindow, ParseBandTypes, ParseScales, ParseSpectrum, BitIO.GetBits,
      BitAt;
  }

  /** A channel is refused as soon as one of its parts is. */
  lemma Refused(fmt: Format, data: Bits, pos: nat, shared: Option<Ics>, strict: bool, coefs: seq<int>)
    requires ValidFormat(fmt) && (shared.Some? ==> ValidIcsFor(fmt, shared.value)) && |coefs| == COEFS
    ensures var gain, window := BitIO.GetBits(data, pos, 8), ParseWindow(fmt, data, pos + 8, shared, strict);
      var r := ParseChannel(fmt, data, pos, shared, strict, coefs);
      match window
      case Err => r == Err
      case Ok(ics, p1) =>
        match ParseBandTypes(data, p1, ics)
        case Err => r == Err
        case Ok(ss, p2) =>
          match ParseScales(fmt, data, p2, gain, ss)
          case Err => r == Err
          case Ok(_, p3) => BitAt(data, p3) || BitAt(data, p3 + 1) || BitAt(data, p3 + 2) ==> r == Err
  {
    hide ValidFormat, ValidIcsFor, ValidBooks, ParseWindow, ParseBandTypes, ParseScales, ParseSpectrum, BitIO.GetBits,
      BitAt;
  }

  /** The decoder's element: band types and run ends, scalefactors and coefficients. */
  class SingleChannelElement {
    const bandType: array<nat>
    const bandTypeRunEnd: array<nat>
    const sf: array<Scale>
    const coeffs: array<int>

    constructor ()
      ensures fresh(bandType) && fresh(bandTypeRunEnd) && fresh(sf) && fresh(coeffs) && Sized()
    {
      bandType := new nat[BAND_SLOTS](_ => 0);
      bandTypeRunEnd := new nat[BAND_SLOTS](_ => 0);
      sf := new Scale[BAND_SLOTS](_ => NoScale);
      coeffs := new int[COEFS](_ => 0);
    }

    ghost predicate Sized() {
      && bandType != bandTypeRunEnd && bandType.Length == bandTypeRunEnd.Length == sf.Length == BAND_SLOTS
      && coeffs.Length == COEFS
    }

    /** The window information: shared by a channel pair, or read. */
    method ReadWindow(gb: GetBitContext, fmt: Format, shared: Option<Ics>, strict: bool) returns (r: Option<Ics>)
      requires ValidFormat(fmt) && (shared.Some? ==> ValidIcsFor(fmt, shared.value))
      modifies gb
      ensures ParseWindow(fmt, gb.data, old(gb.pos), shared, strict) == if r.Some? then Ok(r.value, gb.pos) else Err
    {
      hide ParseIcsInfo;
      if shared.Some? {
        return shared;
      }
      r := DecodeIcsInfo(gb, strict, |fmt.shortOffsets| - 1, |fmt.longOffsets| - 1);
    }

    /** decode_ics: global gain, window information, band types, scalefactors, no pulse data, no
        TNS, no gain control, spectrum. */
    method DecodeIcs(gb: GetBitContext, fmt: Format, shared: Option<Ics>, strict: bool)
      returns (r: Option<Ics>, ghost sections: seq<seq<Section>>)
      requires Sized() && ValidFormat(fmt) && RoomFor(fmt) && (shared.Some? ==> ValidIcsFor(fmt, shared.value))
      modifies gb, bandType, bandTypeRunEnd, sf, coeffs
      ensures r.Some? ==> |DenseBooks(sections)| <= BAND_SLOTS
      ensures ParseChannel(fmt, gb.data, old(gb.pos), shared, strict, old(coeffs[..]))
           == if r.Some? then Ok(Decoded(r.value, sections, sf[..|DenseBooks(sections)|], coeffs[..]), gb.pos) else Err
    {
      hide ValidFormat, ValidIcsFor, ParseChannel, ParseWindow, ParseBandTypes, ParseScales, ScalesRead, GroupsFilled,
        ParseSpectrum, DenseBooks, GroupBooks, LayoutOf, BitIO.GetBits, BitAt;
      ghost var pos, coefs := gb.pos, coeffs[..];
      sections := [];
      Refused(fmt, gb.data, pos, shared, strict, coefs);
      var globalGain := gb.GetBits(8);
      r := ReadWindow(gb, fmt, shared, strict);
      if r.None? {
        return;
      }
      BandsFit(fmt, r.value);
      ghost var p1 := gb.pos;
      var ok;
      ok, sections := DecodeBandTypes(gb, r.value, bandType, bandTypeRunEnd);
      if !ok {
        return None, [];
      }
      ghost var p2 := gb.pos;
      ScalesAre(fmt, gb.data, p2, globalGain, sections);
      ok := DecodeScalefactors(gb, fmt.tables.scale, sf, globalGain, r.value.maxSfb, |r.value.groups|, bandType,
                               bandTypeRunEnd, sections);
      if !ok {
        return None, [];
      }
      ghost var p3 := gb.pos;
      ghost var scales := sf[..|DenseBooks(sections)|];
      var pulsePresent := gb.GetBit();
      var tnsPresent := gb.GetBit();
      var gainControl := gb.GetBit();
      if pulsePresent || tnsPresent || gainControl {
        return None, [];
      }
      ok := DecodeSpectrum(gb, fmt, r.value, Offsets(fmt, r.value), bandType, bandTypeRunEnd, coeffs, sections);
      Accepted(fmt, gb.data, pos, shared, strict, coefs, Decoded(r.value, sections, scales, coeffs[..]), p1, p2, p3,
               if ok then Ok(coeffs[..], gb.pos) else Err);
      if !ok {
        return None, [];
      }
    }
  }
}
