/** One whole AAC channel stream, written by encode_individual_channel (libavcodec/aacenc.c)
    and read by decode_ics (libavcodec/aacdec.c) for the AAC-LC object type. */
module AacStream {
  import opened Wrappers
  import opened Sums
  import opened BitIO
  import opened CodeLists
  import opened AacSections
  import opened AacSpectral
  import opened AacSpectrum
  import opened AacChannel

  const EIGHT_SHORT: nat := 2

  // ---------- individual channel stream information ----------

  datatype Ics = Ics(windowSequence: nat, kbWindow: bool, maxSfb: nat, groups: seq<nat>)

  predicate IsShort(ics: Ics) {
    ics.windowSequence == EIGHT_SHORT
  }

  /** The encoder's group_len array: the length at the first window of a group, 0 elsewhere. */
  function GroupLen(groups: seq<nat>, g: nat): seq<nat>
    requires g <= |groups| && forall k :: 0 <= k < |groups| ==> groups[k] > 0
  {
    if g == 0 then [] else GroupLen(groups, g - 1) + [groups[g - 1]] + seq(groups[g - 1] - 1, _ => 0)
  }

  /** for (w = 1; w < 8; w++) put_bits(!group_len[w]). */
  function GroupFlags(groupLen: seq<nat>): (b: Bits)
    ensures |groupLen| > 0 ==> |b| == |groupLen| - 1
  {
    if |groupLen| == 0 then [] else seq(|groupLen| - 1, w requires 0 <= w < |groupLen| - 1 => groupLen[w + 1] == 0)
  }

  /** The decoder's grouping loop over the first n flags. */
  function ReadGroups(flags: Bits, n: nat): (groups: seq<nat>)
    requires n <= |flags|
    ensures |groups| > 0
  {
    if n == 0 then [1]
    else
      var groups := ReadGroups(flags, n - 1);
      if flags[n - 1] then groups[|groups| - 1 := groups[|groups| - 1] + 1] else groups + [1]
  }

  lemma {:induction false} GroupLenSize(groups: seq<nat>, g: nat)
    requires g <= |groups| && forall k :: 0 <= k < |groups| ==> groups[k] > 0
    ensures |GroupLen(groups, g)| == Windows(groups, g)
  {
    if g > 0 {
      GroupLenSize(groups, g - 1);
    }
  }

  lemma {:induction false} GroupLenAt(groups: seq<nat>, n: nat, g: nat, t: nat)
    requires g < n <= |groups| && (forall k :: 0 <= k < |groups| ==> groups[k] > 0) && t < groups[g]
    ensures Windows(groups, g) + t < |GroupLen(groups, n)|
    ensures GroupLen(groups, n)[Windows(groups, g) + t] == if t == 0 then groups[g] else 0
  {
    GroupLenSize(groups, n - 1);
    if g < n - 1 {
      GroupLenAt(groups, n - 1, g, t);
    }
  }

  /** After the flags up to window t of group g, the groups read are the first g and t + 1. */
  lemma {:induction false} GroupsReadBack(groups: seq<nat>, g: nat, t: nat)
    requires g < |groups| && (forall k :: 0 <= k < |groups| ==> groups[k] > 0) && t < groups[g]
    requires Windows(groups, g) + t < |GroupLen(groups, |groups|)|
    ensures var flags := GroupFlags(GroupLen(groups, |groups|));
      ReadGroups(flags, Windows(groups, g) + t) == groups[..g] + [t + 1]
    decreases g, t
  {
    var flags := GroupFlags(GroupLen(groups, |groups|));
    GroupLenAt(groups, |groups|, g, t);
    if t > 0 {
      GroupsReadBack(groups, g, t - 1);
    } else if g > 0 {
      GroupLenAt(groups, |groups|, g - 1, groups[g - 1] - 1);
      GroupsReadBack(groups, g - 1, groups[g - 1] - 1);
      assert groups[..g] == groups[..g - 1] + [groups[g - 1]];
    }
  }

  /** The grouping flags give back the window groups. */
  lemma GroupingRoundTrip(groups: seq<nat>)
    requires |groups| > 0 && (forall k :: 0 <= k < |groups| ==> groups[k] > 0)
    ensures var flags := GroupFlags(GroupLen(groups, |groups|));
      |flags| == Windows(groups, |groups|) - 1 && ReadGroups(flags, |flags|) == groups
  {
    var g := |groups| - 1;
    GroupLenSize(groups, |groups|);
    GroupLenAt(groups, |groups|, g, groups[g] - 1);
    GroupsReadBack(groups, g, groups[g] - 1);
    assert groups == groups[..g] + [groups[g]];
  }

  ghost predicate ValidIcs(ics: Ics) {
    && ics.windowSequence < 4
    && |ics.groups| > 0 && (forall k :: 0 <= k < |ics.groups| ==> ics.groups[k] > 0)
    && (if IsShort(ics) then ics.maxSfb < 16 && Windows(ics.groups, |ics.groups|) == 8
        else ics.maxSfb < 64 && ics.groups == [1])
  }

  /** put_ics_info: reserved bit, window sequence and shape, then bands and grouping. */
  function IcsParts(ics: Ics): (parts: seq<Bits>)
    requires forall k :: 0 <= k < |ics.groups| ==> ics.groups[k] > 0
    ensures |parts| == 5
  {
    [[false], ToBits(2, ics.windowSequence), [ics.kbWindow],
     ToBits(if IsShort(ics) then 4 else 6, ics.maxSfb),
     if IsShort(ics) then GroupFlags(GroupLen(ics.groups, |ics.groups|)) else [false]]
  }

  function IcsCode(ics: Ics): Bits
    requires forall k :: 0 <= k < |ics.groups| ==> ics.groups[k] > 0
  {
    Join(IcsParts(ics), 5)
  }

  /** decode_ics_info: the reserved bit is an error only for a strict decoder; prediction is
      not allowed in AAC-LC; no more bands than the sampling rate has. */
  function ParseIcsInfo(data: Bits, pos: nat, strict: bool, numSwbShort: nat, numSwbLong: nat): Result<Ics> {
    if BitAt(data, pos) && strict then Err
    else
      var ws := GetBits(data, pos + 1, 2);
      var kb := BitAt(data, pos + 3);
      if ws == EIGHT_SHORT then
        var maxSfb := GetBits(data, pos + 4, 4);
        if maxSfb > numSwbShort then Err
        else Ok(Ics(ws, kb, maxSfb, ReadGroups(Window(data, pos + 8, 7), 7)), pos + 15)
      else
        var maxSfb := GetBits(data, pos + 4, 6);
        if BitAt(data, pos + 10) || maxSfb > numSwbLong then Err
        else Ok(Ics(ws, kb, maxSfb, [1]), pos + 11)
  }

  lemma WindowIs(data: Bits, pos: nat, code: Bits)
    requires StartsAt(data, pos, code)
    ensures Window(data, pos, |code|) == code
  {
    forall i | 0 <= i < |code| ensures Window(data, pos, |code|)[i] == code[i] {
      StartsAtBit(data, pos, code, i);
    }
  }

  lemma JoinStep(parts: seq<Bits>, k: nat)
    requires k < |parts|
    ensures |Join(parts, k + 1)| == |Join(parts, k)| + |parts[k]| && (k == 0 ==> |Join(parts, k)| == 0)
  {
  }

  /** Five parts in a row start where the ones before them end. */
  lemma FiveParts(parts: seq<Bits>, data: Bits, pos: nat)
    requires |parts| == 5 && StartsAt(data, pos, Join(parts, 5))
    ensures var p1 := pos + |parts[0]|; var p2 := p1 + |parts[1]|; var p3 := p2 + |parts[2]|;
      && StartsAt(data, pos, parts[0]) && StartsAt(data, p1, parts[1]) && StartsAt(data, p2, parts[2])
      && StartsAt(data, p3, parts[3]) && StartsAt(data, p3 + |parts[3]|, parts[4])
    ensures |Join(parts, 5)| == |parts[0]| + |parts[1]| + |parts[2]| + |parts[3]| + |parts[4]|
  {
    hide *;
    JoinStep(parts, 0);
    JoinStep(parts, 1);
    JoinStep(parts, 2);
    JoinStep(parts, 3);
    JoinStep(parts, 4);
    JoinPart(parts, data, pos, 5, 0);
    JoinPart(parts, data, pos, 5, 1);
    JoinPart(parts, data, pos, 5, 2);
    JoinPart(parts, data, pos, 5, 3);
    JoinPart(parts, data, pos, 5, 4);
  }

  lemma IcsPartsAt(data: Bits, pos: nat, ics: Ics)
    requires ValidIcs(ics) && StartsAt(data, pos, IcsCode(ics))
    ensures !BitAt(data, pos) && GetBits(data, pos + 1, 2) == ics.windowSequence && BitAt(data, pos + 3) == ics.kbWindow
    ensures var n := if IsShort(ics) then 4 else 6;
      GetBits(data, pos + 4, n) == ics.maxSfb && StartsAt(data, pos + 4 + n, IcsParts(ics)[4])
    ensures |IcsCode(ics)| == if IsShort(ics) then 15 else 11
  {
    var parts := IcsParts(ics);
    FieldsFit();
    GroupingRoundTrip(ics.groups);
    FiveParts(parts, data, pos);
    hide StartsAt, ToBits, GetBits, Join, GroupFlags, GroupLen;
    var n := if IsShort(ics) then 4 else 6;
    StartsAtBit(data, pos, parts[0], 0);
    ReadField(data, pos + 1, 2, ics.windowSequence);
    StartsAtBit(data, pos + 3, parts[2], 0);
    ReadField(data, pos + 4, n, ics.maxSfb);
  }

  /** Window sequence, shape, bands and grouping read back. */
  lemma IcsRoundTrip(data: Bits, pos: nat, strict: bool, numSwbShort: nat, numSwbLong: nat, ics: Ics)
    requires ValidIcs(ics) && ics.maxSfb <= (if IsShort(ics) then numSwbShort else numSwbLong)
    requires StartsAt(data, pos, IcsCode(ics))
    ensures ParseIcsInfo(data, pos, strict, numSwbShort, numSwbLong) == Ok(ics, pos + |IcsCode(ics)|)
  {
    IcsPartsAt(data, pos, ics);
    if IsShort(ics) {
      GroupingRoundTrip(ics.groups);
      WindowIs(data, pos + 8, GroupFlags(GroupLen(ics.groups, |ics.groups|)));
    } else {
      StartsAtBit(data, pos + 10, IcsParts(ics)[4], 0);
    }
  }

  /** The same fields with the reserved bit and, for long windows, the prediction bit as given. */
  function IcsFields(ics: Ics, reserved: bool, prediction: bool): (parts: seq<Bits>)
    requires forall k :: 0 <= k < |ics.groups| ==> ics.groups[k] > 0
    ensures |parts| == 5
  {
    [[reserved], ToBits(2, ics.windowSequence), [ics.kbWindow],
     ToBits(if IsShort(ics) then 4 else 6, ics.maxSfb),
     if IsShort(ics) then GroupFlags(GroupLen(ics.groups, |ics.groups|)) else [prediction]]
  }

  lemma FieldsAt(data: Bits, pos: nat, ics: Ics, reserved: bool, prediction: bool)
    requires ValidIcs(ics) && StartsAt(data, pos, Join(IcsFields(ics, reserved, prediction), 5))
    ensures BitAt(data, pos) == reserved && GetBits(data, pos + 1, 2) == ics.windowSequence
    ensures BitAt(data, pos + 3) == ics.kbWindow
    ensures var n := if IsShort(ics) then 4 else 6;
      GetBits(data, pos + 4, n) == ics.maxSfb && StartsAt(data, pos + 4 + n, IcsFields(ics, reserved, prediction)[4])
  {
    var parts := IcsFields(ics, reserved, prediction);
    FieldsFit();
    GroupingRoundTrip(ics.groups);
    FiveParts(parts, data, pos);
    hide StartsAt, ToBits, GetBits, Join, GroupFlags, GroupLen;
    var n := if IsShort(ics) then 4 else 6;
    StartsAtBit(data, pos, parts[0], 0);
    ReadField(data, pos + 1, 2, ics.windowSequence);
    StartsAtBit(data, pos + 3, parts[2], 0);
    ReadField(data, pos + 4, n, ics.maxSfb);
  }

  /** Window information is refused exactly when the reserved bit is set for a strict decoder, a long
      window asks for prediction, or there are more bands than the sampling rate has. */
  lemma RefusedIcs(data: Bits, pos: nat, strict: bool, numSwbShort: nat, numSwbLong: nat, ics: Ics, reserved: bool,
                   prediction: bool)
    requires ValidIcs(ics) && StartsAt(data, pos, Join(IcsFields(ics, reserved, prediction), 5))
    ensures ParseIcsInfo(data, pos, strict, numSwbShort, numSwbLong)
         == if (reserved && strict) || (!IsShort(ics) && prediction)
                || ics.maxSfb > (if IsShort(ics) then numSwbShort else numSwbLong) then Err
            else Ok(ics, pos + if IsShort(ics) then 15 else 11)
  {
    FieldsAt(data, pos, ics, reserved, prediction);
    GroupingRoundTrip(ics.groups);
    hide ToBits, GetBits, Join, GroupFlags, GroupLen, ReadGroups;
    if IsShort(ics) {
      WindowIs(data, pos + 8, GroupFlags(GroupLen(ics.groups, |ics.groups|)));
    } else {
      StartsAtBit(data, pos + 10, IcsFields(ics, reserved, prediction)[4], 0);
    }
  }

  // ---------- the channel ----------

  /** What a channel stream transmits: grouping, global gain, sections of every group, one
      scalefactor a band (group-major), and the quantised spectrum. */
  datatype Channel = Channel(ics: Ics, gain: nat, sections: seq<seq<Section>>, sf: seq<int>, q: seq<int>)

  /** Code tables and band offsets of the sampling rate, for short and for long windows. */
  datatype Format = Format(tables: Tables, shortOffsets: seq<nat>, longOffsets: seq<nat>)

  function Offsets(fmt: Format, ics: Ics): seq<nat> {
    if IsShort(ics) then fmt.shortOffsets else fmt.longOffsets
  }

  ghost predicate ValidFormat(fmt: Format) {
    ValidTables(fmt.tables) && ValidOffsets(fmt.shortOffsets, WINDOW) && ValidOffsets(fmt.longOffsets, COEFS)
  }

  ghost predicate ValidIcsFor(fmt: Format, ics: Ics) {
    && ics.maxSfb < |Offsets(fmt, ics)|
    && (forall k :: 0 <= k < |ics.groups| ==> ics.groups[k] > 0)
    && Windows(ics.groups, |ics.groups|) == if IsShort(ics) then 8 else 1
  }

  ghost function LayoutOf(fmt: Format, ics: Ics): (lay: Layout)
    requires ValidFormat(fmt) && ValidIcsFor(fmt, ics)
    ensures ValidLayout(lay)
  {
    Layout(IsShort(ics), ics.groups, ics.maxSfb, Offsets(fmt, ics)[..ics.maxSfb + 1])
  }

  /** The codebook of every band, group by group. */
  function GroupBooks(sections: seq<seq<Section>>): (books: seq<seq<nat>>)
    ensures |books| == |sections| && forall g :: 0 <= g < |sections| ==> books[g] == Books(sections[g])
  {
    seq(|sections|, g requires 0 <= g < |sections| => Books(sections[g]))
  }

  /** The same, as one group-major list. */
  function Dense(books: seq<seq<nat>>, g: nat): seq<nat>
    requires g <= |books|
  {
    if g == 0 then [] else Dense(books, g - 1) + books[g - 1]
  }

  function DenseBooks(sections: seq<seq<Section>>): seq<nat> {
    Dense(GroupBooks(sections), |sections|)
  }

  ghost predicate ValidChannel(fmt: Format, ch: Channel) {
    && ValidFormat(fmt) && ValidIcs(ch.ics) && ch.gain < 256 && ValidIcsFor(fmt, ch.ics)
    && |ch.sections| == |ch.ics.groups|
    && (forall g :: 0 <= g < |ch.sections| ==> Sectioning(ch.sections[g], ch.ics.maxSfb))
    && CodableScales(ch.gain, DenseBooks(ch.sections), ch.sf)
    && |ch.q| == COEFS
    && ValidBooks(LayoutOf(fmt, ch.ics), GroupBooks(ch.sections))
    && Transmits(Jobs(LayoutOf(fmt, ch.ics), GroupBooks(ch.sections)), ch.q)
    && (forall p :: 0 <= p < COEFS && InTail(LayoutOf(fmt, ch.ics), p) ==> ch.q[p] == 0)
  }

  /** The section data of all groups. */
  function SectionData(short: bool): seq<Section> -> Bits {
    (ss: seq<Section>) => SectionsCode(short, ss)
  }

  function GroupParser(short: bool, maxSfb: nat): (Bits, nat, ()) -> Result<seq<Section>> {
    (data: Bits, pos: nat, kind: ()) => DecodeSections(data, pos, short, maxSfb)
  }

  lemma OneGroupReadsBack(short: bool, maxSfb: nat, ss: seq<Section>, data: Bits)
    requires Sectioning(ss, maxSfb)
    ensures ReadsBack(GroupParser(short, maxSfb), SectionData(short), data, (), ss)
  {
    forall p: nat | StartsAt(data, p, SectionData(short)(ss))
      ensures GroupParser(short, maxSfb)(data, p, ()) == Ok(ss, p + |SectionData(short)(ss)|)
    {
      SectionsReadBack(data, p, short, ss, maxSfb);
    }
  }

  /** Window information a channel pair shares is not repeated in the channel. */
  function Shared(common: bool, ics: Ics): Option<Ics> {
    if common then Some(ics) else None
  }

  function WindowCode(common: bool, ics: Ics): Bits
    requires forall k :: 0 <= k < |ics.groups| ==> ics.groups[k] > 0
  {
    if common then [] else IcsCode(ics)
  }

  function SectionBits(ch: Channel): Bits {
    Cat(SectionData(IsShort(ch.ics)), ch.sections, |ch.sections|)
  }

  ghost function ScaleBits(fmt: Format, ch: Channel): Bits
    requires ValidChannel(fmt, ch)
  {
    Join(ScaleCodes(fmt.tables.scale, ch.gain, DenseBooks(ch.sections), ch.sf), |ch.sf|)
  }

  ghost function SpectrumBits(fmt: Format, ch: Channel): Bits
    requires ValidChannel(fmt, ch)
  {
    JobsFit(LayoutOf(fmt, ch.ics), GroupBooks(ch.sections));
    SpectrumCode(fmt.tables, Jobs(LayoutOf(fmt, ch.ics), GroupBooks(ch.sections)), ch.q)
  }

  /** The scalefactors a decoder recovers. */
  function ScalesOf(ch: Channel): seq<Scale>
    requires |ch.sf| == |DenseBooks(ch.sections)|
  {
    ScaleValues(DenseBooks(ch.sections), ch.sf)
  }

  /** The bits of one channel: global gain, window information unless it is shared, sections,
      scalefactors, then no pulse data, no TNS, no gain control, and the spectrum. */
  ghost function ChannelCode(fmt: Format, ch: Channel, common: bool): Bits
    requires ValidChannel(fmt, ch)
  {
    ToBits(8, ch.gain) + (WindowCode(common, ch.ics) + (SectionBits(ch) + (ScaleBits(fmt, ch)
      + ([false, false, false] + SpectrumBits(fmt, ch)))))
  }

  // ---------- the decoder ----------

  datatype Decoded = Decoded(ics: Ics, sections: seq<seq<Section>>, scales: seq<Scale>, coefs: seq<int>)

  lemma {:induction false} ReadGroupsCover(flags: Bits, n: nat)
    requires n <= |flags|
    ensures var groups := ReadGroups(flags, n);
      Windows(groups, |groups|) == n + 1 && forall k :: 0 <= k < |groups| ==> groups[k] > 0
  {
    if n > 0 {
      ReadGroupsCover(flags, n - 1);
      var before, groups := ReadGroups(flags, n - 1), ReadGroups(flags, n);
      WindowsPrefix(before, groups, |before| - 1);
      if !flags[n - 1] {
        WindowsPrefix(before, groups, |before|);
      }
    }
  }

  lemma {:induction false} WindowsPrefix(groups: seq<nat>, groups': seq<nat>, k: nat)
    requires k <= |groups| && k <= |groups'| && forall i :: 0 <= i < k ==> groups[i] == groups'[i]
    ensures Windows(groups, k) == Windows(groups', k)
  {
    if k > 0 {
      WindowsPrefix(groups, groups', k - 1);
    }
  }

  /** Window information that is accepted describes a layout of the window. */
  lemma ParsedIcsFits(fmt: Format, data: Bits, pos: nat, strict: bool)
    requires ValidFormat(fmt)
    ensures var r := ParseIcsInfo(data, pos, strict, |fmt.shortOffsets| - 1, |fmt.longOffsets| - 1);
      r.Ok? ==> ValidIcsFor(fmt, r.value)
  {
    ReadGroupsCover(Window(data, pos + 8, 7), 7);
    assert Windows([1], 1) == Windows([1], 0) + 1;
  }

  /** The window information: read here, or given by the channel pair. */
  ghost function ParseWindow(fmt: Format, data: Bits, pos: nat, shared: Option<Ics>, strict: bool): (r: Result<Ics>)
    requires ValidFormat(fmt) && (shared.Some? ==> ValidIcsFor(fmt, shared.value))
    ensures r.Ok? ==> ValidIcsFor(fmt, r.value)
  {
    ParsedIcsFits(fmt, data, pos, strict);
    if shared.Some? then Ok(shared.value, pos)
    else ParseIcsInfo(data, pos, strict, |fmt.shortOffsets| - 1, |fmt.longOffsets| - 1)
  }

  /** Band types of all window groups. */
  function ParseBandTypes(data: Bits, pos: nat, ics: Ics): Result<seq<seq<Section>>> {
    Many(GroupParser(IsShort(ics), ics.maxSfb), data, pos, seq(|ics.groups|, _ => ()), |ics.groups|)
  }

  /** Band types that are accepted cover the bands of every group exactly. */
  lemma ParsedBandTypesCover(data: Bits, pos: nat, ics: Ics)
    ensures var r := ParseBandTypes(data, pos, ics);
      r.Ok? ==> |r.value| == |ics.groups| && forall g :: 0 <= g < |r.value| ==> Covered(r.value[g]) == ics.maxSfb
  {
    var short := IsShort(ics);
    forall p: nat, kind: () | GroupParser(short, ics.maxSfb)(data, p, kind).Ok?
      ensures Covered(GroupParser(short, ics.maxSfb)(data, p, kind).value) == ics.maxSfb
    {
      DecodedSectionsCover(data, p, short, ics.maxSfb);
    }
    ManyHave(GroupParser(short, ics.maxSfb), data, pos, seq(|ics.groups|, _ => ()), |ics.groups|,
             (kind: (), ss: seq<Section>) => Covered(ss) == ics.maxSfb);
  }

  /** The scalefactors of all bands, in group-major order. */
  function ParseScales(fmt: Format, data: Bits, pos: nat, gain: nat, sections: seq<seq<Section>>): Result<seq<Scale>> {
    var books := DenseBooks(sections);
    match Thread(ScaleParser(fmt.tables.scale), data, pos, books, FirstState(gain), |books|)
    case Err => Err
    case Ok(scales, p) => Ok(scales.0, p)
  }

  /** The spectrum: every band read, the tails cleared, the values stored in place. */
  ghost function ParseSpectrum(fmt: Format, data: Bits, pos: nat, ics: Ics, sections: seq<seq<Section>>,
                                coefs: seq<int>): Result<seq<int>>
    requires ValidFormat(fmt) && ValidIcsFor(fmt, ics) && |coefs| == COEFS
    requires ValidBooks(LayoutOf(fmt, ics), GroupBooks(sections))
  {
    var lay := LayoutOf(fmt, ics);
    var jobs := Jobs(lay, GroupBooks(sections));
    JobsFit(lay, GroupBooks(sections));
    DecodedJobsFit(fmt.tables, data, pos, jobs);
    match Many(JobParser(fmt.tables), data, pos, jobs, |jobs|)
    case Err => Err
    case Ok(cs, p) => Ok(Place(ClearTails(lay, coefs), cs, |cs|), p)
  }

  /** decode_ics; pulse data, TNS and gain control are refused. */
  ghost function ParseChannel(fmt: Format, data: Bits, pos: nat, shared: Option<Ics>, strict: bool,
                               coefs: seq<int>): Result<Decoded>
    requires ValidFormat(fmt) && (shared.Some? ==> ValidIcsFor(fmt, shared.value)) && |coefs| == COEFS
  {
    var gain := GetBits(data, pos, 8);
    match ParseWindow(fmt, data, pos + 8, shared, strict)
    case Err => Err
    case Ok(ics, p1) =>
      ParsedBandTypesCover(data, p1, ics);
      match ParseBandTypes(data, p1, ics)
      case Err => Err
      case Ok(sections, p2) =>
        match ParseScales(fmt, data, p2, gain, sections)
        case Err => Err
        case Ok(scales, p3) =>
          if BitAt(data, p3) || BitAt(data, p3 + 1) || BitAt(data, p3 + 2) then Err
          else
            match ParseSpectrum(fmt, data, p3 + 3, ics, sections, coefs)
            case Err => Err
            case Ok(r, p4) => Ok(Decoded(ics, sections, scales, r), p4)
  }

  // ---------- round trip ----------

  /** Six parts in a row. */
  lemma SixParts(data: Bits, pos: nat, a: Bits, b: Bits, c: Bits, d: Bits, e: Bits, f: Bits)
    requires StartsAt(data, pos, a + (b + (c + (d + (e + f)))))
    ensures var p1 := pos + |a|; var p2 := p1 + |b|; var p3 := p2 + |c|; var p4 := p3 + |d|;
      && StartsAt(data, pos, a) && StartsAt(data, p1, b) && StartsAt(data, p2, c)
      && StartsAt(data, p3, d) && StartsAt(data, p4, e) && StartsAt(data, p4 + |e|, f)
  {
    hide *;
    StartsAtParts(data, pos, a, b + (c + (d + (e + f))));
    StartsAtParts(data, pos + |a|, b, c + (d + (e + f)));
    StartsAtParts(data, pos + |a| + |b|, c, d + (e + f));
    StartsAtParts(data, pos + |a| + |b| + |c|, d, e + f);
    StartsAtParts(data, pos + |a| + |b| + |c| + |d|, e, f);
  }

  lemma SpectrumRoundTrip(fmt: Format, ch: Channel, data: Bits, pos: nat, coefs: seq<int>)
    requires ValidChannel(fmt, ch) && |coefs| == COEFS
    requires StartsAt(data, pos, SpectrumBits(fmt, ch))
    ensures ParseSpectrum(fmt, data, pos, ch.ics, ch.sections, coefs) == Ok(ch.q, pos + |SpectrumBits(fmt, ch)|)
  {
    var lay, books := LayoutOf(fmt, ch.ics), GroupBooks(ch.sections);
    JobsFit(lay, books);
    SpectrumReadsBack(fmt.tables, Jobs(lay, books), ch.q, data, pos);
    PlaceGivesSpectrum(lay, books, ch.q, coefs);
  }

  lemma ScalesRoundTrip(fmt: Format, ch: Channel, data: Bits, pos: nat)
    requires ValidChannel(fmt, ch) && StartsAt(data, pos, ScaleBits(fmt, ch))
    ensures ParseScales(fmt, data, pos, ch.gain, ch.sections) == Ok(ScalesOf(ch), pos + |ScaleBits(fmt, ch)|)
  {
    ScalesReadBack(fmt.tables.scale, data, pos, ch.gain, DenseBooks(ch.sections), ch.sf);
  }

  lemma NoTools(data: Bits, pos: nat)
    requires StartsAt(data, pos, [false, false, false])
    ensures !BitAt(data, pos) && !BitAt(data, pos + 1) && !BitAt(data, pos + 2)
  {
    StartsAtBit(data, pos, [false, false, false], 0);
    StartsAtBit(data, pos, [false, false, false], 1);
    StartsAtBit(data, pos, [false, false, false], 2);
  }

  /** The band types of all groups read back. */
  lemma BandTypesReadBack(ch: Channel, data: Bits, pos: nat)
    requires |ch.sections| == |ch.ics.groups|
    requires forall g :: 0 <= g < |ch.sections| ==> Sectioning(ch.sections[g], ch.ics.maxSfb)
    requires StartsAt(data, pos, SectionBits(ch))
    ensures ParseBandTypes(data, pos, ch.ics) == Ok(ch.sections, pos + |SectionBits(ch)|)
  {
    var short, maxSfb, kinds := IsShort(ch.ics), ch.ics.maxSfb, seq(|ch.ics.groups|, _ => ());
    forall g | 0 <= g < |ch.sections|
      ensures ReadsBack(GroupParser(short, maxSfb), SectionData(short), data, kinds[g], ch.sections[g])
    {
      OneGroupReadsBack(short, maxSfb, ch.sections[g], data);
    }
    assert ParseBandTypes(data, pos, ch.ics) == Many(GroupParser(short, maxSfb), data, pos, kinds, |kinds|);
    ManyReadBack(GroupParser(short, maxSfb), SectionData(short), data, pos, kinds, ch.sections, |kinds|);
    assert ch.sections[..|kinds|] == ch.sections;
  }

  /** Where the parts of a channel are. */
  lemma PartsAt(fmt: Format, ch: Channel, common: bool, data: Bits, pos: nat, p2: nat, p3: nat, p4: nat)
    requires ValidChannel(fmt, ch) && StartsAt(data, pos, ChannelCode(fmt, ch, common))
    requires p2 == pos + 8 + |WindowCode(common, ch.ics)| && p3 == p2 + |SectionBits(ch)|
    requires p4 == p3 + |ScaleBits(fmt, ch)|
    ensures StartsAt(data, pos, ToBits(8, ch.gain)) && StartsAt(data, pos + 8, WindowCode(common, ch.ics))
    ensures StartsAt(data, p2, SectionBits(ch)) && StartsAt(data, p3, ScaleBits(fmt, ch))
    ensures StartsAt(data, p4, [false, false, false]) && StartsAt(data, p4 + 3, SpectrumBits(fmt, ch))
    ensures |ChannelCode(fmt, ch, common)| == p4 + 3 + |SpectrumBits(fmt, ch)| - pos
  {
    hide StartsAt, ToBits, SectionBits, ScaleBits, SpectrumBits, WindowCode;
    SixParts(data, pos, ToBits(8, ch.gain), WindowCode(common, ch.ics), SectionBits(ch), ScaleBits(fmt, ch),
             [false, false, false], SpectrumBits(fmt, ch));
  }

  lemma ChannelWindow(fmt: Format, ch: Channel)
    requires ValidChannel(fmt, ch)
    ensures ValidIcs(ch.ics) && |fmt.shortOffsets| > 0 && |fmt.longOffsets| > 0
    ensures ch.ics.maxSfb <= (if IsShort(ch.ics) then |fmt.shortOffsets| - 1 else |fmt.longOffsets| - 1)
    ensures forall k :: 0 <= k < |ch.ics.groups| ==> ch.ics.groups[k] > 0
  {
  }

  lemma WindowRoundTrip(fmt: Format, ch: Channel, common: bool, strict: bool, data: Bits, pos: nat)
    requires ValidChannel(fmt, ch) && StartsAt(data, pos, WindowCode(common, ch.ics))
    ensures ParseWindow(fmt, data, pos, Shared(common, ch.ics), strict)
         == Ok(ch.ics, pos + |WindowCode(common, ch.ics)|)
  {
    hide GetBits, IcsCode, ParseIcsInfo, ValidChannel, ValidIcs, StartsAt;
    ChannelWindow(fmt, ch);
    if !common {
      IcsRoundTrip(data, pos, strict, |fmt.shortOffsets| - 1, |fmt.longOffsets| - 1, ch.ics);
    }
  }

  /** The decoder reads the fields one after the other. */
  lemma Assemble(fmt: Format, data: Bits, pos: nat, shared: Option<Ics>, strict: bool, coefs: seq<int>,
                 d: Decoded, p1: nat, p2: nat, p3: nat, p4: nat)
    requires ValidFormat(fmt) && (shared.Some? ==> ValidIcsFor(fmt, shared.value)) && |coefs| == COEFS
    requires ParseWindow(fmt, data, pos + 8, shared, strict) == Ok(d.ics, p1)
    requires ParseBandTypes(data, p1, d.ics) == Ok(d.sections, p2)
    requires ParseScales(fmt, data, p2, GetBits(data, pos, 8), d.sections) == Ok(d.scales, p3)
    requires !BitAt(data, p3) && !BitAt(data, p3 + 1) && !BitAt(data, p3 + 2)
    requires ValidIcsFor(fmt, d.ics) && ValidBooks(LayoutOf(fmt, d.ics), GroupBooks(d.sections))
    requires ParseSpectrum(fmt, data, p3 + 3, d.ics, d.sections, coefs) == Ok(d.coefs, p4)
    ensures ParseChannel(fmt, data, pos, shared, strict, coefs) == Ok(d, p4)
  {
    hide ValidFormat, ValidIcsFor, ValidBooks, ParseWindow, ParseBandTypes, ParseScales, ParseSpectrum, GetBits, BitAt;
  }

  /** What a channel decodes to. */
  function Recovered(ch: Channel): Decoded
    requires |ch.sf| == |DenseBooks(ch.sections)|
  {
    Decoded(ch.ics, ch.sections, ScalesOf(ch), ch.q)
  }

  lemma PartsReadBack(fmt: Format, ch: Channel, common: bool, strict: bool, data: Bits, pos: nat, coefs: seq<int>,
                      p2: nat, p3: nat, p4: nat)
    requires ValidChannel(fmt, ch) && |coefs| == COEFS
    requires StartsAt(data, pos, ToBits(8, ch.gain))
    requires StartsAt(data, pos + 8, WindowCode(common, ch.ics)) && p2 == pos + 8 + |WindowCode(common, ch.ics)|
    requires StartsAt(data, p2, SectionBits(ch)) && p3 == p2 + |SectionBits(ch)|
    requires StartsAt(data, p3, ScaleBits(fmt, ch)) && p4 == p3 + |ScaleBits(fmt, ch)|
    requires StartsAt(data, p4, [false, false, false]) && StartsAt(data, p4 + 3, SpectrumBits(fmt, ch))
    ensures ParseChannel(fmt, data, pos, Shared(common, ch.ics), strict, coefs)
         == Ok(Recovered(ch), p4 + 3 + |SpectrumBits(fmt, ch)|)
  {
    FieldsFit();
    hide StartsAt, ToBits, SectionBits, ScaleBits, SpectrumBits, ParseChannel, WindowCode, ParseWindow, ParseBandTypes,
      ParseScales, ParseSpectrum, GetBits, BitAt, LayoutOf, GroupBooks, Dense, Jobs, Transmits, ValidBooks, ValidFormat,
      ValidIcsFor;
    ReadField(data, pos, 8, ch.gain);
    WindowRoundTrip(fmt, ch, common, strict, data, pos + 8);
    BandTypesReadBack(ch, data, p2);
    ScalesRoundTrip(fmt, ch, data, p3);
    NoTools(data, p4);
    SpectrumRoundTrip(fmt, ch, data, p4 + 3, coefs);
    Assemble(fmt, data, pos, Shared(common, ch.ics), strict, coefs, Recovered(ch), p2, p3, p4,
             p4 + 3 + |SpectrumBits(fmt, ch)|);
  }

  /** Reading the bits of a channel recovers its window grouping, the codebook of every band,
      the scalefactor of every coded band and all quantised values, and consumes exactly those
      bits, whatever the coefficient array held before. */
  lemma ChannelRoundTrip(fmt: Format, ch: Channel, common: bool, strict: bool, data: Bits, pos: nat, coefs: seq<int>)
    requires ValidChannel(fmt, ch) && |coefs| == COEFS
    requires StartsAt(data, pos, ChannelCode(fmt, ch, common))
    ensures ParseChannel(fmt, data, pos, Shared(common, ch.ics), strict, coefs)
         == Ok(Recovered(ch), pos + |ChannelCode(fmt, ch, common)|)
  {
    var p2 := pos + 8 + |WindowCode(common, ch.ics)|;
    var p3 := p2 + |SectionBits(ch)|;
    var p4 := p3 + |ScaleBits(fmt, ch)|;
    hide StartsAt, ToBits, SectionBits, ScaleBits, SpectrumBits, ParseChannel, ChannelCode, WindowCode;
    PartsAt(fmt, ch, common, data, pos, p2, p3, p4);
    PartsReadBack(fmt, ch, common, strict, data, pos, coefs, p2, p3, p4);
  }
}
