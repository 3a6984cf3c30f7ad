/** The quadtree of a 4X Movie P frame (block_type_tab, size2index, mcdc, decode_p_block and
    decode_p_frame of libavcodec/4xm.c). */
module PBlock4xm {
  import opened Wrappers
  import opened Sums
  import opened BitIO

  const PIXEL: nat := 0x1_0000 // number of values of a 16-bit pixel

  // ---------- code tables ----------

  /** One entry of a block type table: the code word's value and its length, 0 if absent. */
  datatype Entry = Entry(bits: nat, len: nat)

  /** block_type_tab[0]: versions above 1. */
  const TABLES_NEW: seq<seq<Entry>> := [
    [Entry(0, 1), Entry(2, 2), Entry(6, 3), Entry(14, 4), Entry(30, 5), Entry(31, 5), Entry(0, 0)],
    [Entry(0, 1), Entry(0, 0), Entry(2, 2), Entry(6, 3), Entry(14, 4), Entry(15, 4), Entry(0, 0)],
    [Entry(0, 1), Entry(2, 2), Entry(0, 0), Entry(6, 3), Entry(14, 4), Entry(15, 4), Entry(0, 0)],
    [Entry(0, 1), Entry(0, 0), Entry(0, 0), Entry(2, 2), Entry(6, 3), Entry(14, 4), Entry(15, 4)]
  ]

  /** block_type_tab[1]: versions 0 and 1. */
  const TABLES_OLD: seq<seq<Entry>> := [
    [Entry(1, 2), Entry(4, 3), Entry(5, 3), Entry(0, 2), Entry(6, 3), Entry(7, 3), Entry(0, 0)],
    [Entry(1, 2), Entry(0, 0), Entry(2, 2), Entry(0, 2), Entry(6, 3), Entry(7, 3), Entry(0, 0)],
    [Entry(1, 2), Entry(2, 2), Entry(0, 0), Entry(0, 2), Entry(6, 3), Entry(7, 3), Entry(0, 0)],
    [Entry(1, 2), Entry(0, 0), Entry(0, 0), Entry(0, 2), Entry(2, 2), Entry(6, 3), Entry(7, 3)]
  ]

  /** size2index, by log2 of height and width; the entry -1 is stored in an unsigned byte. */
  const SIZE2INDEX: seq<seq<nat>> := [[255, 3, 1, 1], [3, 0, 0, 0], [2, 0, 0, 0], [2, 0, 0, 0]]

  function Table(newer: bool, index: nat): seq<Entry>
    requires index < 4
  {
    if newer then TABLES_NEW[index] else TABLES_OLD[index]
  }

  predicate Matches(e: Entry, data: Bits, pos: nat) {
    e.len > 0 && GetBits(data, pos, e.len) == e.bits
  }

  /** bitstream_read_vlc: the code whose word is next, or none. */
  function ReadCode(t: seq<Entry>, data: Bits, pos: nat, k: nat): (code: int)
    requires k <= |t|
    ensures -1 <= code < k && (code >= 0 ==> Matches(t[code], data, pos))
    ensures code < 0 ==> forall i :: 0 <= i < k ==> !Matches(t[i], data, pos)
  {
    if k == 0 then -1
    else if Matches(t[k - 1], data, pos) then k - 1
    else ReadCode(t, data, pos, k - 1)
  }

  lemma GetOneMore(data: Bits, pos: nat, n: nat)
    ensures GetBits(data, pos, n + 1) == 2 * GetBits(data, pos, n) + (if BitAt(data, pos + n) then 1 else 0)
  {
    assert Window(data, pos, n + 1)[..n] == Window(data, pos, n);
  }

  /** The first five bits, each prefix worth twice the one before plus the next bit. */
  lemma Prefixes(data: Bits, pos: nat) returns (b: seq<nat>)
    ensures |b| == 5 && forall i :: 0 <= i < 5 ==> b[i] == if BitAt(data, pos + i) then 1 else 0
    ensures GetBits(data, pos, 1) == b[0]
    ensures GetBits(data, pos, 2) == 2 * b[0] + b[1]
    ensures GetBits(data, pos, 3) == 4 * b[0] + 2 * b[1] + b[2]
    ensures GetBits(data, pos, 4) == 8 * b[0] + 4 * b[1] + 2 * b[2] + b[3]
    ensures GetBits(data, pos, 5) == 16 * b[0] + 8 * b[1] + 4 * b[2] + 2 * b[3] + b[4]
  {
    hide GetBits, BitAt;
    b := [if BitAt(data, pos) then 1 else 0, if BitAt(data, pos + 1) then 1 else 0,
          if BitAt(data, pos + 2) then 1 else 0,
          if BitAt(data, pos + 3) then 1 else 0, if BitAt(data, pos + 4) then 1 else 0];
    NoBits(data, pos);
    GetOneMore(data, pos, 0);
    GetOneMore(data, pos, 1);
    GetOneMore(data, pos, 2);
    GetOneMore(data, pos, 3);
    GetOneMore(data, pos, 4);
  }

  lemma NoBits(data: Bits, pos: nat)
    ensures GetBits(data, pos, 0) == 0
  {
  }

  /** Every table is a complete prefix code: whatever bits come next, exactly one code of the
      table matches, so reading a code never fails. */
  lemma ExactlyOneCode(newer: bool, index: nat, data: Bits, pos: nat)
    requires index < 4
    ensures var t := Table(newer, index);
      var code := ReadCode(t, data, pos, |t|);
      code >= 0 && forall i :: 0 <= i < |t| ==> (Matches(t[i], data, pos) <==> i == code)
  {
    var b := Prefixes(data, pos);
    hide GetBits;
    var t := Table(newer, index);
    assert |t| == 7;
    assert Matches(t[0], data, pos) || Matches(t[1], data, pos) || Matches(t[2], data, pos) || Matches(t[3], data, pos)
      || Matches(t[4], data, pos) || Matches(t[5], data, pos) || Matches(t[6], data, pos);
    assert forall i, j :: 0 <= i < j < 7 ==> !(Matches(t[i], data, pos) && Matches(t[j], data, pos));
  }

  /** Which codes a shape can carry: no split of the height of a row, none of the width of a
      column, no split of two pixels, and the raw code for two pixels only. */
  lemma CodesOfShape(newer: bool, index: nat, code: nat)
    requires index < 4 && code < 7 && Table(newer, index)[code].len > 0
    ensures code == 1 ==> index == 0 || index == 2
    ensures code == 2 ==> index == 0 || index == 1
    ensures code == 6 ==> index == 3
    ensures index == 3 ==> code != 1 && code != 2
  {
  }

  // ---------- parsing ----------

  /** What is left to read: block codes, motion vector bytes, 16-bit words. */
  datatype Streams = Streams(bits: Bits, pos: nat, bytes: seq<nat>, words: seq<nat>)

  /** bytestream2_get_byte: zero when nothing is left. */
  function GetByte(st: Streams): (nat, Streams) {
    if st.bytes == [] then (0, st) else (st.bytes[0], st.(bytes := st.bytes[1..]))
  }

  /** bytestream2_get_le16: with fewer than two bytes left, zero, and nothing is left. */
  function GetLe16(st: Streams): (nat, Streams) {
    if |st.words| < 2 then (0, st.(words := []))
    else (st.words[0] + 256 * st.words[1], st.(words := st.words[2..]))
  }

  /** What a leaf does to its pixels. A copy reads from the previous frame at src. */
  datatype Op = Keep | Copy(src: int, scale: nat, dc: nat) | Raw(first: nat, second: nat)

  /** A leaf with its upper left pixel, log2 sizes and operation. */
  datatype Leaf = Leaf(x: nat, y: nat, log2w: nat, log2h: nat, op: Op)

  datatype Error = NegativeSize | NoTable | BadCode | OutOfPicture

  /** The leaves completed, what is left to read, and the error that stopped the parse. */
  datatype Parsed = Parsed(leaves: seq<Leaf>, st: Streams, err: Option<Error>)

  /** Version above 1, displacement table, and the size of a frame. */
  datatype Picture = Picture(version: nat, mv: seq<int>, stride: nat, height: nat)

  predicate ValidPicture(pic: Picture) {
    |pic.mv| == 256 && pic.stride > 0
  }

  predicate ByteStreams(st: Streams) {
    && (forall i :: 0 <= i < |st.bytes| ==> st.bytes[i] < 256)
    && (forall i :: 0 <= i < |st.words| ==> st.words[i] < 256)
  }

  function Side(log2: nat): (n: nat)
    requires log2 <= 3
    ensures n == Pow2(log2)
  {
    assert Pow2(1) == 2 && Pow2(2) == 4 && Pow2(3) == 8;
    if log2 == 0 then 1 else if log2 == 1 then 2 else if log2 == 2 then 4 else 8
  }

  /** start <= src && src <= end. */
  predicate InPicture(pic: Picture, src: int, log2w: nat, log2h: nat)
    requires log2w <= 3 && log2h <= 3
  {
    0 <= src <= pic.stride * (pic.height - Side(log2h) + 1) - Side(log2w)
  }

  /** The leaf of a block that is not split. */
  function ParseLeaf(pic: Picture, st: Streams, code: nat, x: nat, y: nat, log2w: nat, log2h: nat): Parsed
    requires ValidPicture(pic) && ByteStreams(st) && log2w <= 3 && log2h <= 3
  {
    var at := y * pic.stride + x;
    if code == 6 then
      var (first, st1) := GetLe16(st);
      var (second, st2) := GetLe16(st1);
      Parsed([Leaf(x, y, log2w, log2h, Raw(first, second))], st2, None)
    else if code == 3 && pic.version >= 2 then
      Parsed([Leaf(x, y, log2w, log2h, Keep)], st, None)
    else
      var (vector, st1) := if code == 0 || code == 4 then GetByte(st) else (0, st);
      var src := if code == 0 || code == 4 then at + pic.mv[vector] else at;
      var (dc, st2) := if code == 4 || code == 5 then GetLe16(st1) else (0, st1);
      if !InPicture(pic, src, log2w, log2h) then Parsed([], st2, Some(OutOfPicture))
      else Parsed([Leaf(x, y, log2w, log2h, Copy(src, if code == 5 then 0 else 1, dc))], st2, None)
  }

  /** The rest of a parse after its first part. */
  function Then(a: Parsed, b: Parsed): Parsed {
    Parsed(a.leaves + b.leaves, b.st, b.err)
  }

  lemma LeafKeepsStreams(pic: Picture, st: Streams, code: nat, x: nat, y: nat, log2w: nat, log2h: nat)
    requires ValidPicture(pic) && ByteStreams(st) && log2w <= 3 && log2h <= 3
    ensures ByteStreams(ParseLeaf(pic, st, code, x, y, log2w, log2h).st)
  {
  }

  /** A block code and what is left to read, or the error of reading it. */
  datatype Next = Next(code: nat, st: Streams) | Failed(err: Error)

  function ReadNext(pic: Picture, st: Streams, log2w: nat, log2h: nat): (n: Next)
    requires log2w <= 3 && log2h <= 3
    ensures n.Next? ==> n.code <= 6 && n.st == st.(pos := n.st.pos)
  {
    var index := SIZE2INDEX[log2h][log2w];
    if index >= 4 then Failed(NoTable)
    else
      var t := Table(pic.version > 1, index);
      var code := ReadCode(t, st.bits, st.pos, |t|);
      if code < 0 || code > 6 then Failed(BadCode) else Next(code, st.(pos := st.pos + t[code].len))
  }

  /** decode_p_block as a parse, with every check of the code. */
  function ParseBlock(pic: Picture, st: Streams, x: nat, y: nat, log2w: int, log2h: int): (r: Parsed)
    requires ValidPicture(pic) && ByteStreams(st) && -1 <= log2w <= 3 && -1 <= log2h <= 3
    ensures ByteStreams(r.st)
    decreases log2w + log2h
  {
    if log2h < 0 || log2w < 0 then Parsed([], st, Some(NegativeSize))
    else
      match ReadNext(pic, st, log2w, log2h)
      case Failed(err) => Parsed([], st, Some(err))
      case Next(code, st1) =>
        if code == 1 then
          if log2h == 0 then Parsed([], st1, Some(NegativeSize))
          else
            var a := ParseBlock(pic, st1, x, y, log2w, log2h - 1);
            if a.err.Some? then a
            else Then(a, ParseBlock(pic, a.st, x, y + Side(log2h - 1), log2w, log2h - 1))
        else if code == 2 then
          if log2w == 0 then Parsed([], st1, Some(NegativeSize))
          else
            var a := ParseBlock(pic, st1, x, y, log2w - 1, log2h);
            if a.err.Some? then a
            else Then(a, ParseBlock(pic, a.st, x + Side(log2w - 1), y, log2w - 1, log2h))
        else
          LeafKeepsStreams(pic, st1, code, x, y, log2w, log2h);
          ParseLeaf(pic, st1, code, x, y, log2w, log2h)
  }

  /** The sizes a block of a P frame can have: anything up to 8x8 but a single pixel. */
  predicate Shape(log2w: int, log2h: int) {
    0 <= log2w <= 3 && 0 <= log2h <= 3 && (log2w, log2h) != (0, 0)
  }

  /** Whatever the data, a block of an allowed size has a code, splits only into allowed
      sizes, and is raw only when it has two pixels. */
  lemma NextOfShape(pic: Picture, st: Streams, log2w: int, log2h: int)
    requires Shape(log2w, log2h)
    ensures var n := ReadNext(pic, st, log2w, log2h);
      && n.Next?
      && (n.code == 1 ==> Shape(log2w, log2h - 1))
      && (n.code == 2 ==> Shape(log2w - 1, log2h))
      && (n.code == 6 ==> log2w + log2h == 1)
  {
    hide Matches, ReadCode;
    var index := SIZE2INDEX[log2h][log2w];
    ExactlyOneCode(pic.version > 1, index, st.bits, st.pos);
    var t := Table(pic.version > 1, index);
    var code := ReadCode(t, st.bits, st.pos, |t|);
    CodePresent(t, st.bits, st.pos);
    CodesOfShape(pic.version > 1, index, code);
  }

  lemma CodePresent(t: seq<Entry>, data: Bits, pos: nat)
    ensures var code := ReadCode(t, data, pos, |t|); code >= 0 ==> t[code].len > 0
  {
  }

  lemma NextKeepsStreams(pic: Picture, st: Streams, log2w: nat, log2h: nat)
    requires ByteStreams(st) && log2w <= 3 && log2h <= 3
    ensures var n := ReadNext(pic, st, log2w, log2h); n.Next? ==> ByteStreams(n.st)
  {
    hide ReadNext;
  }

  lemma LeafError(pic: Picture, st: Streams, code: nat, x: nat, y: nat, log2w: nat, log2h: nat)
    requires ValidPicture(pic) && ByteStreams(st) && log2w <= 3 && log2h <= 3
    ensures var err := ParseLeaf(pic, st, code, x, y, log2w, log2h).err; err == None || err == Some(OutOfPicture)
  {
    hide InPicture;
  }

  /** From any allowed block size, whatever the data, no block gets a negative size or the size 1x1,
      and reading a code never fails: the only error is a motion vector out of the picture. */
  lemma {:induction false} OnlyMotionFails(pic: Picture, st: Streams, x: nat, y: nat, log2w: int, log2h: int)
    requires ValidPicture(pic) && ByteStreams(st) && Shape(log2w, log2h)
    ensures var err := ParseBlock(pic, st, x, y, log2w, log2h).err; err == None || err == Some(OutOfPicture)
    decreases log2w + log2h
  {
    hide ReadNext, ParseLeaf, Side, ByteStreams, ValidPicture;
    NextOfShape(pic, st, log2w, log2h);
    NextKeepsStreams(pic, st, log2w, log2h);
    var n := ReadNext(pic, st, log2w, log2h);
    if n.code == 1 {
      OnlyMotionFails(pic, n.st, x, y, log2w, log2h - 1);
      var a := ParseBlock(pic, n.st, x, y, log2w, log2h - 1);
      OnlyMotionFails(pic, a.st, x, y + Side(log2h - 1), log2w, log2h - 1);
    } else if n.code == 2 {
      OnlyMotionFails(pic, n.st, x, y, log2w - 1, log2h);
      var a := ParseBlock(pic, n.st, x, y, log2w - 1, log2h);
      OnlyMotionFails(pic, a.st, x + Side(log2w - 1), y, log2w - 1, log2h);
    } else {
      LeafError(pic, n.st, n.code, x, y, log2w, log2h);
    }
  }

  /** The areas of a block that was asked for lie in the picture. */
  ghost predicate Inside(pic: Picture, x: nat, y: nat, log2w: int, log2h: int) {
    && -1 <= log2w <= 3 && -1 <= log2h <= 3
    && (log2w >= 0 && log2h >= 0 ==> x + Side(log2w) <= pic.stride && y + Side(log2h) <= pic.height)
  }

  // ---------- the leaves ----------

  predicate Contains(l: Leaf, px: int, py: int)
    requires l.log2w <= 3 && l.log2h <= 3
  {
    l.x <= px < l.x + Side(l.log2w) && l.y <= py < l.y + Side(l.log2h)
  }

  /** A leaf of the picture that can be painted. */
  ghost predicate Sound(pic: Picture, l: Leaf) {
    && l.log2w <= 3 && l.log2h <= 3
    && l.x + Side(l.log2w) <= pic.stride && l.y + Side(l.log2h) <= pic.height
    && match l.op
       case Keep => true
       case Copy(src, scale, dc) => InPicture(pic, src, l.log2w, l.log2h) && scale <= 1 && dc < PIXEL
       case Raw(first, second) => l.log2w + l.log2h == 1 && first < PIXEL && second < PIXEL
  }

  ghost predicate AllSound(pic: Picture, leaves: seq<Leaf>) {
    forall i :: 0 <= i < |leaves| ==> Sound(pic, leaves[i])
  }

  lemma WordBelow(st: Streams)
    requires ByteStreams(st)
    ensures GetLe16(st).0 < PIXEL && ByteStreams(GetLe16(st).1)
    ensures GetByte(st).0 < 256 && ByteStreams(GetByte(st).1)
  {
  }

  lemma LeafIsSound(pic: Picture, st: Streams, code: nat, x: nat, y: nat, log2w: nat, log2h: nat)
    requires ValidPicture(pic) && ByteStreams(st) && Shape(log2w, log2h)
    requires x + Side(log2w) <= pic.stride && y + Side(log2h) <= pic.height
    requires code == 6 ==> log2w + log2h == 1
    ensures AllSound(pic, ParseLeaf(pic, st, code, x, y, log2w, log2h).leaves)
  {
    hide InPicture, GetLe16, GetByte;
    WordBelow(st);
    WordBelow(GetLe16(st).1);
    WordBelow(GetByte(st).1);
  }

  lemma Halves(log2: nat)
    requires 0 < log2 <= 3
    ensures Side(log2) == 2 * Side(log2 - 1)
  {
  }

  lemma SoundTogether(pic: Picture, a: seq<Leaf>, b: seq<Leaf>)
    requires AllSound(pic, a) && AllSound(pic, b)
    ensures AllSound(pic, a + b)
  {
  }

  /** Every leaf of a block lies in the picture, its source passed the motion check, and raw
      leaves have exactly two pixels. */
  lemma {:induction false} LeavesAreSound(pic: Picture, st: Streams, x: nat, y: nat, log2w: int, log2h: int)
    requires ValidPicture(pic) && ByteStreams(st) && Shape(log2w, log2h)
    requires x + Side(log2w) <= pic.stride && y + Side(log2h) <= pic.height
    ensures AllSound(pic, ParseBlock(pic, st, x, y, log2w, log2h).leaves)
    decreases log2w + log2h
  {
    hide ReadNext, AllSound, ParseLeaf, Side;
    NextOfShape(pic, st, log2w, log2h);
    var n := ReadNext(pic, st, log2w, log2h);
    if n.code == 1 {
      Halves(log2h);
      LeavesAreSound(pic, n.st, x, y, log2w, log2h - 1);
      var a := ParseBlock(pic, n.st, x, y, log2w, log2h - 1);
      LeavesAreSound(pic, a.st, x, y + Side(log2h - 1), log2w, log2h - 1);
      SoundTogether(pic, a.leaves, ParseBlock(pic, a.st, x, y + Side(log2h - 1), log2w, log2h - 1).leaves);
    } else if n.code == 2 {
      Halves(log2w);
      LeavesAreSound(pic, n.st, x, y, log2w - 1, log2h);
      var a := ParseBlock(pic, n.st, x, y, log2w - 1, log2h);
      LeavesAreSound(pic, a.st, x + Side(log2w - 1), y, log2w - 1, log2h);
      SoundTogether(pic, a.leaves, ParseBlock(pic, a.st, x + Side(log2w - 1), y, log2w - 1, log2h).leaves);
    } else {
      LeafIsSound(pic, n.st, n.code, x, y, log2w, log2h);
    }
  }

  lemma AnyLeavesAreSound(pic: Picture, st: Streams, x: nat, y: nat, log2w: int, log2h: int)
    requires ValidPicture(pic) && ByteStreams(st) && Inside(pic, x, y, log2w, log2h)
    ensures AllSound(pic, ParseBlock(pic, st, x, y, log2w, log2h).leaves)
  {
    if Shape(log2w, log2h) {
      LeavesAreSound(pic, st, x, y, log2w, log2h);
    }
  }

  ghost predicate Small(leaves: seq<Leaf>) {
    forall i :: 0 <= i < |leaves| ==> leaves[i].log2w <= 3 && leaves[i].log2h <= 3
  }

  /** How many of the first k leaves contain a pixel. */
  ghost function Hits(leaves: seq<Leaf>, px: int, py: int, k: nat): nat
    requires k <= |leaves| && Small(leaves)
  {
    if k == 0 then 0 else Hits(leaves, px, py, k - 1) + if Contains(leaves[k - 1], px, py) then 1 else 0
  }

  lemma {:induction false} HitsTogether(a: seq<Leaf>, b: seq<Leaf>, px: int, py: int, k: nat)
    requires Small(a) && Small(b) && Small(a + b) && k <= |b|
    ensures Hits(a + b, px, py, |a| + k) == Hits(a, px, py, |a|) + Hits(b, px, py, k)
  {
    if k > 0 {
      HitsTogether(a, b, px, py, k - 1);
    } else {
      HitsPrefix(a + b, a, px, py, |a|);
    }
  }

  lemma {:induction false} HitsPrefix(a: seq<Leaf>, b: seq<Leaf>, px: int, py: int, k: nat)
    requires Small(a) && Small(b) && k <= |a| && k <= |b| && a[..k] == b[..k]
    ensures Hits(a, px, py, k) == Hits(b, px, py, k)
  {
    if k > 0 {
      assert a[k - 1] == a[..k][k - 1] == b[k - 1];
      assert a[..k - 1] == a[..k][..k - 1] && b[..k - 1] == b[..k][..k - 1];
      HitsPrefix(a, b, px, py, k - 1);
    }
  }

  predicate InBlock(x: int, y: int, log2w: nat, log2h: nat, px: int, py: int)
    requires log2w <= 3 && log2h <= 3
  {
    x <= px < x + Side(log2w) && y <= py < y + Side(log2h)
  }

  lemma LeavesAreSmall(a: seq<Leaf>, b: seq<Leaf>)
    ensures Small(a) && Small(b) ==> Small(a + b)
  {
  }

  /** How often a complete parse covers a pixel: once inside the area, never outside; a parse
      that stopped covers no pixel twice. */
  ghost predicate CoversOnce(r: Parsed, px: int, py: int, inside: bool) {
    && Small(r.leaves)
    && var n := Hits(r.leaves, px, py, |r.leaves|);
      n <= (if inside then 1 else 0) && (r.err.None? ==> n == if inside then 1 else 0)
  }

  lemma CoversTogether(a: Parsed, b: Parsed, px: int, py: int, inA: bool, inB: bool)
    requires CoversOnce(a, px, py, inA) && a.err.None? && CoversOnce(b, px, py, inB) && !(inA && inB)
    ensures CoversOnce(Then(a, b), px, py, inA || inB)
  {
    LeavesAreSmall(a.leaves, b.leaves);
    HitsTogether(a.leaves, b.leaves, px, py, |b.leaves|);
  }

  lemma LeafCoversOnce(pic: Picture, st: Streams, code: nat, x: nat, y: nat, log2w: nat, log2h: nat, px: int, py: int)
    requires ValidPicture(pic) && ByteStreams(st) && log2w <= 3 && log2h <= 3
    ensures CoversOnce(ParseLeaf(pic, st, code, x, y, log2w, log2h), px, py, InBlock(x, y, log2w, log2h, px, py))
  {
    hide Side, GetByte, GetLe16, InPicture;
    var r := ParseLeaf(pic, st, code, x, y, log2w, log2h);
    if r.leaves != [] {
      assert Hits(r.leaves, px, py, 1) == Hits(r.leaves, px, py, 0) + if Contains(r.leaves[0], px, py) then 1 else 0;
    }
  }

  /** The leaves of a block partition it: every pixel of the block lies in exactly one leaf,
      no pixel outside in any. */
  lemma {:induction false} LeavesPartition(pic: Picture, st: Streams, x: nat, y: nat, log2w: int, log2h: int,
                                           px: int, py: int)
    requires ValidPicture(pic) && ByteStreams(st) && Shape(log2w, log2h)
    ensures CoversOnce(ParseBlock(pic, st, x, y, log2w, log2h), px, py, InBlock(x, y, log2w, log2h, px, py))
    decreases log2w + log2h
  {
    hide ReadNext, ParseLeaf, Side, CoversOnce;
    NextOfShape(pic, st, log2w, log2h);
    var n := ReadNext(pic, st, log2w, log2h);
    if n.code == 1 {
      Halves(log2h);
      var y' := y + Side(log2h - 1);
      LeavesPartition(pic, n.st, x, y, log2w, log2h - 1, px, py);
      var a := ParseBlock(pic, n.st, x, y, log2w, log2h - 1);
      if a.err.None? {
        LeavesPartition(pic, a.st, x, y', log2w, log2h - 1, px, py);
        CoversTogether(a, ParseBlock(pic, a.st, x, y', log2w, log2h - 1), px, py,
                       InBlock(x, y, log2w, log2h - 1, px, py), InBlock(x, y', log2w, log2h - 1, px, py));
      } else {
        StoppedCovers(a, px, py, InBlock(x, y, log2w, log2h - 1, px, py), InBlock(x, y, log2w, log2h, px, py));
      }
    } else if n.code == 2 {
      Halves(log2w);
      var x' := x + Side(log2w - 1);
      LeavesPartition(pic, n.st, x, y, log2w - 1, log2h, px, py);
      var a := ParseBlock(pic, n.st, x, y, log2w - 1, log2h);
      if a.err.None? {
        LeavesPartition(pic, a.st, x', y, log2w - 1, log2h, px, py);
        CoversTogether(a, ParseBlock(pic, a.st, x', y, log2w - 1, log2h), px, py,
                       InBlock(x, y, log2w - 1, log2h, px, py), InBlock(x', y, log2w - 1, log2h, px, py));
      } else {
        StoppedCovers(a, px, py, InBlock(x, y, log2w - 1, log2h, px, py), InBlock(x, y, log2w, log2h, px, py));
      }
    } else {
      LeafCoversOnce(pic, n.st, n.code, x, y, log2w, log2h, px, py);
    }
  }

  lemma StoppedCovers(a: Parsed, px: int, py: int, part: bool, whole: bool)
    requires CoversOnce(a, px, py, part) && a.err.Some? && (part ==> whole)
    ensures CoversOnce(a, px, py, whole)
  {
  }

  // ---------- painting ----------

  function Row(pic: Picture, p: nat): nat
    requires pic.stride > 0
  {
    p / pic.stride
  }

  function Col(pic: Picture, p: nat): nat
    requires pic.stride > 0
  {
    p % pic.stride
  }

  /** Where the copy of pixel (i, j) of a block reads; a scale of 0 stays in the first row. */
  function SourceAt(pic: Picture, src: int, scale: nat, i: nat, j: nat): int {
    src + (if scale == 0 then 0 else i * pic.stride) + j
  }

  lemma TimesAtMost(a: nat, b: nat, s: nat)
    requires a <= b
    ensures a * s <= b * s
  {
  }

  /** The motion check keeps every source read inside the previous frame. */
  lemma SourceInside(pic: Picture, src: int, scale: nat, log2w: nat, log2h: nat, i: nat, j: nat)
    requires log2w <= 3 && log2h <= 3 && InPicture(pic, src, log2w, log2h) && i < Side(log2h) && j < Side(log2w)
    ensures 0 <= SourceAt(pic, src, scale, i, j) < pic.stride * pic.height
  {
    var s, h := pic.stride, Side(log2h);
    TimesAtMost(i, h - 1, s);
    assert s * (pic.height - h + 1) + (h - 1) * s == s * pic.height;
  }

  /** scale * pixel + dc, before it is cut to 16 bits. */
  function Scaled(scale: nat, v: nat, dc: nat): nat {
    scale * v + dc
  }

  /** A whole row of sources lies inside. */
  lemma RowInside(pic: Picture, src: int, scale: nat, log2w: nat, log2h: nat, i: nat)
    requires log2w <= 3 && log2h <= 3 && InPicture(pic, src, log2w, log2h) && i < Side(log2h)
    ensures var s := SourceAt(pic, src, scale, i, 0); 0 <= s && s + Side(log2w) <= pic.stride * pic.height
  {
    SourceInside(pic, src, scale, log2w, log2h, i, 0);
    SourceInside(pic, src, scale, log2w, log2h, i, Side(log2w) - 1);
  }

  /** Pixel j of a row copied from s. Pixels are written in pairs by 32-bit arithmetic, so the
      left pixel of a pair carries into the right one. */
  function RowPixel(last: seq<nat>, s: nat, scale: nat, dc: nat, j: nat): nat
    requires s + j < |last|
  {
    var v := Scaled(scale, last[s + j], dc);
    if j % 2 == 0 then v % PIXEL else (v + Scaled(scale, last[s + j - 1], dc) / PIXEL) % PIXEL
  }

  /** The pixel as the formula of one pixel gives it. */
  function PlainPixel(last: seq<nat>, s: nat, scale: nat, dc: nat, j: nat): nat
    requires s + j < |last|
  {
    Scaled(scale, last[s + j], dc) % PIXEL
  }

  /** A pair is what the formula gives for each of its pixels if and only if the left one, before
      it is cut to 16 bits, has at most 16 bits. */
  lemma PairIsPlainIffNoCarry(last: seq<nat>, s: nat, scale: nat, dc: nat, j: nat)
    requires s + j + 1 < |last| && j % 2 == 0 && scale <= 1 && dc < PIXEL && last[s + j] < PIXEL
    ensures RowPixel(last, s, scale, dc, j) == PlainPixel(last, s, scale, dc, j)
    ensures RowPixel(last, s, scale, dc, j + 1) == PlainPixel(last, s, scale, dc, j + 1)
            <==> scale * last[s + j] + dc < PIXEL
  {
    hide Scaled;
    var left := Scaled(scale, last[s + j], dc);
    ScaledOnce(scale, last[s + j], dc);
    CarryIs(left);
    AddCarry(Scaled(scale, last[s + j + 1], dc), left / PIXEL);
    assert (j + 1) % 2 == 1;
  }

  lemma ScaledOnce(scale: nat, v: nat, dc: nat)
    requires scale <= 1
    ensures Scaled(scale, v, dc) == scale * v + dc <= v + dc
  {
    assert scale == 0 || scale == 1;
  }

  lemma CarryIs(left: nat)
    requires left < 2 * PIXEL
    ensures left / PIXEL == if left < PIXEL then 0 else 1
  {
  }

  lemma AddCarry(v: nat, c: nat)
    requires c <= 1
    ensures (v + c) % PIXEL == v % PIXEL <==> c == 0
  {
    var q, r := v / PIXEL, v % PIXEL;
    assert v == q * PIXEL + r;
    if c == 1 && r + 1 == PIXEL {
      assert v + c == (q + 1) * PIXEL;
    } else {
      assert v + c == q * PIXEL + (r + c);
    }
  }

  /** Pixel (i, j) of a leaf; old' is what the frame held. */
  ghost function LeafPixel(pic: Picture, last: seq<nat>, l: Leaf, i: nat, j: nat, old': nat): nat
    requires Sound(pic, l) && |last| == pic.stride * pic.height && i < Side(l.log2h) && j < Side(l.log2w)
  {
    match l.op
    case Keep => old'
    case Raw(first, second) => if i + j == 0 then first else second
    case Copy(src, scale, dc) =>
      RowInside(pic, src, scale, l.log2w, l.log2h, i);
      RowPixel(last, SourceAt(pic, src, scale, i, 0), scale, dc, j)
  }

  ghost function Painted(pic: Picture, last: seq<nat>, l: Leaf, p: nat, old': nat): nat
    requires Sound(pic, l) && |last| == pic.stride * pic.height && pic.stride > 0
  {
    if Contains(l, Col(pic, p), Row(pic, p)) then LeafPixel(pic, last, l, Row(pic, p) - l.y, Col(pic, p) - l.x, old')
    else old'
  }

  /** The frame after one leaf. */
  ghost function Paint(pic: Picture, last: seq<nat>, frame: seq<nat>, l: Leaf): (r: seq<nat>)
    requires Sound(pic, l) && |last| == pic.stride * pic.height && pic.stride > 0
    ensures |r| == |frame| && forall p :: 0 <= p < |frame| ==> r[p] == Painted(pic, last, l, p, frame[p])
  {
    seq(|frame|, p requires 0 <= p < |frame| => Painted(pic, last, l, p, frame[p]))
  }

  /** The frame after the first k leaves. */
  ghost function PaintAll(pic: Picture, last: seq<nat>, frame: seq<nat>, leaves: seq<Leaf>, k: nat): (r: seq<nat>)
    requires AllSound(pic, leaves) && |last| == pic.stride * pic.height && pic.stride > 0 && k <= |leaves|
    ensures |r| == |frame|
  {
    if k == 0 then frame else Paint(pic, last, PaintAll(pic, last, frame, leaves, k - 1), leaves[k - 1])
  }

  lemma {:induction false} Unpainted(pic: Picture, last: seq<nat>, frame: seq<nat>, leaves: seq<Leaf>, k: nat, p: nat)
    requires AllSound(pic, leaves) && |last| == pic.stride * pic.height && pic.stride > 0 && k <= |leaves|
    requires p < |frame| && Small(leaves) && Hits(leaves, Col(pic, p), Row(pic, p), k) == 0
    ensures PaintAll(pic, last, frame, leaves, k)[p] == frame[p]
  {
    if k > 0 {
      Unpainted(pic, last, frame, leaves, k - 1, p);
    }
  }

  lemma {:induction false} HitsAtLeast(leaves: seq<Leaf>, px: int, py: int, k: nat, m: nat)
    requires m < k <= |leaves| && Small(leaves) && Contains(leaves[m], px, py)
    ensures Hits(leaves, px, py, k) >= 1
  {
    if m < k - 1 {
      HitsAtLeast(leaves, px, py, k - 1, m);
    }
  }

  /** A pixel that exactly one leaf contains gets that leaf's value. */
  lemma {:induction false} PaintedOnce(pic: Picture, last: seq<nat>, frame: seq<nat>, leaves: seq<Leaf>, k: nat, m: nat,
                                       p: nat)
    requires AllSound(pic, leaves) && |last| == pic.stride * pic.height && pic.stride > 0 && m < k <= |leaves|
    requires p < |frame| && Small(leaves) && Hits(leaves, Col(pic, p), Row(pic, p), k) == 1
    requires Contains(leaves[m], Col(pic, p), Row(pic, p))
    ensures PaintAll(pic, last, frame, leaves, k)[p]
         == LeafPixel(pic, last, leaves[m], Row(pic, p) - leaves[m].y, Col(pic, p) - leaves[m].x, frame[p])
  {
    if m == k - 1 {
      Unpainted(pic, last, frame, leaves, k - 1, p);
    } else {
      HitsAtLeast(leaves, Col(pic, p), Row(pic, p), k - 1, m);
      PaintedOnce(pic, last, frame, leaves, k - 1, m, p);
    }
  }

  lemma {:induction false} PaintPrefix(pic: Picture, last: seq<nat>, frame: seq<nat>, a: seq<Leaf>, b: seq<Leaf>,
                                       k: nat)
    requires AllSound(pic, a) && AllSound(pic, b) && |last| == pic.stride * pic.height && pic.stride > 0
    requires k <= |a| && k <= |b| && forall i :: 0 <= i < k ==> a[i] == b[i]
    ensures PaintAll(pic, last, frame, a, k) == PaintAll(pic, last, frame, b, k)
  {
    hide AllSound, Paint;
    if k > 0 {
      PaintPrefix(pic, last, frame, a, b, k - 1);
    }
  }

  /** Painting two lists of leaves one after the other. */
  lemma {:induction false} PaintTogether(pic: Picture, last: seq<nat>, frame: seq<nat>, a: seq<Leaf>, b: seq<Leaf>,
                                         k: nat)
    requires AllSound(pic, a) && AllSound(pic, b) && AllSound(pic, a + b)
    requires |last| == pic.stride * pic.height && pic.stride > 0 && k <= |b|
    ensures PaintAll(pic, last, frame, a + b, |a| + k)
         == PaintAll(pic, last, PaintAll(pic, last, frame, a, |a|), b, k)
  {
    hide AllSound, Paint;
    if k > 0 {
      PaintTogether(pic, last, frame, a, b, k - 1);
    } else {
      PaintPrefix(pic, last, frame, a + b, a, |a|);
    }
  }

  // ---------- the frame ----------

  /** A picture of whole 8x8 blocks. */
  ghost predicate Blocks(pic: Picture) {
    ValidPicture(pic) && pic.stride % 8 == 0 && pic.height % 8 == 0
  }

  /** The first n blocks of the row of blocks at y, up to the first error. */
  function ParseRow(pic: Picture, st: Streams, y: nat, n: nat): (r: Parsed)
    requires ValidPicture(pic) && ByteStreams(st)
    ensures ByteStreams(r.st)
  {
    if n == 0 then Parsed([], st, None)
    else
      var a := ParseRow(pic, st, y, n - 1);
      if a.err.Some? then a else Then(a, ParseBlock(pic, a.st, 8 * (n - 1), y, 3, 3))
  }

  /** The first m rows of blocks. */
  function ParseRows(pic: Picture, st: Streams, m: nat): (r: Parsed)
    requires ValidPicture(pic) && ByteStreams(st)
    ensures ByteStreams(r.st)
  {
    if m == 0 then Parsed([], st, None)
    else
      var a := ParseRows(pic, st, m - 1);
      if a.err.Some? then a else Then(a, ParseRow(pic, a.st, 8 * (m - 1), pic.stride / 8))
  }

  /** A P frame. */
  function ParseFrame(pic: Picture, st: Streams): Parsed
    requires ValidPicture(pic) && ByteStreams(st)
  {
    ParseRows(pic, st, pic.height / 8)
  }

  lemma {:induction false} RowIsSound(pic: Picture, st: Streams, y: nat, n: nat)
    requires Blocks(pic) && ByteStreams(st) && 8 * n <= pic.stride && y + 8 <= pic.height
    ensures var r := ParseRow(pic, st, y, n);
      AllSound(pic, r.leaves) && (r.err == None || r.err == Some(OutOfPicture))
  {
    hide AllSound, ParseBlock;
    if n > 0 {
      RowIsSound(pic, st, y, n - 1);
      var a := ParseRow(pic, st, y, n - 1);
      LeavesAreSound(pic, a.st, 8 * (n - 1), y, 3, 3);
      OnlyMotionFails(pic, a.st, 8 * (n - 1), y, 3, 3);
      SoundTogether(pic, a.leaves, ParseBlock(pic, a.st, 8 * (n - 1), y, 3, 3).leaves);
    } else {
      NoLeaves(pic);
    }
  }

  lemma NoLeaves(pic: Picture)
    ensures AllSound(pic, []) && Small([])
  {
  }

  lemma {:induction false} RowsAreSound(pic: Picture, st: Streams, m: nat)
    requires Blocks(pic) && ByteStreams(st) && 8 * m <= pic.height
    ensures var r := ParseRows(pic, st, m);
      AllSound(pic, r.leaves) && (r.err == None || r.err == Some(OutOfPicture))
  {
    hide AllSound, ParseRow;
    if m > 0 {
      RowsAreSound(pic, st, m - 1);
      var a := ParseRows(pic, st, m - 1);
      RowIsSound(pic, a.st, 8 * (m - 1), pic.stride / 8);
      SoundTogether(pic, a.leaves, ParseRow(pic, a.st, 8 * (m - 1), pic.stride / 8).leaves);
    } else {
      NoLeaves(pic);
    }
  }

  predicate InArea(w: int, y: int, h: int, px: int, py: int) {
    0 <= px < w && y <= py < y + h
  }

  lemma NothingCovers(st: Streams, px: int, py: int)
    ensures CoversOnce(Parsed([], st, None), px, py, false)
  {
  }

  lemma {:induction false} RowPartition(pic: Picture, st: Streams, y: nat, n: nat, px: int, py: int)
    requires ValidPicture(pic) && ByteStreams(st)
    ensures CoversOnce(ParseRow(pic, st, y, n), px, py, InArea(8 * n, y, 8, px, py))
  {
    hide CoversOnce, ParseBlock;
    if n > 0 {
      RowPartition(pic, st, y, n - 1, px, py);
      var a := ParseRow(pic, st, y, n - 1);
      if a.err.None? {
        LeavesPartition(pic, a.st, 8 * (n - 1), y, 3, 3, px, py);
        CoversTogether(a, ParseBlock(pic, a.st, 8 * (n - 1), y, 3, 3), px, py,
                       InArea(8 * (n - 1), y, 8, px, py), InBlock(8 * (n - 1), y, 3, 3, px, py));
      } else {
        StoppedCovers(a, px, py, InArea(8 * (n - 1), y, 8, px, py), InArea(8 * n, y, 8, px, py));
      }
    } else {
      NothingCovers(st, px, py);
    }
  }

  lemma {:induction false} RowsPartition(pic: Picture, st: Streams, m: nat, px: int, py: int)
    requires Blocks(pic) && ByteStreams(st)
    ensures CoversOnce(ParseRows(pic, st, m), px, py, InArea(pic.stride, 0, 8 * m, px, py))
  {
    hide CoversOnce, ParseRow;
    if m > 0 {
      RowsPartition(pic, st, m - 1, px, py);
      var a := ParseRows(pic, st, m - 1);
      if a.err.None? {
        RowPartition(pic, a.st, 8 * (m - 1), pic.stride / 8, px, py);
        CoversTogether(a, ParseRow(pic, a.st, 8 * (m - 1), pic.stride / 8), px, py,
                       InArea(pic.stride, 0, 8 * (m - 1), px, py), InArea(pic.stride, 8 * (m - 1), 8, px, py));
      } else {
        StoppedCovers(a, px, py, InArea(pic.stride, 0, 8 * (m - 1), px, py), InArea(pic.stride, 0, 8 * m, px, py));
      }
    } else {
      NothingCovers(st, px, py);
    }
  }

  lemma {:induction false} FindLeaf(leaves: seq<Leaf>, px: int, py: int, k: nat) returns (m: nat)
    requires Small(leaves) && k <= |leaves| && Hits(leaves, px, py, k) > 0
    ensures m < k && Contains(leaves[m], px, py)
  {
    if Contains(leaves[k - 1], px, py) {
      m := k - 1;
    } else {
      m := FindLeaf(leaves, px, py, k - 1);
    }
  }

  lemma PixelInFrame(pic: Picture, p: nat)
    requires pic.stride > 0 && p < pic.stride * pic.height
    ensures Col(pic, p) < pic.stride && Row(pic, p) < pic.height
  {
    if Row(pic, p) >= pic.height {
      TimesAtMost(pic.height, Row(pic, p), pic.stride);
    }
  }

  /** A P frame that is decoded without error gives every pixel the value of the one leaf that
      contains it, whatever the bits were. */
  lemma FrameIsPainted(pic: Picture, st: Streams, last: seq<nat>, frame: seq<nat>, p: nat) returns (m: nat)
    requires Blocks(pic) && ByteStreams(st) && |last| == |frame| == pic.stride * pic.height && p < |frame|
    requires ParseFrame(pic, st).err == None
    ensures var leaves := ParseFrame(pic, st).leaves;
      && AllSound(pic, leaves) && m < |leaves| && Contains(leaves[m], Col(pic, p), Row(pic, p))
      && (forall n :: 0 <= n < |leaves| && Contains(leaves[n], Col(pic, p), Row(pic, p)) ==> n == m)
      && PaintAll(pic, last, frame, leaves, |leaves|)[p]
         == LeafPixel(pic, last, leaves[m], Row(pic, p) - leaves[m].y, Col(pic, p) - leaves[m].x, frame[p])
  {
    hide ParseRows, LeafPixel, AllSound, Row, Col, Contains;
    var leaves, px, py := ParseFrame(pic, st).leaves, Col(pic, p), Row(pic, p);
    RowsAreSound(pic, st, pic.height / 8);
    RowsPartition(pic, st, pic.height / 8, px, py);
    PixelInFrame(pic, p);
    m := FindLeaf(leaves, px, py, |leaves|);
    forall n | 0 <= n < |leaves| && Contains(leaves[n], px, py) ensures n == m {
      if n != m {
        TwoHits(leaves, px, py, |leaves|, if n < m then n else m, if n < m then m else n);
      }
    }
    PaintedOnce(pic, last, frame, leaves, |leaves|, m, p);
  }

  lemma {:induction false} TwoHits(leaves: seq<Leaf>, px: int, py: int, k: nat, m: nat, n: nat)
    requires Small(leaves) && m < n < k <= |leaves| && Contains(leaves[m], px, py) && Contains(leaves[n], px, py)
    ensures Hits(leaves, px, py, k) >= 2
  {
    if n == k - 1 {
      HitsAtLeast(leaves, px, py, k - 1, m);
    } else {
      TwoHits(leaves, px, py, k - 1, m, n);
    }
  }

  // ---------- decoding in place ----------

  /** One 32-bit multiply-add on two neighbouring pixels. */
  lemma PairArithmetic(lo: nat, hi: nat, scale: nat, dc: nat)
    ensures var v := ((lo + PIXEL * hi) * scale + dc * 0x10001) % (PIXEL * PIXEL);
      && v % PIXEL == Scaled(scale, lo, dc) % PIXEL
      && v / PIXEL == (Scaled(scale, hi, dc) + Scaled(scale, lo, dc) / PIXEL) % PIXEL
  {
    var a, b := Scaled(scale, lo, dc), Scaled(scale, hi, dc);
    assert (lo + PIXEL * hi) * scale == lo * scale + PIXEL * (hi * scale);
    assert (lo + PIXEL * hi) * scale + dc * 0x10001 == a + PIXEL * b;
    SplitWord(a, b);
  }

  /** A pair within a row is a row of its own. */
  lemma RowShift(last: seq<nat>, s: nat, scale: nat, dc: nat, j: nat)
    requires s + j + 2 <= |last| && j % 2 == 0
    ensures RowPixel(last, s + j, scale, dc, 0) == RowPixel(last, s, scale, dc, j)
    ensures RowPixel(last, s + j, scale, dc, 1) == RowPixel(last, s, scale, dc, j + 1)
  {
  }

  lemma OnePixel(last: seq<nat>, s: nat, scale: nat, dc: nat)
    requires s < |last|
    ensures (scale * last[s] + dc * 0x10001) % PIXEL == RowPixel(last, s, scale, dc, 0)
  {
    LowHalf(Scaled(scale, last[s], dc), dc);
  }

  lemma LowHalf(a: nat, dc: nat)
    ensures (a + dc * 0x10000) % PIXEL == a % PIXEL
  {
  }

  lemma SplitWord(a: nat, b: nat)
    ensures var v := (a + PIXEL * b) % (PIXEL * PIXEL); v % PIXEL == a % PIXEL && v / PIXEL == (b + a / PIXEL) % PIXEL
  {
  }

  lemma RowCells(pic: Picture, r: nat, x: nat, n: nat, p: nat)
    requires pic.stride > 0 && x + n <= pic.stride
    ensures r * pic.stride + x <= p < r * pic.stride + x + n <==> Row(pic, p) == r && x <= Col(pic, p) < x + n
    ensures Row(pic, p) == r ==> p == r * pic.stride + Col(pic, p)
  {
    var s := pic.stride;
    assert p == Row(pic, p) * s + Col(pic, p);
    if Row(pic, p) < r {
      TimesAtMost(Row(pic, p) + 1, r, s);
      assert (Row(pic, p) + 1) * s == Row(pic, p) * s + s;
    } else if Row(pic, p) > r {
      TimesAtMost(r + 1, Row(pic, p), s);
      assert (r + 1) * s == r * s + s;
    }
  }

  /** The first i rows of a copied leaf painted. */
  ghost function RowsPainted(pic: Picture, last: seq<nat>, frame: seq<nat>, l: Leaf, i: nat): (r: seq<nat>)
    requires Sound(pic, l) && |last| == pic.stride * pic.height && pic.stride > 0
    ensures |r| == |frame|
    ensures forall p :: 0 <= p < |frame| ==>
      r[p] == if Row(pic, p) < l.y + i then Painted(pic, last, l, p, frame[p]) else frame[p]
  {
    seq(|frame|, p requires 0 <= p < |frame| =>
      if Row(pic, p) < l.y + i then Painted(pic, last, l, p, frame[p]) else frame[p])
  }

  lemma OneRowMore(pic: Picture, last: seq<nat>, f0: seq<nat>, f: seq<nat>, f': seq<nat>, l: Leaf, i: nat,
                   dst: nat, s: nat)
    requires Sound(pic, l) && l.op.Copy? && |last| == |f0| == |f| == |f'| == pic.stride * pic.height && pic.stride > 0
    requires i < Side(l.log2h) && f == RowsPainted(pic, last, f0, l, i)
    requires dst == (l.y + i) * pic.stride + l.x && s == SourceAt(pic, l.op.src, l.op.scale, i, 0)
    requires s + Side(l.log2w) <= |last|
    requires forall p :: 0 <= p < |f| ==>
      f'[p] == if dst <= p < dst + Side(l.log2w) then RowPixel(last, s, l.op.scale, l.op.dc, p - dst) else f[p]
    ensures f' == RowsPainted(pic, last, f0, l, i + 1)
  {
    hide RowPixel, Row, Col, InPicture, Side;
    forall p | 0 <= p < |f| ensures f'[p] == RowsPainted(pic, last, f0, l, i + 1)[p] {
      RowCells(pic, l.y + i, l.x, Side(l.log2w), p);
    }
  }

  lemma NoRows(pic: Picture, last: seq<nat>, f: seq<nat>, l: Leaf)
    requires Sound(pic, l) && |last| == |f| == pic.stride * pic.height && pic.stride > 0
    ensures RowsPainted(pic, last, f, l, 0) == f
    ensures RowsPainted(pic, last, f, l, Side(l.log2h)) == Paint(pic, last, f, l)
  {
    hide LeafPixel, Row, Col, InPicture, Side;
    var g, h := RowsPainted(pic, last, f, l, Side(l.log2h)), Paint(pic, last, f, l);
    forall p | 0 <= p < |f| ensures g[p] == h[p] {
    }
    assert RowsPainted(pic, last, f, l, 0) == f;
  }

  lemma RowFits(pic: Picture, l: Leaf, i: nat)
    requires Sound(pic, l) && i < Side(l.log2h)
    ensures (l.y + i) * pic.stride + l.x + Side(l.log2w) <= pic.stride * pic.height
    ensures (l.y + i + 1) * pic.stride + l.x == (l.y + i) * pic.stride + l.x + pic.stride
    ensures (i + 1) * pic.stride == i * pic.stride + pic.stride
  {
    TimesAtMost(l.y + i + 1, pic.height, pic.stride);
    assert (l.y + i + 1) * pic.stride == (l.y + i) * pic.stride + pic.stride;
  }

  class FourXContext {
    const pic: Picture
    const frame: array<nat>
    const last: array<nat>
    var st: Streams

    /** Both frame buffers black, and the streams of a frame. */
    constructor (pic: Picture, st: Streams)
      requires ValidPicture(pic) && ByteStreams(st)
      ensures Valid() && this.pic == pic && this.st == st && fresh(frame) && fresh(last)
    {
      this.pic, this.st := pic, st;
      frame := new nat[pic.stride * pic.height](_ => 0);
      last := new nat[pic.stride * pic.height](_ => 0);
    }

    ghost predicate Valid()
      reads this, last
    {
      && ValidPicture(pic) && ByteStreams(st) && frame != last
      && frame.Length == last.Length == pic.stride * pic.height
    }

    /** LE_CENTRIC_MUL: two pixels at a time. */
    method LeCentricMul(dst: nat, src: nat, scale: nat, dc: nat)
      requires frame != last && dst + 2 <= frame.Length && src + 2 <= last.Length
      modifies frame
      ensures forall p :: 0 <= p < frame.Length ==>
        frame[p] == if dst <= p < dst + 2 then RowPixel(last[..], src, scale, dc, p - dst) else old(frame[p])
    {
      PairArithmetic(last[src], last[src + 1], scale, dc);
      var tmpval := ((last[src] + PIXEL * last[src + 1]) * scale + dc * 0x10001) % (PIXEL * PIXEL);
      frame[dst] := tmpval % PIXEL;
      frame[dst + 1] := tmpval / PIXEL;
    }

    /** One row of mcdc. */
    method McdcRow(dst: nat, src: nat, log2w: nat, scale: nat, dc: nat)
      requires log2w <= 3 && frame != last && dst + Side(log2w) <= frame.Length && src + Side(log2w) <= last.Length
      modifies frame
      ensures forall p :: 0 <= p < frame.Length ==>
        frame[p] == if dst <= p < dst + Side(log2w) then RowPixel(last[..], src, scale, dc, p - dst) else old(frame[p])
    {
      hide RowPixel, Scaled;
      if log2w == 0 {
        frame[dst] := (scale * last[src] + dc * 0x10001) % PIXEL;
        OnePixel(last[..], src, scale, dc);
      } else {
        LeCentricMul(dst, src, scale, dc);
        if log2w >= 2 {
          RowShift(last[..], src, scale, dc, 2);
          LeCentricMul(dst + 2, src + 2, scale, dc);
        }
        if log2w >= 3 {
          RowShift(last[..], src, scale, dc, 4);
          LeCentricMul(dst + 4, src + 4, scale, dc);
          RowShift(last[..], src, scale, dc, 6);
          LeCentricMul(dst + 6, src + 6, scale, dc);
        }
      }
    }

    /** mcdc: copies a block, or fills it with dc when the scale is 0. */
    method Mcdc(dst: nat, src: nat, log2w: nat, h: nat, scale: nat, dc: nat, ghost l: Leaf)
      requires Valid() && Sound(pic, l) && l.log2w == log2w && h == Side(l.log2h) && l.op == Copy(src, scale, dc)
      requires dst == l.y * pic.stride + l.x
      modifies frame
      ensures frame[..] == Paint(pic, last[..], old(frame[..]), l)
    {
      hide Sound, Paint, RowsPainted, SourceAt, InPicture;
      ghost var f0 := frame[..];
      var d, s := dst, src;
      NoRows(pic, last[..], f0, l);
      FirstSource(pic, src, scale);
      SoundCopy(pic, l);
      for i := 0 to h
        invariant d == (l.y + i) * pic.stride + l.x
        invariant s == SourceAt(pic, src, scale, i, 0)
        invariant frame[..] == RowsPainted(pic, last[..], f0, l, i)
      {
        ghost var f := frame[..];
        RowFits(pic, l, i);
        RowInside(pic, src, scale, l.log2w, l.log2h, i);
        McdcRow(d, s, log2w, scale, dc);
        OneRowMore(pic, last[..], f0, f, frame[..], l, i, d, s);
        NextSource(pic, src, scale, i);
        if scale != 0 {
          s := s + pic.stride;
        }
        d := d + pic.stride;
      }
    }

    /** The blocks of one row. */
    method DecodeRow(dst: nat, ghost y: nat) returns (err: Option<Error>)
      requires Valid() && Blocks(pic) && dst == y * pic.stride && y + 8 <= pic.height
      modifies this, frame
      ensures Valid() && last[..] == old(last[..])
      ensures var r := ParseRow(pic, old(st), y, pic.stride / 8);
        && st == r.st && err == r.err && AllSound(pic, r.leaves)
        && frame[..] == PaintAll(pic, last[..], old(frame[..]), r.leaves, |r.leaves|)
    {
      hide PaintAll, Paint, AllSound, Sound, ByteStreams, ParseBlock;
      ghost var st0, f0 := st, frame[..];
      NothingPainted(pic, last[..], f0);
      ghost var n: nat := 0;
      err := None;
      var x := 0;
      while x < pic.stride
        invariant Valid() && last[..] == old(last[..]) && err == None
        invariant x == 8 * n && n <= pic.stride / 8
        invariant var r := ParseRow(pic, st0, y, n);
          && st == r.st && r.err == None && AllSound(pic, r.leaves)
          && frame[..] == PaintAll(pic, last[..], f0, r.leaves, |r.leaves|)
        decreases pic.stride - x
      {
        ghost var a := ParseRow(pic, st0, y, n);
        ghost var b := ParseBlock(pic, a.st, x, y, 3, 3);
        err := DecodePBlock(dst + x, dst + x, 3, 3, x, y);
        SoundTogether(pic, a.leaves, b.leaves);
        PaintTogether(pic, last[..], f0, a.leaves, b.leaves, |b.leaves|);
        n := n + 1;
        StopsThere(pic, st0, y, n, pic.stride / 8);
        if err != None {
          return;
        }
        x := x + 8;
      }
    }

    /** decode_p_frame: all blocks, row by row. */
    method DecodePFrame() returns (err: Option<Error>)
      requires Valid() && Blocks(pic)
      modifies this, frame
      ensures Valid() && last[..] == old(last[..])
      ensures var r := ParseFrame(pic, old(st));
        && st == r.st && err == r.err && AllSound(pic, r.leaves)
        && frame[..] == PaintAll(pic, last[..], old(frame[..]), r.leaves, |r.leaves|)
    {
      hide PaintAll, Paint, AllSound, Sound, ByteStreams, ParseRow;
      ghost var st0, f0 := st, frame[..];
      NothingPainted(pic, last[..], f0);
      ghost var m: nat := 0;
      err := None;
      var y, dst := 0, 0;
      while y < pic.height
        invariant Valid() && last[..] == old(last[..]) && err == None
        invariant y == 8 * m && m <= pic.height / 8 && dst == y * pic.stride
        invariant var r := ParseRows(pic, st0, m);
          && st == r.st && r.err == None && AllSound(pic, r.leaves)
          && frame[..] == PaintAll(pic, last[..], f0, r.leaves, |r.leaves|)
        decreases pic.height - y
      {
        ghost var a := ParseRows(pic, st0, m);
        ghost var b := ParseRow(pic, a.st, y, pic.stride / 8);
        err := DecodeRow(dst, y);
        SoundTogether(pic, a.leaves, b.leaves);
        PaintTogether(pic, last[..], f0, a.leaves, b.leaves, |b.leaves|);
        m := m + 1;
        FrameStopsThere(pic, st0, m, pic.height / 8);
        if err != None {
          return;
        }
        y := y + 8;
        dst := dst + 8 * pic.stride;
      }
    }

    /** decode_p_block: reads the block and paints its leaves, up to the first error. */
    method DecodePBlock(dst: nat, src: nat, log2w: int, log2h: int, ghost x: nat, ghost y: nat)
      returns (err: Option<Error>)
      requires Valid() && Inside(pic, x, y, log2w, log2h) && dst == src == y * pic.stride + x
      modifies this, frame
      ensures Valid() && last[..] == old(last[..])
      ensures var r := ParseBlock(pic, old(st), x, y, log2w, log2h);
        && st == r.st && err == r.err && AllSound(pic, r.leaves)
        && frame[..] == PaintAll(pic, last[..], old(frame[..]), r.leaves, |r.leaves|)
      decreases log2w + log2h, 0
    {
      hide PaintAll, Paint, AllSound, Sound, ReadNext, ParseLeaf, ByteStreams;
      AnyLeavesAreSound(pic, st, x, y, log2w, log2h);
      StreamsMoved(st);
      NothingPainted(pic, last[..], frame[..]);
      if log2h < 0 || log2w < 0 {
        return Some(NegativeSize);
      }
      match ReadNext(pic, st, log2w, log2h)
      case Failed(e) => return Some(e);
      case Next(code, st1) =>
        st := st1;
        if code == 1 {
          if log2h == 0 {
            return Some(NegativeSize);
          }
          err := SplitRows(dst, src, log2w, log2h - 1, x, y);
        } else if code == 2 {
          if log2w == 0 {
            return Some(NegativeSize);
          }
          err := SplitColumns(dst, src, log2w - 1, log2h, x, y);
        } else {
          err := DecodeLeaf(code, dst, src, log2w, log2h, x, y);
        }
    }

    /** Code 1: the upper half, then the lower half. */
    method SplitRows(dst: nat, src: nat, log2w: nat, log2h: nat, ghost x: nat, ghost y: nat)
      returns (err: Option<Error>)
      requires Valid() && log2h < 3 && Inside(pic, x, y, log2w, log2h + 1) && dst == src == y * pic.stride + x
      modifies this, frame
      ensures Valid() && last[..] == old(last[..])
      ensures var a := ParseBlock(pic, old(st), x, y, log2w, log2h);
        var r := if a.err.Some? then a else Then(a, ParseBlock(pic, a.st, x, y + Side(log2h), log2w, log2h));
        && st == r.st && err == r.err && AllSound(pic, r.leaves)
        && frame[..] == PaintAll(pic, last[..], old(frame[..]), r.leaves, |r.leaves|)
      decreases log2w + log2h, 1
    {
      hide ParseBlock, Paint, PaintAll, Sound, AllSound, ByteStreams;
      Halves(log2h + 1);
      ghost var f, a := frame[..], ParseBlock(pic, st, x, y, log2w, log2h);
      err := DecodePBlock(dst, src, log2w, log2h, x, y);
      if err == None {
        var down := pic.stride * Side(log2h);
        assert (y + Side(log2h)) * pic.stride == y * pic.stride + down;
        ghost var b := ParseBlock(pic, a.st, x, y + Side(log2h), log2w, log2h);
        err := DecodePBlock(dst + down, src + down, log2w, log2h, x, y + Side(log2h));
        SoundTogether(pic, a.leaves, b.leaves);
        PaintTogether(pic, last[..], f, a.leaves, b.leaves, |b.leaves|);
      }
    }

    /** Code 2: the left half, then the right half. */
    method SplitColumns(dst: nat, src: nat, log2w: nat, log2h: nat, ghost x: nat, ghost y: nat)
      returns (err: Option<Error>)
      requires Valid() && log2w < 3 && Inside(pic, x, y, log2w + 1, log2h) && dst == src == y * pic.stride + x
      modifies this, frame
      ensures Valid() && last[..] == old(last[..])
      ensures var a := ParseBlock(pic, old(st), x, y, log2w, log2h);
        var r := if a.err.Some? then a else Then(a, ParseBlock(pic, a.st, x + Side(log2w), y, log2w, log2h));
        && st == r.st && err == r.err && AllSound(pic, r.leaves)
        && frame[..] == PaintAll(pic, last[..], old(frame[..]), r.leaves, |r.leaves|)
      decreases log2w + log2h, 1
    {
      hide ParseBlock, Paint, PaintAll, Sound, AllSound, ByteStreams;
      Halves(log2w + 1);
      ghost var f, a := frame[..], ParseBlock(pic, st, x, y, log2w, log2h);
      err := DecodePBlock(dst, src, log2w, log2h, x, y);
      if err == None {
        ghost var b := ParseBlock(pic, a.st, x + Side(log2w), y, log2w, log2h);
        err := DecodePBlock(dst + Side(log2w), src + Side(log2w), log2w, log2h, x + Side(log2w), y);
        SoundTogether(pic, a.leaves, b.leaves);
        PaintTogether(pic, last[..], f, a.leaves, b.leaves, |b.leaves|);
      }
    }

    method NextByte() returns (v: nat)
      requires ByteStreams(st)
      modifies this
      ensures (v, st) == GetByte(old(st)) && v < 256 && ByteStreams(st)
    {
      WordBelow(st);
      var r := GetByte(st);
      v, st := r.0, r.1;
    }

    method NextLe16() returns (v: nat)
      requires ByteStreams(st)
      modifies this
      ensures (v, st) == GetLe16(old(st)) && v < PIXEL && ByteStreams(st)
    {
      WordBelow(st);
      var r := GetLe16(st);
      v, st := r.0, r.1;
    }

    /** A block that is not split. */
    method DecodeLeaf(code: nat, dst: nat, src0: nat, log2w: nat, log2h: nat, ghost x: nat, ghost y: nat)
      returns (err: Option<Error>)
      requires Valid() && Inside(pic, x, y, log2w, log2h) && dst == src0 == y * pic.stride + x
      requires AllSound(pic, ParseLeaf(pic, st, code, x, y, log2w, log2h).leaves)
      modifies this, frame
      ensures Valid() && last[..] == old(last[..])
      ensures var r := ParseLeaf(pic, old(st), code, x, y, log2w, log2h);
        && st == r.st && err == r.err
        && frame[..] == PaintAll(pic, last[..], old(frame[..]), r.leaves, |r.leaves|)
    {
      ghost var r := ParseLeaf(pic, st, code, x, y, log2w, log2h);
      LeafKeepsStreams(pic, st, code, x, y, log2w, log2h);
      if code == 6 {
        var first := NextLe16();
        var second := NextLe16();
        PaintRaw(first, second, dst, log2w, r.leaves[0]);
        return None;
      }
      if code == 3 && pic.version >= 2 {
        KeepPaintsNothing(pic, last[..], frame[..], r.leaves[0]);
        return None;
      }
      var src: int := src0;
      var scale, dc := 1, 0;
      if code == 0 || code == 4 {
        var vector := NextByte();
        src := src + pic.mv[vector];
      }
      if code == 4 || code == 5 {
        dc := NextLe16();
      }
      if code == 5 {
        scale := 0;
      }
      if !InPicture(pic, src, log2w, log2h) {
        return Some(OutOfPicture);
      }
      Mcdc(dst, src, log2w, Side(log2h), scale, dc, r.leaves[0]);
      return None;
    }

    /** Code 6: two pixels side by side, or one below the other. */
    method PaintRaw(first: nat, second: nat, dst: nat, log2w: nat, ghost l: Leaf)
      requires Valid() && Sound(pic, l) && l.op == Raw(first, second) && l.log2w == log2w
          && dst == l.y * pic.stride + l.x
      modifies frame
      ensures frame[..] == Paint(pic, last[..], old(frame[..]), l)
    {
      RowFits(pic, l, 0);
      ghost var f := frame[..];
      if log2w != 0 {
        frame[dst] := first;
        frame[dst + 1] := second;
        forall p | 0 <= p < |f| ensures frame[..][p] == Paint(pic, last[..], f, l)[p] {
          RowCells(pic, l.y, l.x, 2, p);
        }
      } else {
        RowFits(pic, l, 1);
        frame[dst] := first;
        frame[dst + pic.stride] := second;
        forall p | 0 <= p < |f| ensures frame[..][p] == Paint(pic, last[..], f, l)[p] {
          RowCells(pic, l.y, l.x, 1, p);
          RowCells(pic, l.y + 1, l.x, 1, p);
        }
      }
    }
  }

  lemma {:induction false} StopsThere(pic: Picture, st: Streams, y: nat, n: nat, k: nat)
    requires ValidPicture(pic) && ByteStreams(st) && n <= k
    ensures ParseRow(pic, st, y, n).err.Some? ==> ParseRow(pic, st, y, k) == ParseRow(pic, st, y, n)
  {
    hide ParseBlock, ByteStreams;
    if n < k {
      StopsThere(pic, st, y, n, k - 1);
    }
  }

  lemma {:induction false} FrameStopsThere(pic: Picture, st: Streams, m: nat, k: nat)
    requires ValidPicture(pic) && ByteStreams(st) && m <= k
    ensures ParseRows(pic, st, m).err.Some? ==> ParseRows(pic, st, k) == ParseRows(pic, st, m)
  {
    hide ParseRow, ByteStreams;
    if m < k {
      FrameStopsThere(pic, st, m, k - 1);
    }
  }

  lemma StreamsMoved(st: Streams)
    ensures forall pos: nat {:trigger st.(pos := pos)} :: ByteStreams(st) ==> ByteStreams(st.(pos := pos))
  {
  }

  lemma NothingPainted(pic: Picture, last: seq<nat>, frame: seq<nat>)
    requires |last| == pic.stride * pic.height && pic.stride > 0
    ensures AllSound(pic, []) && PaintAll(pic, last, frame, [], 0) == frame
  {
  }

  lemma KeepPaintsNothing(pic: Picture, last: seq<nat>, frame: seq<nat>, l: Leaf)
    requires Sound(pic, l) && l.op == Keep && |last| == pic.stride * pic.height && pic.stride > 0
    ensures Paint(pic, last, frame, l) == frame
  {
  }

  lemma FirstSource(pic: Picture, src: int, scale: nat)
    ensures SourceAt(pic, src, scale, 0, 0) == src
  {
  }

  lemma NextSource(pic: Picture, src: int, scale: nat, i: nat)
    ensures SourceAt(pic, src, scale, i + 1, 0) == SourceAt(pic, src, scale, i, 0)
        + if scale != 0 then pic.stride else 0
  {
    assert (i + 1) * pic.stride == i * pic.stride + pic.stride;
  }

  lemma SoundCopy(pic: Picture, l: Leaf)
    requires Sound(pic, l) && l.op.Copy?
    ensures l.log2w <= 3 && l.log2h <= 3 && InPicture(pic, l.op.src, l.log2w, l.log2h)
  {
  }
}
