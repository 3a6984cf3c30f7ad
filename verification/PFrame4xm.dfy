/** What a 4X Movie P frame means, said without the decoder: how blocks are written as code words,
    motion bytes and 16-bit words, and which picture they stand for. The decoder of decode_p_block
    and decode_p_frame (libavcodec/4xm.c) reads every such frame back. */
module PFrame4xm {
  import opened Wrappers
  import opened Sums
  import opened BitIO
  import opened PBlock4xm

  /** A block: two halves above each other or side by side, or one kind of leaf. */
  datatype Block =
    | Stacked(top: Block, bottom: Block)
    | Abreast(left: Block, right: Block)
    | Moved(vector: nat)                    // the previous frame, displaced
    | Still                                 // as before, or copied in place by old versions
    | MovedPlus(vector: nat, dc: nat)       // displaced, and brighter
    | Filled(color: nat)
    | Two(first: nat, second: nat)          // two pixels

  // ---------- how it is written ----------

  /** The number of a block's code. */
  function CodeOf(b: Block): nat {
    match b
    case Moved(_) => 0
    case Stacked(_, _) => 1
    case Abreast(_, _) => 2
    case Still => 3
    case MovedPlus(_, _) => 4
    case Filled(_) => 5
    case Two(_, _) => 6
  }

  /** The code words of the versions above 1: blocks of two pixels, rows, columns, and others. */
  function NewWord(log2w: nat, log2h: nat, code: nat): string {
    if log2w + log2h == 1 then
      match code case 0 => "0" case 3 => "10" case 4 => "110" case 5 => "1110" case 6 => "1111" case _ => ""
    else if log2h == 0 then
      match code case 0 => "0" case 2 => "10" case 3 => "110" case 4 => "1110" case 5 => "1111" case _ => ""
    else if log2w == 0 then
      match code case 0 => "0" case 1 => "10" case 3 => "110" case 4 => "1110" case 5 => "1111" case _ => ""
    else
      match code case 0 => "0" case 1 => "10" case 2 => "110" case 3 => "1110" case 4 => "11110" case 5 => "11111"
      case _ => ""
  }

  /** The code words of versions 0 and 1. */
  function OldWord(log2w: nat, log2h: nat, code: nat): string {
    if log2w + log2h == 1 then
      match code case 0 => "01" case 3 => "00" case 4 => "10" case 5 => "110" case 6 => "111" case _ => ""
    else if log2h == 0 then
      match code case 0 => "01" case 2 => "10" case 3 => "00" case 4 => "110" case 5 => "111" case _ => ""
    else if log2w == 0 then
      match code case 0 => "01" case 1 => "10" case 3 => "00" case 4 => "110" case 5 => "111" case _ => ""
    else
      match code case 0 => "01" case 1 => "100" case 2 => "101" case 3 => "00" case 4 => "110" case 5 => "111"
      case _ => ""
  }

  function Word(pic: Picture, log2w: nat, log2h: nat, code: nat): string {
    if pic.version > 1 then NewWord(log2w, log2h, code) else OldWord(log2w, log2h, code)
  }

  function Digits(s: string): (b: Bits)
    ensures |b| == |s| && forall i :: 0 <= i < |s| ==> b[i] == (s[i] == '1')
  {
    seq(|s|, i requires 0 <= i < |s| => s[i] == '1')
  }

  /** Every part of the block has a code word, and its numbers fit their fields. */
  ghost predicate Writable(pic: Picture, b: Block, log2w: int, log2h: int)
    decreases b
  {
    && 0 <= log2w <= 3 && 0 <= log2h <= 3 && log2w + log2h > 0 && Word(pic, log2w, log2h, CodeOf(b)) != ""
    && match b
       case Stacked(top, bottom) => Writable(pic, top, log2w, log2h - 1) && Writable(pic, bottom, log2w, log2h - 1)
       case Abreast(left, right) => Writable(pic, left, log2w - 1, log2h) && Writable(pic, right, log2w - 1, log2h)
       case Moved(vector) => vector < 256
       case Still => true
       case MovedPlus(vector, dc) => vector < 256 && dc < PIXEL
       case Filled(color) => color < PIXEL
       case Two(first, second) => first < PIXEL && second < PIXEL
  }

  function BlockBits(pic: Picture, b: Block, log2w: int, log2h: int): Bits
    decreases b
  {
    var word := if log2w < 0 || log2h < 0 then [] else Digits(Word(pic, log2w, log2h, CodeOf(b)));
    match b
    case Stacked(top, bottom) =>
      word + (BlockBits(pic, top, log2w, log2h - 1) + BlockBits(pic, bottom, log2w, log2h - 1))
    case Abreast(left, right) =>
      word + (BlockBits(pic, left, log2w - 1, log2h) + BlockBits(pic, right, log2w - 1, log2h))
    case _ => word
  }

  /** The motion bytes, in coding order. */
  function BlockBytes(b: Block): seq<nat> {
    match b
    case Stacked(top, bottom) => BlockBytes(top) + BlockBytes(bottom)
    case Abreast(left, right) => BlockBytes(left) + BlockBytes(right)
    case Moved(vector) => [vector]
    case MovedPlus(vector, _) => [vector]
    case _ => []
  }

  /** A 16-bit word, the low byte first. */
  function LowFirst(v: nat): seq<nat> {
    [v % 256, v / 256]
  }

  /** The 16-bit words, in coding order. */
  function BlockWords(b: Block): seq<nat> {
    match b
    case Stacked(top, bottom) => BlockWords(top) + BlockWords(bottom)
    case Abreast(left, right) => BlockWords(left) + BlockWords(right)
    case MovedPlus(_, dc) => LowFirst(dc)
    case Filled(color) => LowFirst(color)
    case Two(first, second) => LowFirst(first) + LowFirst(second)
    case _ => []
  }

  /** The streams begin with the block. */
  predicate Begins(pic: Picture, st: Streams, b: Block, log2w: int, log2h: int) {
    && StartsAt(st.bits, st.pos, BlockBits(pic, b, log2w, log2h))
    && BlockBytes(b) <= st.bytes && BlockWords(b) <= st.words
  }

  /** The streams after the block. */
  function After(pic: Picture, st: Streams, b: Block, log2w: int, log2h: int): Streams
    requires BlockBytes(b) <= st.bytes && BlockWords(b) <= st.words
  {
    Streams(st.bits, st.pos + |BlockBits(pic, b, log2w, log2h)|, st.bytes[|BlockBytes(b)|..],
            st.words[|BlockWords(b)|..])
  }

  // ---------- what it stands for ----------

  function HalfOf(log2: int): int {
    if log2 == 3 then 4 else if log2 == 2 then 2 else 1
  }

  function SideOf(log2: int): int {
    if log2 == 3 then 8 else if log2 == 2 then 4 else if log2 == 1 then 2 else 1
  }

  /** A displaced block lies within the memory of the previous frame: its first pixel does not come
      before the frame, and its last not after it. */
  predicate MoveInside(pic: Picture, x: nat, y: nat, log2w: int, log2h: int, offset: int) {
    var first := y * pic.stride + x + offset;
    0 <= first && first + (SideOf(log2h) - 1) * pic.stride + SideOf(log2w) <= pic.stride * pic.height
  }

  /** All motion of the block stays inside. */
  ghost predicate MovesInside(pic: Picture, b: Block, x: nat, y: nat, log2w: int, log2h: int)
    decreases b
  {
    match b
    case Stacked(top, bottom) =>
      MovesInside(pic, top, x, y, log2w, log2h - 1) && MovesInside(pic, bottom, x, y + HalfOf(log2h), log2w, log2h - 1)
    case Abreast(left, right) =>
      MovesInside(pic, left, x, y, log2w - 1, log2h) && MovesInside(pic, right, x + HalfOf(log2w), y, log2w - 1, log2h)
    case Moved(vector) => vector < |pic.mv| && MoveInside(pic, x, y, log2w, log2h, pic.mv[vector])
    case MovedPlus(vector, _) => vector < |pic.mv| && MoveInside(pic, x, y, log2w, log2h, pic.mv[vector])
    case _ => true
  }

  /** The pixel of the previous frame at p, black outside. */
  function At(last: seq<nat>, p: int): nat {
    if 0 <= p < |last| then last[p] else 0
  }

  /** Pixel (px, py) of the picture that the block stands for, over a frame that held old there. */
  function Shown(pic: Picture, last: seq<nat>, b: Block, x: nat, y: nat, log2w: int, log2h: int, px: nat, py: nat,
                 old': nat): nat
    decreases b
  {
    var p := py * pic.stride + px;
    match b
    case Stacked(top, bottom) =>
      if py < y + HalfOf(log2h) then Shown(pic, last, top, x, y, log2w, log2h - 1, px, py, old')
      else Shown(pic, last, bottom, x, y + HalfOf(log2h), log2w, log2h - 1, px, py, old')
    case Abreast(left, right) =>
      if px < x + HalfOf(log2w) then Shown(pic, last, left, x, y, log2w - 1, log2h, px, py, old')
      else Shown(pic, last, right, x + HalfOf(log2w), y, log2w - 1, log2h, px, py, old')
    case Moved(vector) => if vector < |pic.mv| then At(last, p + pic.mv[vector]) else 0
    case Still => if pic.version > 1 then old' else At(last, p)
    case MovedPlus(vector, dc) =>
      if vector >= |pic.mv| then 0
      else
        var q := p + pic.mv[vector];
        // pixels are added in pairs: a left one above 65535 carries into the right one
        var carry := if (px - x) % 2 == 1 && At(last, q - 1) + dc >= 0x1_0000 then 1 else 0;
        (At(last, q) + dc + carry) % 0x1_0000
    case Filled(color) => color
    case Two(first, second) => if px == x && py == y then first else second
  }

  // ---------- a code word is read ----------

  /** The number that up to five binary digits stand for. */
  function Number(s: string): nat
    requires |s| <= 5
  {
    var d := seq(|s|, i requires 0 <= i < |s| => if s[i] == '1' then 1 else 0);
    if |s| == 0 then 0
    else if |s| == 1 then d[0]
    else if |s| == 2 then 2 * d[0] + d[1]
    else if |s| == 3 then 4 * d[0] + 2 * d[1] + d[2]
    else if |s| == 4 then 8 * d[0] + 4 * d[1] + 2 * d[2] + d[3]
    else 16 * d[0] + 8 * d[1] + 4 * d[2] + 2 * d[3] + d[4]
  }

  lemma NumberIsRead(data: Bits, pos: nat, s: string)
    requires |s| <= 5 && StartsAt(data, pos, Digits(s))
    ensures GetBits(data, pos, |s|) == Number(s)
  {
    hide GetBits;
    var b := Prefixes(data, pos);
    NoBits(data, pos);
    forall i | 0 <= i < |s| ensures BitAt(data, pos + i) == (s[i] == '1') {
      StartsAtBit(data, pos, Digits(s), i);
    }
  }

  /** The tables of the decoder have these words. */
  lemma WordsOfTables(pic: Picture, log2w: nat, log2h: nat, code: nat)
    requires log2w <= 3 && log2h <= 3 && log2w + log2h > 0 && code <= 6 && Word(pic, log2w, log2h, code) != ""
    ensures var word, index := Word(pic, log2w, log2h, code), SIZE2INDEX[log2h][log2w];
      index < 4 && |word| <= 5 && Table(pic.version > 1, index)[code] == Entry(Number(word), |word|)
  {
  }

  lemma WordIsRead(pic: Picture, st: Streams, log2w: nat, log2h: nat, code: nat)
    requires log2w <= 3 && log2h <= 3 && log2w + log2h > 0 && code <= 6 && Word(pic, log2w, log2h, code) != ""
    requires StartsAt(st.bits, st.pos, Digits(Word(pic, log2w, log2h, code)))
    ensures ReadNext(pic, st, log2w, log2h) == Next(code, st.(pos := st.pos + |Word(pic, log2w, log2h, code)|))
  {
    hide Word, StartsAt, GetBits, ReadCode, Number;
    var word, index := Word(pic, log2w, log2h, code), SIZE2INDEX[log2h][log2w];
    WordsOfTables(pic, log2w, log2h, code);
    NumberIsRead(st.bits, st.pos, word);
    ExactlyOneCode(pic.version > 1, index, st.bits, st.pos);
    SevenCodes(pic.version > 1, index);
  }

  lemma SevenCodes(newer: bool, index: nat)
    requires index < 4
    ensures |Table(newer, index)| == 7
  {
  }

  // ---------- a leaf is read ----------

  /** Two frames of the picture's size, with 16-bit pixels. */
  ghost predicate Frames(pic: Picture, last: seq<nat>) {
    ValidPicture(pic) && |last| == pic.stride * pic.height && forall p :: 0 <= p < |last| ==> last[p] < PIXEL
  }

  /** The place of a block in the picture. */
  ghost predicate Placed(pic: Picture, x: nat, y: nat, log2w: int, log2h: int) {
    && 0 <= log2w <= 3 && 0 <= log2h <= 3 && log2w + log2h > 0
    && x + SideOf(log2w) <= pic.stride && y + SideOf(log2h) <= pic.height
  }

  lemma SidesAgree(log2: nat)
    requires log2 <= 3
    ensures Side(log2) == SideOf(log2)
    ensures log2 > 0 ==> SideOf(log2) == 2 * HalfOf(log2) && HalfOf(log2) == SideOf(log2 - 1)
  {
  }

  /** The motion check. */
  lemma CheckIsInside(pic: Picture, x: nat, y: nat, log2w: nat, log2h: nat, offset: int)
    requires log2w <= 3 && log2h <= 3
    ensures InPicture(pic, y * pic.stride + x + offset, log2w, log2h) <==> MoveInside(pic, x, y, log2w, log2h, offset)
  {
    SidesAgree(log2w);
    SidesAgree(log2h);
    var s, h := pic.stride, SideOf(log2h);
    assert s * (pic.height - h + 1) == s * pic.height - (h - 1) * s;
  }

  lemma StaysInside(pic: Picture, x: nat, y: nat, log2w: nat, log2h: nat)
    requires Placed(pic, x, y, log2w, log2h)
    ensures MoveInside(pic, x, y, log2w, log2h, 0)
  {
    var s, h := pic.stride, SideOf(log2h);
    TimesAtMost(y + h, pic.height, s);
    assert (y + h) * s == y * s + h * s && (h - 1) * s == h * s - s;
    assert y * s + x + (h - 1) * s + SideOf(log2w) <= (y + h) * s;
  }

  /** Where pixel (px, py) of a displaced block comes from. */
  lemma SourceOf(pic: Picture, last: seq<nat>, x: nat, y: nat, log2w: nat, log2h: nat, offset: int, px: nat, py: nat)
    requires Frames(pic, last) && Placed(pic, x, y, log2w, log2h) && MoveInside(pic, x, y, log2w, log2h, offset)
    requires x <= px < x + SideOf(log2w) && y <= py < y + SideOf(log2h)
    ensures var s := SourceAt(pic, y * pic.stride + x + offset, 1, py - y, 0);
      && 0 <= s && s + (px - x) == py * pic.stride + px + offset < |last|
  {
    hide Frames, SideOf;
    FrameShape(pic, last);
    var i := py - y;
    RowsBelow(y, i, pic.stride);
    TimesAtMost(i, SideOf(log2h) - 1, pic.stride);
  }

  lemma RowsBelow(y: nat, i: nat, stride: nat)
    ensures (y + i) * stride == y * stride + i * stride && i * stride >= 0
  {
  }

  lemma CarryOf(v: nat)
    requires v < 2 * PIXEL
    ensures v / PIXEL == if v >= 0x1_0000 then 1 else 0
  {
  }

  /** A pixel of a displaced block. */
  lemma MovedPixel(pic: Picture, last: seq<nat>, x: nat, y: nat, log2w: nat, log2h: nat, offset: int, dc: nat, px: nat,
                   py: nat)
    requires Frames(pic, last) && Placed(pic, x, y, log2w, log2h) && MoveInside(pic, x, y, log2w, log2h, offset)
    requires x <= px < x + SideOf(log2w) && y <= py < y + SideOf(log2h) && dc < PIXEL
    ensures var s := SourceAt(pic, y * pic.stride + x + offset, 1, py - y, 0);
      var q := py * pic.stride + px + offset;
      var carry := if (px - x) % 2 == 1 && At(last, q - 1) + dc >= 0x1_0000 then 1 else 0;
      && 0 <= s && s + (px - x) < |last|
      && RowPixel(last, s, 1, dc, px - x) == (At(last, q) + dc + carry) % 0x1_0000
  {
    hide SourceAt, Placed, MoveInside, RowPixel, At, Frames;
    SourceOf(pic, last, x, y, log2w, log2h, offset, px, py);
    FrameShape(pic, last);
    PixelPlus(last, SourceAt(pic, y * pic.stride + x + offset, 1, py - y, 0), dc, px - x);
  }

  /** A pixel of the previous frame, brighter by dc. */
  lemma PixelPlus(last: seq<nat>, s: nat, dc: nat, j: nat)
    requires s + j < |last| && dc < PIXEL && forall p :: 0 <= p < |last| ==> last[p] < PIXEL
    ensures var carry := if j % 2 == 1 && At(last, s + j - 1) + dc >= 0x1_0000 then 1 else 0;
      RowPixel(last, s, 1, dc, j) == (At(last, s + j) + dc + carry) % 0x1_0000
  {
    if j % 2 == 1 {
      assert last[s + j - 1] < PIXEL;
      CarryOf(last[s + j - 1] + dc);
    }
  }

  lemma FilledPixel(last: seq<nat>, s: nat, dc: nat, j: nat)
    requires s + j < |last| && dc < PIXEL
    ensures RowPixel(last, s, 0, dc, j) == dc
  {
  }

  /** The leaf that a block is read as. */
  ghost predicate LeafOf(pic: Picture, last: seq<nat>, b: Block, x: nat, y: nat, log2w: nat, log2h: nat, l: Leaf) {
    && l.x == x && l.y == y && l.log2w == log2w && l.log2h == log2h && Sound(pic, l)
    && |last| == pic.stride * pic.height
    && forall px: nat, py: nat, old': nat :: Contains(l, px, py) ==>
         LeafPixel(pic, last, l, py - y, px - x, old') == Shown(pic, last, b, x, y, log2w, log2h, px, py, old')
  }

  predicate IsLeaf(b: Block) {
    !b.Stacked? && !b.Abreast?
  }

  /** After its code word a leaf reads its byte and its words. */
  ghost predicate LeafRead(pic: Picture, last: seq<nat>, st: Streams, b: Block, x: nat, y: nat, log2w: nat, log2h: nat,
                           r: Parsed) {
    && (r.err.None? <==> MovesInside(pic, b, x, y, log2w, log2h))
    && (r.err.None? ==>
          && BlockBytes(b) <= st.bytes && BlockWords(b) <= st.words
          && r.st == st.(bytes := st.bytes[|BlockBytes(b)|..], words := st.words[|BlockWords(b)|..])
          && |r.leaves| == 1 && LeafOf(pic, last, b, x, y, log2w, log2h, r.leaves[0]))
  }

  lemma ByteIsRead(st: Streams, v: nat)
    requires [v] <= st.bytes
    ensures GetByte(st) == (v, st.(bytes := st.bytes[1..]))
  {
  }

  lemma WordsRead(st: Streams, v: nat)
    requires LowFirst(v) <= st.words
    ensures GetLe16(st) == (v, st.(words := st.words[2..]))
  {
    assert st.words[0] == LowFirst(v)[0] && st.words[1] == LowFirst(v)[1];
  }

  lemma MovedIsRead(pic: Picture, last: seq<nat>, st: Streams, vector: nat, x: nat, y: nat, log2w: nat, log2h: nat)
    requires Frames(pic, last) && ByteStreams(st) && Placed(pic, x, y, log2w, log2h) && vector < 256
    requires [vector] <= st.bytes
    ensures LeafRead(pic, last, st, Moved(vector), x, y, log2w, log2h, ParseLeaf(pic, st, 0, x, y, log2w, log2h))
  {
    hide RowPixel, SourceAt, InPicture, GetByte, MoveInside, At;
    ByteIsRead(st, vector);
    CheckIsInside(pic, x, y, log2w, log2h, pic.mv[vector]);
    SidesAgree(log2w);
    SidesAgree(log2h);
    var r := ParseLeaf(pic, st, 0, x, y, log2w, log2h);
    if r.err.None? {
      var l := r.leaves[0];
      forall px: nat, py: nat, old': nat | Contains(l, px, py)
        ensures LeafPixel(pic, last, l, py - y, px - x, old')
             == Shown(pic, last, Moved(vector), x, y, log2w, log2h, px, py, old')
      {
        MovedPixel(pic, last, x, y, log2w, log2h, pic.mv[vector], 0, px, py);
        SmallPixel(last, py * pic.stride + px + pic.mv[vector]);
        SmallPixel(last, py * pic.stride + px + pic.mv[vector] - 1);
      }
    }
  }

  lemma SmallPixel(last: seq<nat>, q: int)
    requires forall p :: 0 <= p < |last| ==> last[p] < PIXEL
    ensures At(last, q) < PIXEL
  {
  }

  lemma MovedPlusIsRead(pic: Picture, last: seq<nat>, st: Streams, vector: nat, dc: nat, x: nat, y: nat, log2w: nat,
                        log2h: nat)
    requires Frames(pic, last) && ByteStreams(st) && Placed(pic, x, y, log2w, log2h) && vector < 256 && dc < PIXEL
    requires [vector] <= st.bytes && LowFirst(dc) <= st.words
    ensures LeafRead(pic, last, st, MovedPlus(vector, dc), x, y, log2w, log2h,
                     ParseLeaf(pic, st, 4, x, y, log2w, log2h))
  {
    hide RowPixel, SourceAt, InPicture, GetByte, GetLe16, MoveInside, At, LowFirst;
    ByteIsRead(st, vector);
    WordsRead(st.(bytes := st.bytes[1..]), dc);
    WordLength(dc);
    CheckIsInside(pic, x, y, log2w, log2h, pic.mv[vector]);
    SidesAgree(log2w);
    SidesAgree(log2h);
    var r := ParseLeaf(pic, st, 4, x, y, log2w, log2h);
    if r.err.None? {
      var l := r.leaves[0];
      forall px: nat, py: nat, old': nat | Contains(l, px, py)
        ensures LeafPixel(pic, last, l, py - y, px - x, old')
             == Shown(pic, last, MovedPlus(vector, dc), x, y, log2w, log2h, px, py, old')
      {
        MovedPixel(pic, last, x, y, log2w, log2h, pic.mv[vector], dc, px, py);
      }
    }
  }

  lemma WordLength(v: nat)
    ensures |LowFirst(v)| == 2
  {
  }

  lemma KeptIsRead(pic: Picture, last: seq<nat>, st: Streams, x: nat, y: nat, log2w: nat, log2h: nat)
    requires Frames(pic, last) && ByteStreams(st) && Placed(pic, x, y, log2w, log2h) && pic.version > 1
    ensures LeafRead(pic, last, st, Still, x, y, log2w, log2h, ParseLeaf(pic, st, 3, x, y, log2w, log2h))
  {
    hide SourceAt, InPicture;
    SidesAgree(log2w);
    SidesAgree(log2h);
  }

  lemma StillIsRead(pic: Picture, last: seq<nat>, st: Streams, x: nat, y: nat, log2w: nat, log2h: nat)
    requires Frames(pic, last) && ByteStreams(st) && Placed(pic, x, y, log2w, log2h) && pic.version <= 1
    ensures LeafRead(pic, last, st, Still, x, y, log2w, log2h, ParseLeaf(pic, st, 3, x, y, log2w, log2h))
  {
    hide RowPixel, SourceAt, InPicture, MoveInside, At, GetLe16, GetByte;
    StaysInside(pic, x, y, log2w, log2h);
    CheckIsInside(pic, x, y, log2w, log2h, 0);
    SidesAgree(log2w);
    SidesAgree(log2h);
    var l := ParseLeaf(pic, st, 3, x, y, log2w, log2h).leaves[0];
    forall px: nat, py: nat, old': nat | Contains(l, px, py)
      ensures LeafPixel(pic, last, l, py - y, px - x, old')
           == Shown(pic, last, Still, x, y, log2w, log2h, px, py, old')
    {
      MovedPixel(pic, last, x, y, log2w, log2h, 0, 0, px, py);
      SmallPixel(last, py * pic.stride + px);
      SmallPixel(last, py * pic.stride + px - 1);
    }
  }

  lemma FilledIsRead(pic: Picture, last: seq<nat>, st: Streams, color: nat, x: nat, y: nat, log2w: nat, log2h: nat)
    requires Frames(pic, last) && ByteStreams(st) && Placed(pic, x, y, log2w, log2h) && color < PIXEL
    requires LowFirst(color) <= st.words
    ensures LeafRead(pic, last, st, Filled(color), x, y, log2w, log2h, ParseLeaf(pic, st, 5, x, y, log2w, log2h))
  {
    hide RowPixel, SourceAt, InPicture, MoveInside, At, GetLe16, LowFirst;
    WordsRead(st, color);
    WordLength(color);
    StaysInside(pic, x, y, log2w, log2h);
    CheckIsInside(pic, x, y, log2w, log2h, 0);
    SidesAgree(log2w);
    SidesAgree(log2h);
    var r := ParseLeaf(pic, st, 5, x, y, log2w, log2h);
    var l := r.leaves[0];
    forall px: nat, py: nat, old': nat | Contains(l, px, py)
      ensures LeafPixel(pic, last, l, py - y, px - x, old')
           == Shown(pic, last, Filled(color), x, y, log2w, log2h, px, py, old')
    {
      RowInside(pic, l.op.src, 0, log2w, log2h, py - y);
      FilledPixel(last, SourceAt(pic, l.op.src, 0, py - y, 0), color, px - x);
    }
  }

  lemma TwoIsRead(pic: Picture, last: seq<nat>, st: Streams, first: nat, second: nat, x: nat, y: nat, log2w: nat,
                  log2h: nat)
    requires Frames(pic, last) && ByteStreams(st) && Placed(pic, x, y, log2w, log2h) && log2w + log2h == 1
    requires first < PIXEL && second < PIXEL && LowFirst(first) + LowFirst(second) <= st.words
    ensures LeafRead(pic, last, st, Two(first, second), x, y, log2w, log2h, ParseLeaf(pic, st, 6, x, y, log2w, log2h))
  {
    hide InPicture, GetLe16, LowFirst;
    WordLength(first);
    WordLength(second);
    PrefixParts(LowFirst(first), LowFirst(second), st.words);
    WordsRead(st, first);
    WordsRead(st.(words := st.words[2..]), second);
    SidesAgree(log2w);
    SidesAgree(log2h);
  }

  lemma PrefixParts(a: seq<nat>, b: seq<nat>, s: seq<nat>)
    requires a + b <= s
    ensures a <= s && b <= s[|a|..] && s[|a|..][|b|..] == s[|a + b|..]
  {
    assert s[..|a|] == (a + b)[..|a|] == a;
    assert s[|a|..|a| + |b|] == (a + b)[|a|..] == b;
  }

  lemma LeafIsRead(pic: Picture, last: seq<nat>, st: Streams, b: Block, x: nat, y: nat, log2w: nat, log2h: nat)
    requires Frames(pic, last) && ByteStreams(st) && Placed(pic, x, y, log2w, log2h) && IsLeaf(b)
    requires Writable(pic, b, log2w, log2h) && BlockBytes(b) <= st.bytes && BlockWords(b) <= st.words
    ensures LeafRead(pic, last, st, b, x, y, log2w, log2h, ParseLeaf(pic, st, CodeOf(b), x, y, log2w, log2h))
  {
    hide LeafRead, ParseLeaf, Placed, Frames, LowFirst;
    match b
    case Moved(vector) => MovedIsRead(pic, last, st, vector, x, y, log2w, log2h);
    case Still =>
      if pic.version > 1 {
        KeptIsRead(pic, last, st, x, y, log2w, log2h);
      } else {
        StillIsRead(pic, last, st, x, y, log2w, log2h);
      }
    case MovedPlus(vector, dc) => MovedPlusIsRead(pic, last, st, vector, dc, x, y, log2w, log2h);
    case Filled(color) => FilledIsRead(pic, last, st, color, x, y, log2w, log2h);
    case Two(first, second) => TwoIsRead(pic, last, st, first, second, x, y, log2w, log2h);
  }

  // ---------- a block is read ----------

  /** Some leaf contains the pixel and gives it what the block stands for. */
  ghost predicate ShowsAt(pic: Picture, last: seq<nat>, leaves: seq<Leaf>, px: nat, py: nat, old': nat, v: nat) {
    exists l :: l in leaves && ShownBy(pic, last, l, px, py, old', v)
  }

  ghost predicate ShownBy(pic: Picture, last: seq<nat>, l: Leaf, px: nat, py: nat, old': nat, v: nat) {
    && Sound(pic, l) && |last| == pic.stride * pic.height && Contains(l, px, py)
    && LeafPixel(pic, last, l, py - l.y, px - l.x, old') == v
  }

  ghost predicate InPlace(x: nat, y: nat, log2w: int, log2h: int, px: nat, py: nat) {
    x <= px < x + SideOf(log2w) && y <= py < y + SideOf(log2h)
  }

  /** Every pixel of the block is shown. */
  ghost predicate BlockShown(pic: Picture, last: seq<nat>, b: Block, x: nat, y: nat, log2w: int, log2h: int,
                             leaves: seq<Leaf>) {
    forall px: nat, py: nat, old': nat :: InPlace(x, y, log2w, log2h, px, py) ==>
      ShowsAt(pic, last, leaves, px, py, old', Shown(pic, last, b, x, y, log2w, log2h, px, py, old'))
  }

  /** The block is read to its end and shown, or its motion leads out of the picture. */
  ghost predicate BlockRead(pic: Picture, last: seq<nat>, st: Streams, b: Block, x: nat, y: nat, log2w: int, log2h: int,
                            r: Parsed) {
    && BlockBytes(b) <= st.bytes && BlockWords(b) <= st.words
    && (r.err.None? <==> MovesInside(pic, b, x, y, log2w, log2h))
    && (r.err.None? ==>
          r.st == After(pic, st, b, log2w, log2h) && BlockShown(pic, last, b, x, y, log2w, log2h, r.leaves))
  }

  lemma ShownInBoth(pic: Picture, last: seq<nat>, a: seq<Leaf>, b: seq<Leaf>, px: nat, py: nat, old': nat, v: nat)
    requires ShowsAt(pic, last, a, px, py, old', v) || ShowsAt(pic, last, b, px, py, old', v)
    ensures ShowsAt(pic, last, a + b, px, py, old', v)
  {
    hide ShownBy;
    var l :| (l in a || l in b) && ShownBy(pic, last, l, px, py, old', v);
    assert l in a + b;
  }

  lemma OneLeafShows(pic: Picture, last: seq<nat>, b: Block, x: nat, y: nat, log2w: nat, log2h: nat, l: Leaf)
    requires log2w <= 3 && log2h <= 3 && LeafOf(pic, last, b, x, y, log2w, log2h, l)
    ensures BlockShown(pic, last, b, x, y, log2w, log2h, [l])
  {
    hide LeafPixel, Shown;
    SidesAgree(log2w);
    SidesAgree(log2h);
    forall px: nat, py: nat, old': nat | InPlace(x, y, log2w, log2h, px, py)
      ensures ShowsAt(pic, last, [l], px, py, old', Shown(pic, last, b, x, y, log2w, log2h, px, py, old'))
    {
      assert Contains(l, px, py);
      assert ShownBy(pic, last, l, px, py, old', Shown(pic, last, b, x, y, log2w, log2h, px, py, old'));
    }
  }

  lemma LeafBlockRead(pic: Picture, last: seq<nat>, st: Streams, b: Block, x: nat, y: nat, log2w: nat, log2h: nat)
    requires Frames(pic, last) && ByteStreams(st) && Placed(pic, x, y, log2w, log2h) && IsLeaf(b)
    requires Writable(pic, b, log2w, log2h) && Begins(pic, st, b, log2w, log2h)
    ensures BlockRead(pic, last, st, b, x, y, log2w, log2h, ParseBlock(pic, st, x, y, log2w, log2h))
  {
    hide Word, ReadNext, ParseLeaf, LeafOf, BlockShown, BlockBytes, BlockWords, MovesInside, Frames, StartsAt;
    FrameShape(pic, last);
    WordIsRead(pic, st, log2w, log2h, CodeOf(b));
    var st1 := st.(pos := st.pos + |Word(pic, log2w, log2h, CodeOf(b))|);
    LeafIsRead(pic, last, st1, b, x, y, log2w, log2h);
    var r := ParseLeaf(pic, st1, CodeOf(b), x, y, log2w, log2h);
    if r.err.None? {
      OneLeafShows(pic, last, b, x, y, log2w, log2h, r.leaves[0]);
      assert r.leaves == [r.leaves[0]];
    }
  }

  lemma StackedShown(pic: Picture, last: seq<nat>, top: Block, bottom: Block, x: nat, y: nat, log2w: nat, log2h: nat,
                     a: seq<Leaf>, b: seq<Leaf>)
    requires 0 < log2h <= 3 && log2w <= 3
    requires BlockShown(pic, last, top, x, y, log2w, log2h - 1, a)
    requires BlockShown(pic, last, bottom, x, y + HalfOf(log2h), log2w, log2h - 1, b)
    ensures BlockShown(pic, last, Stacked(top, bottom), x, y, log2w, log2h, a + b)
  {
    hide ShowsAt;
    SidesAgree(log2h);
    forall px: nat, py: nat, old': nat | InPlace(x, y, log2w, log2h, px, py)
      ensures ShowsAt(pic, last, a + b, px, py, old',
                      Shown(pic, last, Stacked(top, bottom), x, y, log2w, log2h, px, py, old'))
    {
      if py < y + HalfOf(log2h) {
        assert InPlace(x, y, log2w, log2h - 1, px, py);
        assert ShowsAt(pic, last, a, px, py, old', Shown(pic, last, top, x, y, log2w, log2h - 1, px, py, old'));
      } else {
        assert InPlace(x, y + HalfOf(log2h), log2w, log2h - 1, px, py);
        assert ShowsAt(pic, last, b, px, py, old',
                       Shown(pic, last, bottom, x, y + HalfOf(log2h), log2w, log2h - 1, px, py, old'));
      }
      ShownInBoth(pic, last, a, b, px, py, old',
                  Shown(pic, last, Stacked(top, bottom), x, y, log2w, log2h, px, py, old'));
    }
  }

  lemma AbreastShown(pic: Picture, last: seq<nat>, left: Block, right: Block, x: nat, y: nat, log2w: nat, log2h: nat,
                     a: seq<Leaf>, b: seq<Leaf>)
    requires 0 < log2w <= 3 && log2h <= 3
    requires BlockShown(pic, last, left, x, y, log2w - 1, log2h, a)
    requires BlockShown(pic, last, right, x + HalfOf(log2w), y, log2w - 1, log2h, b)
    ensures BlockShown(pic, last, Abreast(left, right), x, y, log2w, log2h, a + b)
  {
    hide ShowsAt;
    SidesAgree(log2w);
    forall px: nat, py: nat, old': nat | InPlace(x, y, log2w, log2h, px, py)
      ensures ShowsAt(pic, last, a + b, px, py, old',
                      Shown(pic, last, Abreast(left, right), x, y, log2w, log2h, px, py, old'))
    {
      if px < x + HalfOf(log2w) {
        assert InPlace(x, y, log2w - 1, log2h, px, py);
        assert ShowsAt(pic, last, a, px, py, old', Shown(pic, last, left, x, y, log2w - 1, log2h, px, py, old'));
      } else {
        assert InPlace(x + HalfOf(log2w), y, log2w - 1, log2h, px, py);
        assert ShowsAt(pic, last, b, px, py, old',
                       Shown(pic, last, right, x + HalfOf(log2w), y, log2w - 1, log2h, px, py, old'));
      }
      ShownInBoth(pic, last, a, b, px, py, old',
                  Shown(pic, last, Abreast(left, right), x, y, log2w, log2h, px, py, old'));
    }
  }

  /** The two halves of a split block follow its code word. */
  lemma HalvesBegin(pic: Picture, st: Streams, word: Bits, a: Block, b: Block, log2w: int, log2h: int)
    requires StartsAt(st.bits, st.pos, word + (BlockBits(pic, a, log2w, log2h) + BlockBits(pic, b, log2w, log2h)))
    requires BlockBytes(a) + BlockBytes(b) <= st.bytes && BlockWords(a) + BlockWords(b) <= st.words
    ensures StartsAt(st.bits, st.pos, word)
    ensures var st1 := st.(pos := st.pos + |word|);
      && Begins(pic, st1, a, log2w, log2h) && Begins(pic, After(pic, st1, a, log2w, log2h), b, log2w, log2h)
      && After(pic, After(pic, st1, a, log2w, log2h), b, log2w, log2h)
         == Streams(st.bits, st.pos + |word + (BlockBits(pic, a, log2w, log2h) + BlockBits(pic, b, log2w, log2h))|,
                    st.bytes[|BlockBytes(a) + BlockBytes(b)|..], st.words[|BlockWords(a) + BlockWords(b)|..])
  {
    hide StartsAt, BlockBits, BlockBytes, BlockWords;
    StartsAtParts(st.bits, st.pos, word, BlockBits(pic, a, log2w, log2h) + BlockBits(pic, b, log2w, log2h));
    StartsAtParts(st.bits, st.pos + |word|, BlockBits(pic, a, log2w, log2h), BlockBits(pic, b, log2w, log2h));
    PrefixParts(BlockBytes(a), BlockBytes(b), st.bytes);
    PrefixParts(BlockWords(a), BlockWords(b), st.words);
  }

  /** Every block is read back: the streams move behind it, and its pixels are what it stands for;
      or its motion leads out of the picture, and only then the decoder stops. */
  lemma {:induction false} BlockReadsBack(pic: Picture, last: seq<nat>, st: Streams, b: Block, x: nat, y: nat,
                                          log2w: int, log2h: int)
    requires Frames(pic, last) && ByteStreams(st) && Placed(pic, x, y, log2w, log2h)
    requires Writable(pic, b, log2w, log2h) && Begins(pic, st, b, log2w, log2h)
    ensures BlockRead(pic, last, st, b, x, y, log2w, log2h, ParseBlock(pic, st, x, y, log2w, log2h))
    decreases b
  {
    if b.Stacked? {
      StackedRead(pic, last, st, b, x, y, log2w, log2h);
    } else if b.Abreast? {
      AbreastRead(pic, last, st, b, x, y, log2w, log2h);
    } else {
      LeafBlockRead(pic, last, st, b, x, y, log2w, log2h);
    }
  }

  lemma HalfIs(log2: nat)
    requires 0 < log2 <= 3
    ensures Side(log2 - 1) == HalfOf(log2)
  {
  }

  lemma StackedParse(pic: Picture, st: Streams, st1: Streams, x: nat, y: nat, log2w: nat, log2h: nat)
    requires ValidPicture(pic) && ByteStreams(st) && ByteStreams(st1) && log2w <= 3 && log2h <= 3 && log2h > 0
    requires ReadNext(pic, st, log2w, log2h) == Next(1, st1)
    ensures var a := ParseBlock(pic, st1, x, y, log2w, log2h - 1);
      ParseBlock(pic, st, x, y, log2w, log2h)
      == if a.err.Some? then a else Then(a, ParseBlock(pic, a.st, x, y + HalfOf(log2h), log2w, log2h - 1))
  {
    hide ReadNext, ByteStreams, ValidPicture, Side, HalfOf, ParseLeaf;
    HalfIs(log2h);
  }

  lemma AbreastParse(pic: Picture, st: Streams, st1: Streams, x: nat, y: nat, log2w: nat, log2h: nat)
    requires ValidPicture(pic) && ByteStreams(st) && ByteStreams(st1) && log2w <= 3 && log2h <= 3 && log2w > 0
    requires ReadNext(pic, st, log2w, log2h) == Next(2, st1)
    ensures var a := ParseBlock(pic, st1, x, y, log2w - 1, log2h);
      ParseBlock(pic, st, x, y, log2w, log2h)
      == if a.err.Some? then a else Then(a, ParseBlock(pic, a.st, x + HalfOf(log2w), y, log2w - 1, log2h))
  {
    hide ReadNext, ByteStreams, ValidPicture, Side, HalfOf, ParseLeaf;
    HalfIs(log2w);
  }

  /** What one half of a split block is read as, st1 standing behind the code word. */
  ghost predicate HalvesRead(pic: Picture, last: seq<nat>, st1: Streams, a: Block, b: Block, x1: nat, y1: nat, x2: nat,
                             y2: nat, log2w: int, log2h: int, r1: Parsed, r2: Parsed) {
    && BlockRead(pic, last, st1, a, x1, y1, log2w, log2h, r1)
    && (r1.err.None? ==> BlockRead(pic, last, r1.st, b, x2, y2, log2w, log2h, r2))
  }

  /** Where a split block was read up to. */
  lemma SplitRead(pic: Picture, last: seq<nat>, st: Streams, b: Block, first: Block, second: Block, x: nat, y: nat,
                  x2: nat, y2: nat, log2w: int, log2h: int, w: int, h: int, word: Bits, r1: Parsed, r2: Parsed)
    requires BlockBits(pic, b, log2w, log2h) == word + (BlockBits(pic, first, w, h) + BlockBits(pic, second, w, h))
    requires BlockBytes(b) == BlockBytes(first) + BlockBytes(second)
    requires BlockWords(b) == BlockWords(first) + BlockWords(second)
    requires Begins(pic, st, b, log2w, log2h)
    requires MovesInside(pic, b, x, y, log2w, log2h)
        <==> MovesInside(pic, first, x, y, w, h) && MovesInside(pic, second, x2, y2, w, h)
    requires HalvesRead(pic, last, st.(pos := st.pos + |word|), first, second, x, y, x2, y2, w, h, r1, r2)
    requires r1.err.None? && r2.err.None? ==> BlockShown(pic, last, b, x, y, log2w, log2h, r1.leaves + r2.leaves)
    ensures BlockRead(pic, last, st, b, x, y, log2w, log2h, if r1.err.Some? then r1 else Then(r1, r2))
  {
    hide BlockBits, BlockBytes, BlockWords, MovesInside, BlockShown, StartsAt;
    HalvesBegin(pic, st, word, first, second, w, h);
  }

  lemma {:induction false} StackedRead(pic: Picture, last: seq<nat>, st: Streams, b: Block, x: nat, y: nat,
                                       log2w: nat, log2h: nat)
    requires Frames(pic, last) && ByteStreams(st) && Placed(pic, x, y, log2w, log2h) && b.Stacked?
    requires Writable(pic, b, log2w, log2h) && Begins(pic, st, b, log2w, log2h)
    ensures BlockRead(pic, last, st, b, x, y, log2w, log2h, ParseBlock(pic, st, x, y, log2w, log2h))
    decreases b, 0
  {
    hide Word, ReadNext, BlockShown, Frames, StartsAt, ByteStreams, ValidPicture, ParseBlock, After, BlockRead,
      BlockBits, BlockBytes, BlockWords, Writable, MovesInside, Begins, Placed;
    StackedParts(pic, b, x, y, log2w, log2h);
    var word := Digits(Word(pic, log2w, log2h, 1));
    HalvesStart(pic, st, b, word, b.top, b.bottom, log2w, log2h, log2w, log2h - 1);
    WordIsRead(pic, st, log2w, log2h, 1);
    FrameShape(pic, last);
    var st1 := st.(pos := st.pos + |word|);
    SameStreams(st, st1);
    StackedParse(pic, st, st1, x, y, log2w, log2h);
    BlockReadsBack(pic, last, st1, b.top, x, y, log2w, log2h - 1);
    var y2 := y + HalfOf(log2h);
    var r1 := ParseBlock(pic, st1, x, y, log2w, log2h - 1);
    var r2 := ParseBlock(pic, r1.st, x, y2, log2w, log2h - 1);
    if r1.err.None? {
      ReadStreams(pic, last, st1, b.top, x, y, log2w, log2h - 1, r1);
      BlockReadsBack(pic, last, r1.st, b.bottom, x, y2, log2w, log2h - 1);
      if r2.err.None? {
        ReadStreams(pic, last, r1.st, b.bottom, x, y2, log2w, log2h - 1, r2);
        StackedShown(pic, last, b.top, b.bottom, x, y, log2w, log2h, r1.leaves, r2.leaves);
      }
    }
    SplitRead(pic, last, st, b, b.top, b.bottom, x, y, x, y2, log2w, log2h, log2w, log2h - 1, word, r1, r2);
  }

  /** What a block that was read without error leaves. */
  lemma ReadStreams(pic: Picture, last: seq<nat>, st: Streams, b: Block, x: nat, y: nat, log2w: int, log2h: int,
                    r: Parsed)
    requires BlockRead(pic, last, st, b, x, y, log2w, log2h, r) && r.err.None? && ByteStreams(st)
    ensures BlockBytes(b) <= st.bytes && BlockWords(b) <= st.words && r.st == After(pic, st, b, log2w, log2h)
    ensures ByteStreams(r.st) && BlockShown(pic, last, b, x, y, log2w, log2h, r.leaves)
  {
    hide BlockShown, BlockBits, BlockBytes, BlockWords, MovesInside;
  }

  /** The first half follows the code word, and the second the first. */
  lemma HalvesStart(pic: Picture, st: Streams, b: Block, word: Bits, first: Block, second: Block, log2w: int,
                    log2h: int, w: int, h: int)
    requires BlockBits(pic, b, log2w, log2h) == word + (BlockBits(pic, first, w, h) + BlockBits(pic, second, w, h))
    requires BlockBytes(b) == BlockBytes(first) + BlockBytes(second)
    requires BlockWords(b) == BlockWords(first) + BlockWords(second)
    requires Begins(pic, st, b, log2w, log2h)
    ensures var st1 := st.(pos := st.pos + |word|);
      && StartsAt(st.bits, st.pos, word) && Begins(pic, st1, first, w, h)
      && BlockBytes(first) <= st1.bytes && BlockWords(first) <= st1.words
      && Begins(pic, After(pic, st1, first, w, h), second, w, h)
  {
    hide BlockBits, BlockBytes, BlockWords, StartsAt;
    HalvesBegin(pic, st, word, first, second, w, h);
  }

  lemma StackedParts(pic: Picture, b: Block, x: nat, y: nat, log2w: nat, log2h: nat)
    requires b.Stacked? && Writable(pic, b, log2w, log2h) && Placed(pic, x, y, log2w, log2h)
    ensures log2w <= 3 && 0 < log2h <= 3 && log2w + log2h > 1 && Word(pic, log2w, log2h, 1) != ""
    ensures Writable(pic, b.top, log2w, log2h - 1) && Writable(pic, b.bottom, log2w, log2h - 1)
    ensures Placed(pic, x, y, log2w, log2h - 1) && Placed(pic, x, y + HalfOf(log2h), log2w, log2h - 1)
    ensures BlockBits(pic, b, log2w, log2h)
         == Digits(Word(pic, log2w, log2h, 1))
            + (BlockBits(pic, b.top, log2w, log2h - 1) + BlockBits(pic, b.bottom, log2w, log2h - 1))
    ensures BlockBytes(b) == BlockBytes(b.top) + BlockBytes(b.bottom)
    ensures BlockWords(b) == BlockWords(b.top) + BlockWords(b.bottom)
    ensures MovesInside(pic, b, x, y, log2w, log2h)
        <==> MovesInside(pic, b.top, x, y, log2w, log2h - 1)
             && MovesInside(pic, b.bottom, x, y + HalfOf(log2h), log2w, log2h - 1)
  {
    hide Word;
    SplitShape(pic, b, log2w, log2h);
    SidesAgree(log2h);
  }

  lemma AbreastParts(pic: Picture, b: Block, x: nat, y: nat, log2w: nat, log2h: nat)
    requires b.Abreast? && Writable(pic, b, log2w, log2h) && Placed(pic, x, y, log2w, log2h)
    ensures 0 < log2w <= 3 && log2h <= 3 && log2w + log2h > 1 && Word(pic, log2w, log2h, 2) != ""
    ensures Writable(pic, b.left, log2w - 1, log2h) && Writable(pic, b.right, log2w - 1, log2h)
    ensures Placed(pic, x, y, log2w - 1, log2h) && Placed(pic, x + HalfOf(log2w), y, log2w - 1, log2h)
    ensures BlockBits(pic, b, log2w, log2h)
         == Digits(Word(pic, log2w, log2h, 2))
            + (BlockBits(pic, b.left, log2w - 1, log2h) + BlockBits(pic, b.right, log2w - 1, log2h))
    ensures BlockBytes(b) == BlockBytes(b.left) + BlockBytes(b.right)
    ensures BlockWords(b) == BlockWords(b.left) + BlockWords(b.right)
    ensures MovesInside(pic, b, x, y, log2w, log2h)
        <==> MovesInside(pic, b.left, x, y, log2w - 1, log2h)
             && MovesInside(pic, b.right, x + HalfOf(log2w), y, log2w - 1, log2h)
  {
    hide Word;
    SplitShape(pic, b, log2w, log2h);
    SidesAgree(log2w);
  }

  lemma {:induction false} AbreastRead(pic: Picture, last: seq<nat>, st: Streams, b: Block, x: nat, y: nat,
                                       log2w: nat, log2h: nat)
    requires Frames(pic, last) && ByteStreams(st) && Placed(pic, x, y, log2w, log2h) && b.Abreast?
    requires Writable(pic, b, log2w, log2h) && Begins(pic, st, b, log2w, log2h)
    ensures BlockRead(pic, last, st, b, x, y, log2w, log2h, ParseBlock(pic, st, x, y, log2w, log2h))
    decreases b, 0
  {
    hide Word, ReadNext, BlockShown, Frames, StartsAt, ByteStreams, ValidPicture, ParseBlock, After, BlockRead,
      BlockBits, BlockBytes, BlockWords, Writable, MovesInside, Begins, Placed;
    AbreastParts(pic, b, x, y, log2w, log2h);
    var word := Digits(Word(pic, log2w, log2h, 2));
    HalvesStart(pic, st, b, word, b.left, b.right, log2w, log2h, log2w - 1, log2h);
    WordIsRead(pic, st, log2w, log2h, 2);
    FrameShape(pic, last);
    var st1 := st.(pos := st.pos + |word|);
    SameStreams(st, st1);
    AbreastParse(pic, st, st1, x, y, log2w, log2h);
    BlockReadsBack(pic, last, st1, b.left, x, y, log2w - 1, log2h);
    var x2 := x + HalfOf(log2w);
    var r1 := ParseBlock(pic, st1, x, y, log2w - 1, log2h);
    var r2 := ParseBlock(pic, r1.st, x2, y, log2w - 1, log2h);
    if r1.err.None? {
      ReadStreams(pic, last, st1, b.left, x, y, log2w - 1, log2h, r1);
      BlockReadsBack(pic, last, r1.st, b.right, x2, y, log2w - 1, log2h);
      if r2.err.None? {
        ReadStreams(pic, last, r1.st, b.right, x2, y, log2w - 1, log2h, r2);
        AbreastShown(pic, last, b.left, b.right, x, y, log2w, log2h, r1.leaves, r2.leaves);
      }
    }
    SplitRead(pic, last, st, b, b.left, b.right, x, y, x2, y, log2w, log2h, log2w - 1, log2h, word, r1, r2);
  }

  lemma SameStreams(st: Streams, st1: Streams)
    requires ByteStreams(st) && st1.bytes == st.bytes && st1.words == st.words
    ensures ByteStreams(st1)
  {
  }

  lemma FrameShape(pic: Picture, last: seq<nat>)
    requires Frames(pic, last)
    ensures ValidPicture(pic) && |last| == pic.stride * pic.height && forall p :: 0 <= p < |last| ==> last[p] < PIXEL
  {
  }

  /** A split block can be split. */
  lemma SplitShape(pic: Picture, b: Block, log2w: nat, log2h: nat)
    requires log2w <= 3 && log2h <= 3 && log2w + log2h > 0 && Word(pic, log2w, log2h, CodeOf(b)) != ""
    ensures b.Stacked? ==> log2h > 0 && log2w + log2h > 1
    ensures b.Abreast? ==> log2w > 0 && log2w + log2h > 1
  {
  }

  // ---------- a frame ----------

  /** The blocks of a frame, row by row, and how the first k of them are written. */
  function FrameBits(pic: Picture, blocks: seq<Block>, k: nat): Bits
    requires k <= |blocks|
  {
    if k == 0 then [] else FrameBits(pic, blocks, k - 1) + BlockBits(pic, blocks[k - 1], 3, 3)
  }

  function FrameBytes(blocks: seq<Block>, k: nat): seq<nat>
    requires k <= |blocks|
  {
    if k == 0 then [] else FrameBytes(blocks, k - 1) + BlockBytes(blocks[k - 1])
  }

  function FrameWords(blocks: seq<Block>, k: nat): seq<nat>
    requires k <= |blocks|
  {
    if k == 0 then [] else FrameWords(blocks, k - 1) + BlockWords(blocks[k - 1])
  }

  /** The streams hold a whole frame. */
  ghost predicate Holds(pic: Picture, st: Streams, blocks: seq<Block>) {
    && Blocks(pic) && ByteStreams(st) && |blocks| == (pic.height / 8) * (pic.stride / 8)
    && StartsAt(st.bits, st.pos, FrameBits(pic, blocks, |blocks|))
    && FrameBytes(blocks, |blocks|) <= st.bytes && FrameWords(blocks, |blocks|) <= st.words
    && forall k :: 0 <= k < |blocks| ==> Writable(pic, blocks[k], 3, 3)
  }

  /** The streams behind the first k blocks. */
  ghost function Behind(pic: Picture, st: Streams, blocks: seq<Block>, k: nat): Streams
    requires k <= |blocks| && |FrameBytes(blocks, k)| <= |st.bytes| && |FrameWords(blocks, k)| <= |st.words|
  {
    Streams(st.bits, st.pos + |FrameBits(pic, blocks, k)|, st.bytes[|FrameBytes(blocks, k)|..],
            st.words[|FrameWords(blocks, k)|..])
  }

  lemma {:induction false} PrefixesHold(pic: Picture, st: Streams, blocks: seq<Block>, k: nat)
    requires Holds(pic, st, blocks) && k <= |blocks|
    ensures StartsAt(st.bits, st.pos, FrameBits(pic, blocks, k))
    ensures FrameBytes(blocks, k) <= st.bytes && FrameWords(blocks, k) <= st.words
    decreases |blocks| - k
  {
    hide StartsAt, BlockBits, BlockBytes, BlockWords, Writable;
    if k < |blocks| {
      PrefixesHold(pic, st, blocks, k + 1);
      StartsAtParts(st.bits, st.pos, FrameBits(pic, blocks, k), BlockBits(pic, blocks[k], 3, 3));
      PrefixParts(FrameBytes(blocks, k), BlockBytes(blocks[k]), st.bytes);
      PrefixParts(FrameWords(blocks, k), BlockWords(blocks[k]), st.words);
    }
  }

  /** Block k begins behind the ones before it. */
  lemma BlockBegins(pic: Picture, st: Streams, blocks: seq<Block>, k: nat)
    requires Holds(pic, st, blocks) && k < |blocks|
    ensures FrameBytes(blocks, k) <= st.bytes && FrameWords(blocks, k) <= st.words
    ensures FrameBytes(blocks, k + 1) <= st.bytes && FrameWords(blocks, k + 1) <= st.words
    ensures var at := Behind(pic, st, blocks, k);
      && ByteStreams(at) && Begins(pic, at, blocks[k], 3, 3) && Writable(pic, blocks[k], 3, 3)
      && After(pic, at, blocks[k], 3, 3) == Behind(pic, st, blocks, k + 1)
  {
    hide StartsAt, BlockBits, BlockBytes, BlockWords, Writable;
    PrefixesHold(pic, st, blocks, k);
    PrefixesHold(pic, st, blocks, k + 1);
    StartsAtParts(st.bits, st.pos, FrameBits(pic, blocks, k), BlockBits(pic, blocks[k], 3, 3));
    PrefixParts(FrameBytes(blocks, k), BlockBytes(blocks[k]), st.bytes);
    PrefixParts(FrameWords(blocks, k), BlockWords(blocks[k]), st.words);
  }

  /** The number of block (r, c). */
  function Index(pic: Picture, r: nat, c: nat): nat {
    r * (pic.stride / 8) + c
  }

  /** Block (r, c) of the frame keeps its motion inside. */
  ghost predicate PartInside(pic: Picture, blocks: seq<Block>, r: nat, c: nat)
    requires Index(pic, r, c) < |blocks|
  {
    MovesInside(pic, blocks[Index(pic, r, c)], 8 * c, 8 * r, 3, 3)
  }

  /** The pixel of the frame that the blocks stand for. */
  ghost function FramePixel(pic: Picture, last: seq<nat>, blocks: seq<Block>, px: nat, py: nat, old': nat): nat
    requires Index(pic, py / 8, px / 8) < |blocks|
  {
    Shown(pic, last, blocks[Index(pic, py / 8, px / 8)], 8 * (px / 8), 8 * (py / 8), 3, 3, px, py, old')
  }

  lemma Indices(pic: Picture, blocks: seq<Block>, r: nat, c: nat)
    requires |blocks| == (pic.height / 8) * (pic.stride / 8) && r < pic.height / 8 && c <= pic.stride / 8
    ensures Index(pic, r, c) <= Index(pic, r, pic.stride / 8) == Index(pic, r + 1, 0) <= |blocks|
    ensures c < pic.stride / 8 ==> Index(pic, r, c + 1) == Index(pic, r, c) + 1 <= |blocks|
  {
    TimesAtMost(r + 1, pic.height / 8, pic.stride / 8);
    assert (r + 1) * (pic.stride / 8) == r * (pic.stride / 8) + pic.stride / 8;
  }

  /** Pixels of the first n blocks of block row r are shown. */
  ghost predicate RowShown(pic: Picture, last: seq<nat>, blocks: seq<Block>, r: nat, n: nat, leaves: seq<Leaf>) {
    forall px: nat, py: nat, old': nat :: py / 8 == r && px / 8 < n && Index(pic, py / 8, px / 8) < |blocks| ==>
      ShowsAt(pic, last, leaves, px, py, old', FramePixel(pic, last, blocks, px, py, old'))
  }

  ghost predicate RowInsideTo(pic: Picture, blocks: seq<Block>, r: nat, n: nat) {
    forall c :: 0 <= c < n && Index(pic, r, c) < |blocks| ==> PartInside(pic, blocks, r, c)
  }

  lemma RowShownMore(pic: Picture, last: seq<nat>, blocks: seq<Block>, r: nat, n: nat, a: seq<Leaf>, b: seq<Leaf>)
    requires Index(pic, r, n) < |blocks| && RowShown(pic, last, blocks, r, n, a)
    requires BlockShown(pic, last, blocks[Index(pic, r, n)], 8 * n, 8 * r, 3, 3, b)
    ensures RowShown(pic, last, blocks, r, n + 1, a + b)
  {
    hide ShowsAt, Shown, Index;
    forall px: nat, py: nat, old': nat
      | py / 8 == r && px / 8 < n + 1 && Index(pic, py / 8, px / 8) < |blocks|
      ensures ShowsAt(pic, last, a + b, px, py, old', FramePixel(pic, last, blocks, px, py, old'))
    {
      if px / 8 == n {
        assert InPlace(8 * n, 8 * r, 3, 3, px, py);
        assert ShowsAt(pic, last, b, px, py, old', FramePixel(pic, last, blocks, px, py, old'));
      } else {
        assert ShowsAt(pic, last, a, px, py, old', FramePixel(pic, last, blocks, px, py, old'));
      }
      ShownInBoth(pic, last, a, b, px, py, old', FramePixel(pic, last, blocks, px, py, old'));
    }
  }

  lemma BlockPlaced(pic: Picture, r: nat, c: nat)
    requires Blocks(pic) && r < pic.height / 8 && c < pic.stride / 8
    ensures Placed(pic, 8 * c, 8 * r, 3, 3)
  {
  }

  lemma HoldsShape(pic: Picture, st: Streams, blocks: seq<Block>)
    requires Holds(pic, st, blocks)
    ensures Blocks(pic) && ByteStreams(st) && |blocks| == (pic.height / 8) * (pic.stride / 8)
  {
  }

  /** What the first n blocks of block row r are read as. */
  ghost predicate RowRead(pic: Picture, last: seq<nat>, st: Streams, blocks: seq<Block>, r: nat, n: nat, a: Parsed) {
    && (a.err.None? <==> RowInsideTo(pic, blocks, r, n))
    && (a.err.None? ==>
          && Index(pic, r, n) <= |blocks| && FrameBytes(blocks, Index(pic, r, n)) <= st.bytes
          && FrameWords(blocks, Index(pic, r, n)) <= st.words
          && a.st == Behind(pic, st, blocks, Index(pic, r, n)) && RowShown(pic, last, blocks, r, n, a.leaves))
  }

  lemma NoBlocksRead(pic: Picture, last: seq<nat>, st: Streams, blocks: seq<Block>, r: nat, st0: Streams)
    requires Index(pic, r, 0) <= |blocks| && FrameBytes(blocks, Index(pic, r, 0)) <= st.bytes
    requires FrameWords(blocks, Index(pic, r, 0)) <= st.words && st0 == Behind(pic, st, blocks, Index(pic, r, 0))
    ensures RowRead(pic, last, st, blocks, r, 0, Parsed([], st0, None))
  {
    hide Index, FrameBytes, FrameWords, Behind, Shown, MovesInside;
  }

  lemma InsideMore(pic: Picture, blocks: seq<Block>, r: nat, n: nat)
    requires Index(pic, r, n) < |blocks|
    ensures RowInsideTo(pic, blocks, r, n + 1) <==> RowInsideTo(pic, blocks, r, n) && PartInside(pic, blocks, r, n)
  {
    hide Index, PartInside;
  }

  /** A row goes on with what its next block is read as. */
  lemma RowMore(pic: Picture, last: seq<nat>, st: Streams, blocks: seq<Block>, r: nat, n: nat, a: Parsed, b: Parsed)
    requires Index(pic, r, n) < |blocks| && Index(pic, r, n + 1) == Index(pic, r, n) + 1
    requires FrameBytes(blocks, Index(pic, r, n + 1)) <= st.bytes
    requires FrameWords(blocks, Index(pic, r, n + 1)) <= st.words
    requires RowRead(pic, last, st, blocks, r, n, a)
    requires a.err.None? ==> BlockRead(pic, last, a.st, blocks[Index(pic, r, n)], 8 * n, 8 * r, 3, 3, b)
    requires a.err.None? && b.err.None? ==> b.st == Behind(pic, st, blocks, Index(pic, r, n + 1))
    ensures RowRead(pic, last, st, blocks, r, n + 1, if a.err.Some? then a else Then(a, b))
  {
    hide Index, RowInsideTo, MovesInside, RowShown, BlockShown, Behind, FrameBytes, FrameWords, BlockBytes, BlockWords,
      After;
    InsideMore(pic, blocks, r, n);
    if a.err.None? && b.err.None? {
      RowShownMore(pic, last, blocks, r, n, a.leaves, b.leaves);
    }
  }

  lemma BlockEnd(pic: Picture, last: seq<nat>, st: Streams, b: Block, x: nat, y: nat, r: Parsed)
    requires BlockRead(pic, last, st, b, x, y, 3, 3, r) && r.err.None?
    ensures BlockBytes(b) <= st.bytes && BlockWords(b) <= st.words && r.st == After(pic, st, b, 3, 3)
  {
    hide After, MovesInside, BlockShown, BlockBytes, BlockWords;
  }

  lemma RowUpTo(pic: Picture, st: Streams, y: nat, n: nat)
    requires ValidPicture(pic) && ByteStreams(st)
    ensures ParseRow(pic, st, y, 0) == Parsed([], st, None)
    ensures n > 0 ==>
              var a := ParseRow(pic, st, y, n - 1);
              ParseRow(pic, st, y, n)
              == if a.err.Some? then a else Then(a, ParseBlock(pic, a.st, 8 * (n - 1), y, 3, 3))
  {
    hide ParseBlock, ByteStreams, ValidPicture, Then;
  }

  lemma RowReadEnd(pic: Picture, last: seq<nat>, st: Streams, blocks: seq<Block>, r: nat, n: nat, a: Parsed)
    requires RowRead(pic, last, st, blocks, r, n, a) && a.err.None?
    ensures Index(pic, r, n) <= |blocks| && FrameBytes(blocks, Index(pic, r, n)) <= st.bytes
    ensures FrameWords(blocks, Index(pic, r, n)) <= st.words
    ensures a.st == Behind(pic, st, blocks, Index(pic, r, n)) && RowShown(pic, last, blocks, r, n, a.leaves)
  {
    hide Index, RowInsideTo, RowShown, Behind, FrameBytes, FrameWords;
  }

  /** A row of blocks is read back. */
  lemma {:induction false} RowReadsBack(pic: Picture, last: seq<nat>, st: Streams, blocks: seq<Block>, r: nat, n: nat,
                                        st0: Streams)
    requires Frames(pic, last) && Holds(pic, st, blocks) && r < pic.height / 8 && n <= pic.stride / 8
    requires Index(pic, r, 0) <= |blocks| && FrameBytes(blocks, Index(pic, r, 0)) <= st.bytes
    requires FrameWords(blocks, Index(pic, r, 0)) <= st.words && st0 == Behind(pic, st, blocks, Index(pic, r, 0))
    requires ValidPicture(pic) && ByteStreams(st0)
    ensures RowRead(pic, last, st, blocks, r, n, ParseRow(pic, st0, 8 * r, n))
  {
    hide ByteStreams, StartsAt, ParseBlock, BlockShown, RowShown, Begins, After, Behind, FrameBytes, FrameWords, Frames,
      Holds, MovesInside, Writable, Placed, ParseRow, RowRead, BlockRead, Index, FrameBits, ValidPicture, BlockBytes,
      BlockWords;
    RowUpTo(pic, st0, 8 * r, n);
    HoldsShape(pic, st, blocks);
    if n == 0 {
      NoBlocksRead(pic, last, st, blocks, r, st0);
    } else {
      RowReadsBack(pic, last, st, blocks, r, n - 1, st0);
      Indices(pic, blocks, r, n - 1);
      var k := Index(pic, r, n - 1);
      BlockBegins(pic, st, blocks, k);
      BlockPlaced(pic, r, n - 1);
      var a := ParseRow(pic, st0, 8 * r, n - 1);
      var b := ParseBlock(pic, a.st, 8 * (n - 1), 8 * r, 3, 3);
      if a.err.None? {
        RowReadEnd(pic, last, st, blocks, r, n - 1, a);
        BlockReadsBack(pic, last, a.st, blocks[k], 8 * (n - 1), 8 * r, 3, 3);
        if b.err.None? {
          BlockEnd(pic, last, a.st, blocks[k], 8 * (n - 1), 8 * r, b);
        }
      }
      RowMore(pic, last, st, blocks, r, n - 1, a, b);
    }
  }

  // ---------- rows of blocks ----------

  ghost predicate RowsShown(pic: Picture, last: seq<nat>, blocks: seq<Block>, m: nat, leaves: seq<Leaf>) {
    forall px: nat, py: nat, old': nat :: py / 8 < m && px / 8 < pic.stride / 8
                                          && Index(pic, py / 8, px / 8) < |blocks| ==>
      ShowsAt(pic, last, leaves, px, py, old', FramePixel(pic, last, blocks, px, py, old'))
  }

  ghost predicate RowsInsideTo(pic: Picture, blocks: seq<Block>, m: nat) {
    forall r :: 0 <= r < m ==> RowInsideTo(pic, blocks, r, pic.stride / 8)
  }

  lemma RowsShownMore(pic: Picture, last: seq<nat>, blocks: seq<Block>, m: nat, a: seq<Leaf>, b: seq<Leaf>)
    requires RowsShown(pic, last, blocks, m, a) && RowShown(pic, last, blocks, m, pic.stride / 8, b)
    ensures RowsShown(pic, last, blocks, m + 1, a + b)
  {
    hide ShowsAt, FramePixel, Index;
    forall px: nat, py: nat, old': nat
      | py / 8 < m + 1 && px / 8 < pic.stride / 8 && Index(pic, py / 8, px / 8) < |blocks|
      ensures ShowsAt(pic, last, a + b, px, py, old', FramePixel(pic, last, blocks, px, py, old'))
    {
      if py / 8 == m {
        assert ShowsAt(pic, last, b, px, py, old', FramePixel(pic, last, blocks, px, py, old'));
      } else {
        assert ShowsAt(pic, last, a, px, py, old', FramePixel(pic, last, blocks, px, py, old'));
      }
      ShownInBoth(pic, last, a, b, px, py, old', FramePixel(pic, last, blocks, px, py, old'));
    }
  }

  /** What the first m rows of blocks are read as. */
  ghost predicate RowsRead(pic: Picture, last: seq<nat>, st: Streams, blocks: seq<Block>, m: nat, a: Parsed) {
    && (a.err.None? <==> RowsInsideTo(pic, blocks, m))
    && (a.err.None? ==>
          && Index(pic, m, 0) <= |blocks| && FrameBytes(blocks, Index(pic, m, 0)) <= st.bytes
          && FrameWords(blocks, Index(pic, m, 0)) <= st.words
          && a.st == Behind(pic, st, blocks, Index(pic, m, 0)) && RowsShown(pic, last, blocks, m, a.leaves))
  }

  lemma RowsReadEnd(pic: Picture, last: seq<nat>, st: Streams, blocks: seq<Block>, m: nat, a: Parsed)
    requires RowsRead(pic, last, st, blocks, m, a) && a.err.None?
    ensures Index(pic, m, 0) <= |blocks| && FrameBytes(blocks, Index(pic, m, 0)) <= st.bytes
    ensures FrameWords(blocks, Index(pic, m, 0)) <= st.words
    ensures a.st == Behind(pic, st, blocks, Index(pic, m, 0)) && RowsShown(pic, last, blocks, m, a.leaves)
  {
    hide Index, RowsInsideTo, RowsShown, Behind, FrameBytes, FrameWords;
  }

  lemma RowsUpTo(pic: Picture, st: Streams, m: nat)
    requires ValidPicture(pic) && ByteStreams(st)
    ensures ParseRows(pic, st, 0) == Parsed([], st, None)
    ensures m > 0 ==>
              var a := ParseRows(pic, st, m - 1);
              ParseRows(pic, st, m)
              == if a.err.Some? then a else Then(a, ParseRow(pic, a.st, 8 * (m - 1), pic.stride / 8))
  {
    hide ParseRow, ByteStreams, ValidPicture, Then;
  }

  lemma NoRowsRead(pic: Picture, last: seq<nat>, st: Streams, blocks: seq<Block>)
    ensures RowsRead(pic, last, st, blocks, 0, Parsed([], st, None))
  {
    hide Shown, MovesInside;
  }

  lemma RowsMore(pic: Picture, last: seq<nat>, st: Streams, blocks: seq<Block>, m: nat, a: Parsed, b: Parsed)
    requires RowsRead(pic, last, st, blocks, m, a) && Index(pic, m, pic.stride / 8) == Index(pic, m + 1, 0)
    requires a.err.None? ==> RowRead(pic, last, st, blocks, m, pic.stride / 8, b)
    ensures RowsRead(pic, last, st, blocks, m + 1, if a.err.Some? then a else Then(a, b))
  {
    hide Index, RowInsideTo, RowsShown, RowShown, Behind, FrameBytes, FrameWords;
    if a.err.None? && b.err.None? {
      RowsShownMore(pic, last, blocks, m, a.leaves, b.leaves);
    }
  }

  lemma {:induction false} RowsReadBack(pic: Picture, last: seq<nat>, st: Streams, blocks: seq<Block>, m: nat)
    requires Frames(pic, last) && Holds(pic, st, blocks) && m <= pic.height / 8
    requires ValidPicture(pic) && ByteStreams(st)
    ensures RowsRead(pic, last, st, blocks, m, ParseRows(pic, st, m))
  {
    hide *;
    RowsUpTo(pic, st, m);
    HoldsShape(pic, st, blocks);
    if m == 0 {
      NoRowsRead(pic, last, st, blocks);
    } else {
      RowsReadBack(pic, last, st, blocks, m - 1);
      Indices(pic, blocks, m - 1, 0);
      var a := ParseRows(pic, st, m - 1);
      var b := ParseRow(pic, a.st, 8 * (m - 1), pic.stride / 8);
      if a.err.None? {
        RowsReadEnd(pic, last, st, blocks, m - 1, a);
        RowReadsBack(pic, last, st, blocks, m - 1, pic.stride / 8, a.st);
      }
      RowsMore(pic, last, st, blocks, m - 1, a, b);
    }
  }

  /** The motion of every block of the frame stays inside. */
  ghost predicate FrameInside(pic: Picture, blocks: seq<Block>) {
    forall r, c :: 0 <= r < pic.height / 8 && 0 <= c < pic.stride / 8 && Index(pic, r, c) < |blocks| ==>
      PartInside(pic, blocks, r, c)
  }

  lemma InsideByRows(pic: Picture, blocks: seq<Block>)
    ensures RowsInsideTo(pic, blocks, pic.height / 8) <==> FrameInside(pic, blocks)
  {
    hide PartInside, Index;
    if RowsInsideTo(pic, blocks, pic.height / 8) {
      forall r, c | 0 <= r < pic.height / 8 && 0 <= c < pic.stride / 8 && Index(pic, r, c) < |blocks|
        ensures PartInside(pic, blocks, r, c)
      {
        assert RowInsideTo(pic, blocks, r, pic.stride / 8);
      }
    }
    if FrameInside(pic, blocks) {
      forall r | 0 <= r < pic.height / 8 ensures RowInsideTo(pic, blocks, r, pic.stride / 8) {
      }
    }
  }

  lemma PixelBlock(pic: Picture, blocks: seq<Block>, p: nat)
    requires Blocks(pic) && |blocks| == (pic.height / 8) * (pic.stride / 8) && p < pic.stride * pic.height
    ensures Col(pic, p) / 8 < pic.stride / 8 && Row(pic, p) / 8 < pic.height / 8
    ensures Index(pic, Row(pic, p) / 8, Col(pic, p) / 8) < |blocks|
  {
    hide Row, Col, Index;
    PixelInFrame(pic, p);
    Indices(pic, blocks, Row(pic, p) / 8, Col(pic, p) / 8);
  }

  /** Every frame is read back: if no motion leads out of the picture, and only then, the frame is
      decoded, the streams are read up to its end, and every pixel is what the blocks stand for. */
  lemma FrameReadsBack(pic: Picture, last: seq<nat>, frame: seq<nat>, st: Streams, blocks: seq<Block>)
    requires Frames(pic, last) && Holds(pic, st, blocks) && |frame| == |last|
    ensures ValidPicture(pic) && ByteStreams(st)
    ensures var r := ParseFrame(pic, st);
      && (r.err.None? <==> FrameInside(pic, blocks))
      && (r.err.None? ==> && r.st.pos == st.pos + |FrameBits(pic, blocks, |blocks|)|
                          && st.bytes == FrameBytes(blocks, |blocks|) + r.st.bytes
                          && st.words == FrameWords(blocks, |blocks|) + r.st.words)
    ensures var r := ParseFrame(pic, st);
      r.err.None? ==> AllSound(pic, r.leaves)
                      && forall p :: 0 <= p < |frame| ==>
                           && Index(pic, Row(pic, p) / 8, Col(pic, p) / 8) < |blocks|
                           && PaintAll(pic, last, frame, r.leaves, |r.leaves|)[p]
                              == FramePixel(pic, last, blocks, Col(pic, p), Row(pic, p), frame[p])
  {
    hide *;
    HoldsShape(pic, st, blocks);
    FrameShape(pic, last);
    RowsReadBack(pic, last, st, blocks, pic.height / 8);
    InsideByRows(pic, blocks);
    FrameEnd(pic, last, st, blocks);
    if ParseFrame(pic, st).err.None? {
      SoundFrame(pic, st);
      forall p | 0 <= p < |frame|
        ensures && Index(pic, Row(pic, p) / 8, Col(pic, p) / 8) < |blocks|
                && PaintAll(pic, last, frame, ParseFrame(pic, st).leaves, |ParseFrame(pic, st).leaves|)[p]
                   == FramePixel(pic, last, blocks, Col(pic, p), Row(pic, p), frame[p])
      {
        PixelBlock(pic, blocks, p);
        PixelIsShown(pic, last, frame, st, blocks, p);
      }
    }
  }

  lemma SoundFrame(pic: Picture, st: Streams)
    requires Blocks(pic) && ByteStreams(st)
    ensures AllSound(pic, ParseFrame(pic, st).leaves)
  {
    hide AllSound, ParseRows, ByteStreams;
    RowsAreSound(pic, st, pic.height / 8);
  }

  /** How the rows of a frame end. */
  lemma FrameEnd(pic: Picture, last: seq<nat>, st: Streams, blocks: seq<Block>)
    requires Blocks(pic) && ByteStreams(st) && |blocks| == (pic.height / 8) * (pic.stride / 8)
    requires RowsRead(pic, last, st, blocks, pic.height / 8, ParseRows(pic, st, pic.height / 8))
    ensures var r := ParseFrame(pic, st);
      && (r.err.None? <==> RowsInsideTo(pic, blocks, pic.height / 8))
      && (r.err.None? ==> && r.st.pos == st.pos + |FrameBits(pic, blocks, |blocks|)|
                          && st.bytes == FrameBytes(blocks, |blocks|) + r.st.bytes
                          && st.words == FrameWords(blocks, |blocks|) + r.st.words
                          && RowsShown(pic, last, blocks, pic.height / 8, r.leaves))
  {
    hide ParseRows, RowsInsideTo, RowsShown, FrameBits, FrameBytes, FrameWords, ByteStreams;
    assert Index(pic, pic.height / 8, 0) == |blocks|;
  }

  lemma PixelIsShown(pic: Picture, last: seq<nat>, frame: seq<nat>, st: Streams, blocks: seq<Block>, p: nat)
    requires Blocks(pic) && ByteStreams(st) && |last| == |frame| == pic.stride * pic.height && p < |frame|
    requires |blocks| == (pic.height / 8) * (pic.stride / 8) && Index(pic, Row(pic, p) / 8, Col(pic, p) / 8) < |blocks|
    requires ParseFrame(pic, st).err.None? && AllSound(pic, ParseFrame(pic, st).leaves)
    requires RowsShown(pic, last, blocks, pic.height / 8, ParseFrame(pic, st).leaves)
    ensures PaintAll(pic, last, frame, ParseFrame(pic, st).leaves, |ParseFrame(pic, st).leaves|)[p]
         == FramePixel(pic, last, blocks, Col(pic, p), Row(pic, p), frame[p])
  {
    hide ParseFrame, AllSound, Row, Col, Index, LeafPixel, PaintAll, FramePixel, ByteStreams, Sound, Contains;
    var leaves, px, py := ParseFrame(pic, st).leaves, Col(pic, p), Row(pic, p);
    PixelBlock(pic, blocks, p);
    var m := FrameIsPainted(pic, st, last, frame, p);
    assert ShowsAt(pic, last, leaves, px, py, frame[p], FramePixel(pic, last, blocks, px, py, frame[p]));
    var l :| l in leaves && ShownBy(pic, last, l, px, py, frame[p], FramePixel(pic, last, blocks, px, py, frame[p]));
    var n :| 0 <= n < |leaves| && leaves[n] == l;
    assert n == m;
  }

  // ---------- data that ends early ----------

  /** Motion byte i; zeros follow the last one. */
  function ByteAt(bytes: seq<nat>, i: nat): nat {
    if i < |bytes| then bytes[i] else 0
  }

  /** Word i, the low byte first; zeros follow the last whole one. */
  function WordAt(words: seq<nat>, i: nat): nat {
    if 2 * i + 1 < |words| then words[2 * i] + 256 * words[2 * i + 1] else 0
  }

  /** The same code words, motion bytes and 16-bit words follow. */
  ghost predicate Alike(a: Streams, b: Streams) {
    && a.bits == b.bits && a.pos == b.pos
    && (forall i: nat :: ByteAt(a.bytes, i) == ByteAt(b.bytes, i))
    && (forall i: nat :: WordAt(a.words, i) == WordAt(b.words, i))
  }

  /** The same leaves and error, and alike after them. */
  ghost predicate ParsedAlike(a: Parsed, b: Parsed) {
    a.leaves == b.leaves && a.err == b.err && Alike(a.st, b.st)
  }

  lemma BytesAlike(a: Streams, b: Streams)
    requires Alike(a, b)
    ensures GetByte(a).0 == GetByte(b).0 && Alike(GetByte(a).1, GetByte(b).1)
  {
    hide WordAt;
    ByteGone(a);
    ByteGone(b);
    forall i: nat ensures ByteAt(GetByte(a).1.bytes, i) == ByteAt(GetByte(b).1.bytes, i) {
      assert ByteAt(a.bytes, i + 1) == ByteAt(b.bytes, i + 1);
    }
    assert ByteAt(a.bytes, 0) == ByteAt(b.bytes, 0);
  }

  lemma ByteGone(st: Streams)
    ensures GetByte(st).0 == ByteAt(st.bytes, 0)
    ensures forall i: nat :: ByteAt(GetByte(st).1.bytes, i) == ByteAt(st.bytes, i + 1)
  {
  }

  lemma WordsAlike(a: Streams, b: Streams)
    requires Alike(a, b)
    ensures GetLe16(a).0 == GetLe16(b).0 && Alike(GetLe16(a).1, GetLe16(b).1)
  {
    hide ByteAt, WordAt;
    WordGone(a);
    WordGone(b);
    forall i: nat ensures WordAt(GetLe16(a).1.words, i) == WordAt(GetLe16(b).1.words, i) {
      assert WordAt(a.words, i + 1) == WordAt(b.words, i + 1);
    }
    assert WordAt(a.words, 0) == WordAt(b.words, 0);
  }

  lemma WordGone(st: Streams)
    ensures GetLe16(st).0 == WordAt(st.words, 0)
    ensures forall i: nat :: WordAt(GetLe16(st).1.words, i) == WordAt(st.words, i + 1)
  {
  }

  lemma LeafAlike(pic: Picture, a: Streams, b: Streams, code: nat, x: nat, y: nat, log2w: nat, log2h: nat)
    requires ValidPicture(pic) && ByteStreams(a) && ByteStreams(b) && Alike(a, b) && log2w <= 3 && log2h <= 3
    ensures ParsedAlike(ParseLeaf(pic, a, code, x, y, log2w, log2h), ParseLeaf(pic, b, code, x, y, log2w, log2h))
  {
    hide GetByte, GetLe16, Alike, InPicture;
    BytesAlike(a, b);
    WordsAlike(a, b);
    WordsAlike(GetLe16(a).1, GetLe16(b).1);
    WordsAlike(GetByte(a).1, GetByte(b).1);
  }

  lemma NextAlike(pic: Picture, a: Streams, b: Streams, log2w: nat, log2h: nat)
    requires log2w <= 3 && log2h <= 3 && Alike(a, b)
    ensures var m, n := ReadNext(pic, a, log2w, log2h), ReadNext(pic, b, log2w, log2h);
      if m.Next? then n.Next? && n.code == m.code && Alike(m.st, n.st) else n == m
  {
    hide ReadCode, ByteAt, WordAt;
  }

  lemma {:induction false} BlockAlike(pic: Picture, a: Streams, b: Streams, x: nat, y: nat, log2w: int, log2h: int)
    requires ValidPicture(pic) && ByteStreams(a) && ByteStreams(b) && Alike(a, b)
    requires -1 <= log2w <= 3 && -1 <= log2h <= 3
    ensures ParsedAlike(ParseBlock(pic, a, x, y, log2w, log2h), ParseBlock(pic, b, x, y, log2w, log2h))
    decreases log2w + log2h
  {
    hide ReadNext, ParseLeaf, Alike, ByteStreams, ValidPicture, Side;
    if log2w >= 0 && log2h >= 0 {
      NextAlike(pic, a, b, log2w, log2h);
      NextKeepsStreams(pic, a, log2w, log2h);
      NextKeepsStreams(pic, b, log2w, log2h);
      var m, n := ReadNext(pic, a, log2w, log2h), ReadNext(pic, b, log2w, log2h);
      if m.Next? && m.code == 1 && log2h > 0 {
        BlockAlike(pic, m.st, n.st, x, y, log2w, log2h - 1);
        BlockAlike(pic, ParseBlock(pic, m.st, x, y, log2w, log2h - 1).st,
                   ParseBlock(pic, n.st, x, y, log2w, log2h - 1).st, x, y + Side(log2h - 1), log2w, log2h - 1);
      } else if m.Next? && m.code == 2 && log2w > 0 {
        BlockAlike(pic, m.st, n.st, x, y, log2w - 1, log2h);
        BlockAlike(pic, ParseBlock(pic, m.st, x, y, log2w - 1, log2h).st,
                   ParseBlock(pic, n.st, x, y, log2w - 1, log2h).st, x + Side(log2w - 1), y, log2w - 1, log2h);
      } else if m.Next? && m.code != 1 && m.code != 2 {
        LeafAlike(pic, m.st, n.st, m.code, x, y, log2w, log2h);
      }
    }
  }

  lemma {:induction false} RowAlike(pic: Picture, a: Streams, b: Streams, y: nat, n: nat)
    requires ValidPicture(pic) && ByteStreams(a) && ByteStreams(b) && Alike(a, b)
    ensures ParsedAlike(ParseRow(pic, a, y, n), ParseRow(pic, b, y, n))
  {
    hide ParseBlock, Alike, ByteStreams, ValidPicture;
    if n > 0 {
      RowAlike(pic, a, b, y, n - 1);
      BlockAlike(pic, ParseRow(pic, a, y, n - 1).st, ParseRow(pic, b, y, n - 1).st, 8 * (n - 1), y, 3, 3);
    }
  }

  lemma {:induction false} RowsAlike(pic: Picture, a: Streams, b: Streams, m: nat)
    requires ValidPicture(pic) && ByteStreams(a) && ByteStreams(b) && Alike(a, b)
    ensures ParsedAlike(ParseRows(pic, a, m), ParseRows(pic, b, m))
  {
    hide ParseRow, Alike, ByteStreams, ValidPicture;
    if m > 0 {
      RowsAlike(pic, a, b, m - 1);
      RowAlike(pic, ParseRows(pic, a, m - 1).st, ParseRows(pic, b, m - 1).st, 8 * (m - 1), pic.stride / 8);
    }
  }

  /** Motion bytes and words that are missing are read as zeros: a frame whose data ends early is the
      frame of the data with zeros behind it. */
  lemma MissingDataIsZero(pic: Picture, a: Streams, b: Streams)
    requires ValidPicture(pic) && ByteStreams(a) && ByteStreams(b) && Alike(a, b)
    ensures ParseFrame(pic, a).leaves == ParseFrame(pic, b).leaves && ParseFrame(pic, a).err == ParseFrame(pic, b).err
  {
    hide ParseRows, Alike, ByteStreams, ValidPicture;
    RowsAlike(pic, a, b, pic.height / 8);
  }
}
