/** Quantised spectral values of AAC: the Huffman-coded vectors, sign bits and escape sequences
    of one scalefactor band (ISO/IEC 14496-3 table 4.50). The encoder side is
    quantize_and_encode_band_cost_template (libavcodec/aaccoder.c), the decoder side the integer
    part of decode_spectrum_and_dequant (libavcodec/aacdec.c). */
module AacSpectral {
  import opened Wrappers
  import opened Sums
  import opened BitIO
  import opened CodeLists

  const ESC_BOOK: nat := 11
  const ESC_DIGIT: nat := 16
  const ESC_MAX: nat := 8191

  predicate Book(cb: nat) {
    1 <= cb <= 11
  }

  /** Values per code word: four up to book 4, then two. */
  function Dim(cb: nat): (d: nat)
    ensures d == 2 || d == 4
  {
    if cb >= 5 then 2 else 4
  }

  predicate Unsigned(cb: nat) {
    cb == 3 || cb == 4 || cb >= 7
  }

  /** aac_cb_maxval. */
  function MaxVal(cb: nat): (m: nat)
    requires Book(cb)
    ensures 1 <= m <= 16
  {
    if cb <= 2 then 1 else if cb <= 4 then 2 else if cb <= 6 then 4
    else if cb <= 8 then 7 else if cb <= 10 then 12 else 16
  }

  /** aac_cb_range: how many digits a code word's index distinguishes per value. */
  function Range(cb: nat): (r: nat)
    requires Book(cb)
    ensures r == if Unsigned(cb) then MaxVal(cb) + 1 else 2 * MaxVal(cb) + 1
  {
    if cb <= 4 then 3 else if cb <= 6 then 9 else if cb <= 8 then 8 else if cb <= 10 then 13 else 17
  }

  function Abs(x: int): nat {
    if x < 0 then -x else x
  }

  /** The quantised values a codebook can carry. */
  predicate Fits(cb: nat, x: int)
    requires Book(cb)
  {
    if cb == ESC_BOOK then Abs(x) <= ESC_MAX else Abs(x) <= MaxVal(cb)
  }

  predicate AllFit(cb: nat, q: seq<int>)
    requires Book(cb)
  {
    forall i :: 0 <= i < |q| ==> Fits(cb, q[i])
  }

  /** The digit of one value inside the code word's index. */
  function Digit(cb: nat, x: int): (d: nat)
    requires Book(cb) && Fits(cb, x)
    ensures d < Range(cb)
  {
    if !Unsigned(cb) then x + MaxVal(cb)
    else if Abs(x) > ESC_DIGIT then ESC_DIGIT
    else Abs(x)
  }

  /** curidx = curidx * range + quants[j] + off, over the first k values of a vector. */
  function VectorIndex(cb: nat, q: seq<int>, k: nat): nat
    requires Book(cb) && AllFit(cb, q) && k <= |q|
  {
    if k == 0 then 0 else VectorIndex(cb, q, k - 1) * Range(cb) + Digit(cb, q[k - 1])
  }

  /** The digits a code word's index stands for (the decoder's vector tables). */
  function Digits(cb: nat, dim: nat, idx: nat): (ds: seq<nat>)
    requires Book(cb)
    ensures |ds| == dim
  {
    if dim == 0 then [] else Digits(cb, dim - 1, idx / Range(cb)) + [idx % Range(cb)]
  }

  lemma {:induction false} DigitsOfIndex(cb: nat, q: seq<int>, k: nat)
    requires Book(cb) && AllFit(cb, q) && k <= |q|
    ensures forall i :: 0 <= i < k ==> Digits(cb, k, VectorIndex(cb, q, k))[i] == Digit(cb, q[i])
  {
    if k > 0 {
      DigitsOfIndex(cb, q, k - 1);
      DivMod(VectorIndex(cb, q, k - 1), Range(cb), Digit(cb, q[k - 1]));
    }
  }

  lemma MulMonotone(a: nat, b: nat, r: nat)
    requires a <= b
    ensures a * r <= b * r
  {
  }

  lemma MulOrder(a: nat, b: nat, r: nat)
    requires a * r < b * r + r
    ensures a <= b
  {
    if b < a {
      assert b * r + r == (b + 1) * r;
      MulMonotone(b + 1, a, r);
    }
  }

  lemma DivMod(a: nat, r: nat, d: nat)
    requires d < r
    ensures (a * r + d) / r == a && (a * r + d) % r == d
  {
    var x := a * r + d;
    var q := x / r;
    assert x == q * r + x % r;
    MulOrder(q, a, r);
    MulOrder(a, q, r);
  }

  /** One digit more multiplies the bound on the index by the range. */
  lemma IndexBound(cb: nat, q: seq<int>, k: nat, b: nat)
    requires Book(cb) && AllFit(cb, q) && 0 < k <= |q| && VectorIndex(cb, q, k - 1) < b
    ensures VectorIndex(cb, q, k) < b * Range(cb)
  {
    var v, r := VectorIndex(cb, q, k - 1), Range(cb);
    MulMonotone(v + 1, b, r);
    assert (v + 1) * r == v * r + r;
  }

  // ---------- signs and escapes ----------

  /** One sign bit per non-zero value, set for negative. */
  function SignBits(x: int): Bits {
    if x != 0 then [x < 0] else []
  }

  /** Powers of two from 2^4 to 2^12. */
  function Exp(len: nat): nat {
    if len <= 4 then 16 else if len == 5 then 32 else if len == 6 then 64 else if len == 7 then 128
    else if len == 8 then 256 else if len == 9 then 512 else if len == 10 then 1024 else if len == 11 then 2048
    else 4096
  }

  /** av_log2 of an escape value. */
  function Log2(c: nat): (len: nat)
    requires ESC_DIGIT <= c <= ESC_MAX
    ensures 4 <= len <= 12 && Exp(len) <= c < 2 * Exp(len)
  {
    if c < 32 then 4 else if c < 64 then 5 else if c < 128 then 6 else if c < 256 then 7
    else if c < 512 then 8 else if c < 1024 then 9 else if c < 2048 then 10 else if c < 4096 then 11 else 12
  }

  lemma ExpIsPow2(len: nat)
    requires 4 <= len <= 12
    ensures Pow2(len) == Exp(len)
  {
    assert Pow2(4) == 16 && Pow2(5) == 32 && Pow2(6) == 64 && Pow2(7) == 128 && Pow2(8) == 256;
    assert Pow2(9) == 512 && Pow2(10) == 1024 && Pow2(11) == 2048 && Pow2(12) == 4096;
  }

  /** n ones and a zero. */
  function Unary(n: nat): (b: Bits)
    ensures |b| == n + 1
  {
    if n == 0 then [false] else [true] + Unary(n - 1)
  }

  /** len - 4 ones, a zero, then the low len bits of the value. */
  function EscapeCode(c: nat): (b: Bits)
    requires ESC_DIGIT <= c <= ESC_MAX
    ensures |b| == 2 * Log2(c) - 3
  {
    Unary(Log2(c) - 4) + ToBits(Log2(c), c - Exp(Log2(c)))
  }

  function EscapeBits(x: int): Bits {
    if ESC_DIGIT <= Abs(x) <= ESC_MAX then EscapeCode(Abs(x)) else []
  }

  /** What follows the code word: signs of an unsigned book, escapes of the escape book. */
  function TailCode(cb: nat, q: seq<int>): Bits {
    if !Unsigned(cb) then []
    else if cb == ESC_BOOK then Cat(SignBits, q, |q|) + Cat(EscapeBits, q, |q|)
    else Cat(SignBits, q, |q|)
  }

  /** A spectral code book: its code words, and the digits each of them stands for. */
  datatype CodeBook = CodeBook(words: seq<Bits>, vectors: seq<seq<nat>>)

  predicate Sized(book: CodeBook, cb: nat) {
    |book.words| == |book.vectors| && forall i :: 0 <= i < |book.vectors| ==> |book.vectors[i]| == Dim(cb)
  }

  /** The bits of one vector: code word, signs, escapes. */
  function VectorCode(book: CodeBook, cb: nat, q: seq<int>): Bits
    requires Book(cb) && AllFit(cb, q) && VectorIndex(cb, q, |q|) < |book.words|
  {
    book.words[VectorIndex(cb, q, |q|)] + TailCode(cb, q)
  }

  // ---------- the decoder ----------

  /** Number of leading ones, giving up at the limit. */
  function LeadingOnes(data: Bits, pos: nat, limit: nat): (n: nat)
    ensures n <= limit
    decreases limit, data
  {
    if limit == 0 || !BitAt(data, pos) then 0 else 1 + LeadingOnes(data, pos + 1, limit - 1)
  }

  /** One escape sequence: error beyond eight leading ones. */
  function DecodeEscape(data: Bits, pos: nat): Result<nat> {
    var ones := LeadingOnes(data, pos, 9);
    if ones > 8 then Err
    else Ok(Exp(ones + 4) + GetBits(data, pos + ones + 1, ones + 4), pos + ones + 1 + ones + 4)
  }

  lemma {:induction false} UnaryReadsBack(data: Bits, pos: nat, n: nat, limit: nat)
    requires StartsAt(data, pos, Unary(n)) && n < limit
    ensures LeadingOnes(data, pos, limit) == n
    decreases n
  {
    StartsAtBit(data, pos, Unary(n), 0);
    if n > 0 {
      StartsAtParts(data, pos, [true], Unary(n - 1));
      UnaryReadsBack(data, pos + 1, n - 1, limit - 1);
    }
  }

  /** An escape sequence reads back. */
  lemma EscapeRoundTrip(data: Bits, pos: nat, c: nat)
    requires ESC_DIGIT <= c <= ESC_MAX && StartsAt(data, pos, EscapeCode(c))
    ensures DecodeEscape(data, pos) == Ok(c, pos + |EscapeCode(c)|)
  {
    var len := Log2(c);
    var low := c - Exp(len);
    ExpIsPow2(len);
    StartsAtParts(data, pos, Unary(len - 4), ToBits(len, low));
    UnaryReadsBack(data, pos, len - 4, 9);
    ReadField(data, pos + len - 3, len, low);
  }

  /** The first code word found at the position. */
  function Lookup(book: seq<Bits>, data: Bits, pos: nat, n: nat): (r: Result<nat>)
    requires n <= |book|
    ensures r.Ok? ==> r.value < n
  {
    if n == 0 then Err
    else if StartsAt(data, pos, book[n - 1]) then Ok(n - 1, pos + |book[n - 1]|)
    else Lookup(book, data, pos, n - 1)
  }

  ghost predicate PrefixFree(book: seq<Bits>) {
    forall i, j :: 0 <= i < |book| && 0 <= j < |book| && i != j ==> !(book[i] <= book[j])
  }

  lemma OneIsPrefix(data: Bits, pos: nat, a: Bits, b: Bits)
    requires StartsAt(data, pos, a) && StartsAt(data, pos, b)
    ensures a <= b || b <= a
  {
    forall i | 0 <= i < |a| && i < |b| ensures a[i] == b[i] {
      StartsAtBit(data, pos, a, i);
      StartsAtBit(data, pos, b, i);
    }
  }

  lemma {:induction false} LookupFinds(book: seq<Bits>, data: Bits, pos: nat, n: nat, i: nat)
    requires PrefixFree(book) && i < n <= |book| && StartsAt(data, pos, book[i])
    ensures Lookup(book, data, pos, n) == Ok(i, pos + |book[i]|)
  {
    if n - 1 != i {
      if StartsAt(data, pos, book[n - 1]) {
        OneIsPrefix(data, pos, book[n - 1], book[i]);
      }
      LookupFinds(book, data, pos, n - 1, i);
    }
  }

  function Signed(d: int, negative: bool): int {
    if negative then -d else d
  }

  /** A non-zero digit takes its sign from the next bit. */
  function ParseSign(data: Bits, pos: nat, d: nat): Result<int> {
    if d == 0 then Ok(0, pos) else Ok(Signed(d, BitAt(data, pos)), pos + 1)
  }

  /** An escape digit is replaced by the escape sequence at pos, keeping the sign. */
  function ParseEscape(data: Bits, pos: nat, x: int): Result<int> {
    if Abs(x) != ESC_DIGIT then Ok(x, pos)
    else
      match DecodeEscape(data, pos)
      case Err => Err
      case Ok(c, p) => Ok(Signed(c, x < 0), p)
  }

  /** The signs and escapes that follow a code word with these digits. */
  function DecodeTail(cb: nat, data: Bits, pos: nat, ds: seq<nat>): (r: Result<seq<int>>)
    requires Book(cb)
    ensures r.Ok? ==> |r.value| == |ds|
  {
    if !Unsigned(cb) then Ok(seq(|ds|, i requires 0 <= i < |ds| => ds[i] - MaxVal(cb)), pos)
    else
      match Many(ParseSign, data, pos, ds, |ds|)
      case Err => Err
      case Ok(x, p) => if cb == ESC_BOOK then Many(ParseEscape, data, p, x, |x|) else Ok(x, p)
  }

  /** One code word with its signs and escapes. */
  function DecodeVector(book: CodeBook, cb: nat, data: Bits, pos: nat): (r: Result<seq<int>>)
    requires Book(cb) && Sized(book, cb)
    ensures r.Ok? ==> |r.value| == Dim(cb)
  {
    match Lookup(book.words, data, pos, |book.words|)
    case Err => Err
    case Ok(idx, p) => DecodeTail(cb, data, p, book.vectors[idx])
  }

  // ---------- round trip ----------

  /** A value with its magnitude clipped to the escape digit. */
  function Clip(x: int): int {
    var e: int := ESC_DIGIT;
    if x > e then e else if x < -e then -e else x
  }

  lemma SignReadsBack(data: Bits, x: int, d: nat)
    requires d == Abs(Clip(x))
    ensures ReadsBack(ParseSign, SignBits, data, d, Clip(x))
  {
    forall p: nat | StartsAt(data, p, SignBits(Clip(x)))
      ensures ParseSign(data, p, d) == Ok(Clip(x), p + |SignBits(Clip(x))|)
    {
      if x != 0 {
        StartsAtBit(data, p, SignBits(Clip(x)), 0);
      }
    }
  }

  lemma EscapeReadsBackAt(data: Bits, pos: nat, x: int)
    requires Abs(x) <= ESC_MAX && StartsAt(data, pos, EscapeBits(x))
    ensures ParseEscape(data, pos, Clip(x)) == Ok(x, pos + |EscapeBits(x)|)
  {
    if Abs(x) >= ESC_DIGIT {
      EscapeRoundTrip(data, pos, Abs(x));
      assert Abs(Clip(x)) == ESC_DIGIT && (Clip(x) < 0 <==> x < 0);
    } else {
      assert Clip(x) == x;
    }
  }

  lemma EscapeReadsBack(data: Bits, x: int)
    requires Abs(x) <= ESC_MAX
    ensures ReadsBack(ParseEscape, EscapeBits, data, Clip(x), x)
  {
    forall p: nat | StartsAt(data, p, EscapeBits(x))
      ensures ParseEscape(data, p, Clip(x)) == Ok(x, p + |EscapeBits(x)|)
    {
      EscapeReadsBackAt(data, p, x);
    }
  }

  /** ds are the digits of the values of q. */
  ghost predicate HasDigits(cb: nat, q: seq<int>, ds: seq<nat>) {
    Book(cb) && AllFit(cb, q) && |ds| == |q| && forall i :: 0 <= i < |q| ==> ds[i] == Digit(cb, q[i])
  }

  lemma SignedTail(cb: nat, q: seq<int>, data: Bits, pos: nat, ds: seq<nat>)
    requires HasDigits(cb, q, ds) && !Unsigned(cb)
    ensures DecodeTail(cb, data, pos, ds) == Ok(q, pos)
  {
    assert seq(|ds|, i requires 0 <= i < |ds| => ds[i] - MaxVal(cb)) == q;
  }

  /** The values with their magnitudes clipped. */
  function Clipped(q: seq<int>): (x: seq<int>)
    ensures |x| == |q| && forall i :: 0 <= i < |q| ==> x[i] == Clip(q[i])
  {
    seq(|q|, i requires 0 <= i < |q| => Clip(q[i]))
  }

  lemma {:induction false} SignsOfClipped(q: seq<int>, k: nat)
    requires k <= |q|
    ensures Cat(SignBits, Clipped(q), k) == Cat(SignBits, q, k)
  {
    if k > 0 {
      SignsOfClipped(q, k - 1);
    }
  }

  /** The sign bits give the digits of an unsigned book their signs. */
  lemma SignsReadBack(cb: nat, q: seq<int>, data: Bits, pos: nat, ds: seq<nat>)
    requires HasDigits(cb, q, ds) && Unsigned(cb)
    requires StartsAt(data, pos, Cat(SignBits, q, |q|))
    ensures Many(ParseSign, data, pos, ds, |ds|) == Ok(Clipped(q), pos + |Cat(SignBits, q, |q|)|)
  {
    var x := Clipped(q);
    SignsOfClipped(q, |q|);
    forall i | 0 <= i < |x| ensures ReadsBack(ParseSign, SignBits, data, ds[i], x[i]) {
      assert Fits(cb, q[i]);
      SignReadsBack(data, q[i], ds[i]);
    }
    ManyReadBack(ParseSign, SignBits, data, pos, ds, x, |x|);
    assert x[..|x|] == x;
  }

  lemma EscapesReadBack(q: seq<int>, data: Bits, pos: nat)
    requires AllFit(ESC_BOOK, q) && StartsAt(data, pos, Cat(EscapeBits, q, |q|))
    ensures Many(ParseEscape, data, pos, Clipped(q), |q|) == Ok(q, pos + |Cat(EscapeBits, q, |q|)|)
  {
    var x := Clipped(q);
    forall i | 0 <= i < |q| ensures ReadsBack(ParseEscape, EscapeBits, data, x[i], q[i]) {
      assert Fits(ESC_BOOK, q[i]);
      EscapeReadsBack(data, q[i]);
    }
    ManyReadBack(ParseEscape, EscapeBits, data, pos, x, q, |q|);
    assert q[..|q|] == q;
  }

  lemma ClippedSame(cb: nat, q: seq<int>)
    requires Book(cb) && AllFit(cb, q) && cb != ESC_BOOK
    ensures Clipped(q) == q
  {
    forall i | 0 <= i < |q| ensures Clip(q[i]) == q[i] {
      assert Fits(cb, q[i]);
    }
  }

  lemma PlainTail(cb: nat, q: seq<int>, data: Bits, pos: nat, ds: seq<nat>)
    requires HasDigits(cb, q, ds) && Unsigned(cb) && cb != ESC_BOOK
    requires StartsAt(data, pos, Cat(SignBits, q, |q|))
    ensures DecodeTail(cb, data, pos, ds) == Ok(q, pos + |Cat(SignBits, q, |q|)|)
  {
    ClippedSame(cb, q);
    SignsReadBack(cb, q, data, pos, ds);
  }

  lemma SignsThenEscapes(data: Bits, pos: nat, ds: seq<nat>, x: seq<int>, p: nat, r: Result<seq<int>>)
    requires Many(ParseSign, data, pos, ds, |ds|) == Ok(x, p)
    requires Many(ParseEscape, data, p, x, |x|) == r
    ensures DecodeTail(ESC_BOOK, data, pos, ds) == r
  {
  }

  lemma EscapeTail(q: seq<int>, data: Bits, pos: nat, ds: seq<nat>)
    requires HasDigits(ESC_BOOK, q, ds)
    requires StartsAt(data, pos, Cat(SignBits, q, |q|) + Cat(EscapeBits, q, |q|))
    ensures DecodeTail(ESC_BOOK, data, pos, ds)
         == Ok(q, pos + |Cat(SignBits, q, |q|)| + |Cat(EscapeBits, q, |q|)|)
  {
    assert AllFit(ESC_BOOK, q) && Unsigned(ESC_BOOK) && |ds| == |q|;
    hide *;
    var signs := Cat(SignBits, q, |q|);
    StartsAtParts(data, pos, signs, Cat(EscapeBits, q, |q|));
    SignsReadBack(ESC_BOOK, q, data, pos, ds);
    EscapesReadBack(q, data, pos + |signs|);
    SignsThenEscapes(data, pos, ds, Clipped(q), pos + |signs|,
                     Ok(q, pos + |signs| + |Cat(EscapeBits, q, |q|)|));
  }

  /** Signs and escapes read back. */
  lemma TailRoundTrip(cb: nat, q: seq<int>, data: Bits, pos: nat, ds: seq<nat>)
    requires HasDigits(cb, q, ds) && StartsAt(data, pos, TailCode(cb, q))
    ensures DecodeTail(cb, data, pos, ds) == Ok(q, pos + |TailCode(cb, q)|)
  {
    if !Unsigned(cb) {
      SignedTail(cb, q, data, pos, ds);
    } else if cb == ESC_BOOK {
      EscapeTail(q, data, pos, ds);
    } else {
      PlainTail(cb, q, data, pos, ds);
    }
  }

  lemma DecodeAfterWord(book: CodeBook, cb: nat, idx: nat, data: Bits, pos: nat)
    requires Book(cb) && Sized(book, cb) && PrefixFree(book.words) && idx < |book.words|
    requires StartsAt(data, pos, book.words[idx])
    ensures DecodeVector(book, cb, data, pos) == DecodeTail(cb, data, pos + |book.words[idx]|, book.vectors[idx])
  {
    LookupFinds(book.words, data, pos, |book.words|, idx);
  }

  lemma WordAndTail(book: CodeBook, cb: nat, idx: nat, q: seq<int>, data: Bits, pos: nat)
    requires Book(cb) && Sized(book, cb) && PrefixFree(book.words) && idx < |book.words|
    requires HasDigits(cb, q, book.vectors[idx])
    requires StartsAt(data, pos, book.words[idx] + TailCode(cb, q))
    ensures DecodeVector(book, cb, data, pos) == Ok(q, pos + |book.words[idx]| + |TailCode(cb, q)|)
  {
    hide StartsAt, TailCode, HasDigits, PrefixFree, DecodeVector, DecodeTail;
    var word := book.words[idx];
    StartsAtParts(data, pos, word, TailCode(cb, q));
    DecodeAfterWord(book, cb, idx, data, pos);
    TailRoundTrip(cb, q, data, pos + |word|, book.vectors[idx]);
  }

  /** A prefix-free book whose vectors are the digits of their indices. */
  ghost predicate ValidBook(book: CodeBook, cb: nat) {
    && Book(cb) && Sized(book, cb) && PrefixFree(book.words) && |book.words| == BookSize(cb)
    && forall i :: 0 <= i < |book.vectors| ==> book.vectors[i] == Digits(cb, Dim(cb), i)
  }

  lemma VectorDigits(book: CodeBook, cb: nat, q: seq<int>)
    requires ValidBook(book, cb) && |q| == Dim(cb) && AllFit(cb, q) && VectorIndex(cb, q, |q|) < |book.words|
    ensures HasDigits(cb, q, book.vectors[VectorIndex(cb, q, |q|)])
  {
    DigitsOfIndex(cb, q, |q|);
  }

  /** Every vector of quantised values reads back, consuming exactly its bits. */
  lemma VectorRoundTrip(book: CodeBook, cb: nat, q: seq<int>, data: Bits, pos: nat)
    requires ValidBook(book, cb) && |q| == Dim(cb) && AllFit(cb, q) && VectorIndex(cb, q, |q|) < |book.words|
    requires StartsAt(data, pos, VectorCode(book, cb, q))
    ensures DecodeVector(book, cb, data, pos) == Ok(q, pos + |VectorCode(book, cb, q)|)
  {
    VectorDigits(book, cb, q);
    WordAndTail(book, cb, VectorIndex(cb, q, |q|), q, data, pos);
  }

  /** Number of code words of a book: range to the power of its dimension. */
  function BookSize(cb: nat): nat
    requires Book(cb)
  {
    if cb <= 4 then 81 else if cb <= 6 then 81 else if cb <= 8 then 64 else if cb <= 10 then 169 else 289
  }

  lemma IndexInBook(cb: nat, q: seq<int>)
    requires Book(cb) && |q| == Dim(cb) && AllFit(cb, q)
    ensures VectorIndex(cb, q, |q|) < BookSize(cb)
  {
    var r := Range(cb);
    IndexBound(cb, q, 1, 1);
    IndexBound(cb, q, 2, r);
    if cb <= 4 {
      assert r == 3;
      IndexBound(cb, q, 3, 9);
      IndexBound(cb, q, 4, 27);
    }
  }

  // ---------- the cost call counts the bits the writer appends ----------

  /** Bits the cost call charges for the escape of one value. */
  function EscapeCost(x: int): int {
    if ESC_DIGIT <= Abs(x) <= ESC_MAX then Log2(Abs(x)) * 2 - 4 + 1 else 0
  }

  /** What it charges for a value clipped to the greatest escape. */
  const CLIPPED_COST: int := 21

  /** One bit for a value that is not zero. */
  function SignCost(x: int): int {
    if x != 0 then 1 else 0
  }

  /** curbits of the cost call: code word, one bit a non-zero value, escapes. */
  function VectorCost(book: CodeBook, cb: nat, q: seq<int>): int
    requires Book(cb) && AllFit(cb, q) && VectorIndex(cb, q, |q|) < |book.words|
  {
    |book.words[VectorIndex(cb, q, |q|)]|
      + (if Unsigned(cb) then Total(SignCost, q, |q|) else 0)
      + (if cb == ESC_BOOK then Total(EscapeCost, q, |q|) else 0)
  }

  /** The cost of a vector is the number of bits written for it; a clipped value is charged
      exactly what its escape takes. */
  lemma VectorCostExact(book: CodeBook, cb: nat, q: seq<int>)
    requires Book(cb) && AllFit(cb, q) && VectorIndex(cb, q, |q|) < |book.words|
    ensures VectorCost(book, cb, q) == |VectorCode(book, cb, q)|
    ensures EscapeCost(ESC_MAX) == EscapeCost(-(ESC_MAX as int)) == CLIPPED_COST
  {
    CatLength(SignBits, SignCost, q, |q|);
    CatLength(EscapeBits, EscapeCost, q, |q|);
  }

  // ---------- bands ----------

  predicate Codable(book: CodeBook, cb: nat, v: seq<int>) {
    Book(cb) && AllFit(cb, v) && VectorIndex(cb, v, |v|) < |book.words|
  }

  function VectorCoder(book: CodeBook, cb: nat): seq<int> -> Bits {
    (v: seq<int>) => if Codable(book, cb, v) then VectorCode(book, cb, v) else []
  }

  function VectorCoster(book: CodeBook, cb: nat): seq<int> -> int {
    (v: seq<int>) => if Codable(book, cb, v) then VectorCost(book, cb, v) else 0
  }

  function VectorParser(book: CodeBook, cb: nat): (Bits, nat, ()) -> Result<seq<int>> {
    (data: Bits, pos: nat, kind: ()) => if Book(cb) && Sized(book, cb) then DecodeVector(book, cb, data, pos) else Err
  }

  /** Where vector i of a band starts. */
  function Offset(cb: nat, i: nat): (o: nat)
  {
    if cb >= 5 then 2 * i else 4 * i
  }

  function VectorCount(cb: nat, n: nat): (c: nat)
    ensures Offset(cb, c) <= n
    ensures n % 4 == 0 ==> Offset(cb, c) == n
  {
    if cb >= 5 then n / 2 else n / 4
  }

  /** A band cut into vectors. */
  function Vectors(cb: nat, vals: seq<int>): (vs: seq<seq<int>>)
    ensures |vs| == VectorCount(cb, |vals|)
    ensures forall i :: 0 <= i < |vs| ==>
      Offset(cb, i) + Dim(cb) <= |vals| && vs[i] == vals[Offset(cb, i)..Offset(cb, i) + Dim(cb)]
  {
    seq(VectorCount(cb, |vals|), i requires 0 <= i < VectorCount(cb, |vals|) =>
      vals[Offset(cb, i)..Offset(cb, i) + Dim(cb)])
  }

  function Flatten(vs: seq<seq<int>>, k: nat): seq<int>
    requires k <= |vs|
  {
    if k == 0 then [] else Flatten(vs, k - 1) + vs[k - 1]
  }

  lemma {:induction false} FlattenVectors(cb: nat, vals: seq<int>, vs: seq<seq<int>>, k: nat)
    requires k <= |vs| && vs == Vectors(cb, vals)
    ensures Offset(cb, k) <= |vals| && |Flatten(vs, k)| == Offset(cb, k)
    ensures forall i :: 0 <= i < Offset(cb, k) ==> Flatten(vs, k)[i] == vals[i]
  {
    hide Vectors;
    if k > 0 {
      FlattenVectors(cb, vals, vs, k - 1);
    }
  }

  /** The bits of one band of one window. */
  function BandCode(book: CodeBook, cb: nat, vals: seq<int>): Bits {
    Cat(VectorCoder(book, cb), Vectors(cb, vals), VectorCount(cb, |vals|))
  }

  /** The bit count the cost call reports for the band. */
  function BandCost(book: CodeBook, cb: nat, vals: seq<int>): int {
    Total(VectorCoster(book, cb), Vectors(cb, vals), VectorCount(cb, |vals|))
  }

  /** do { one vector } while (len -= dim). */
  function DecodeBand(book: CodeBook, cb: nat, data: Bits, pos: nat, len: nat): (r: Result<seq<int>>)
  {
    var n := VectorCount(cb, len);
    match Many(VectorParser(book, cb), data, pos, seq(n, _ => ()), n)
    case Err => Err
    case Ok(vs, p) => Ok(Flatten(vs, n), p)
  }

  lemma VectorReadsBack(book: CodeBook, cb: nat, data: Bits, v: seq<int>)
    requires ValidBook(book, cb) && |v| == Dim(cb) && AllFit(cb, v)
    ensures ReadsBack(VectorParser(book, cb), VectorCoder(book, cb), data, (), v)
  {
    IndexInBook(cb, v);
    forall p: nat | StartsAt(data, p, VectorCoder(book, cb)(v))
      ensures VectorParser(book, cb)(data, p, ()) == Ok(v, p + |VectorCoder(book, cb)(v)|)
    {
      VectorRoundTrip(book, cb, v, data, p);
    }
  }

  lemma VectorFits(cb: nat, vals: seq<int>, i: nat)
    requires Book(cb) && AllFit(cb, vals) && i < VectorCount(cb, |vals|)
    ensures AllFit(cb, Vectors(cb, vals)[i]) && |Vectors(cb, vals)[i]| == Dim(cb)
  {
    var v := Vectors(cb, vals)[i];
    forall k | 0 <= k < |v| ensures Fits(cb, v[k]) {
      assert v[k] == vals[Offset(cb, i) + k];
    }
  }

  lemma VectorsReadBack(book: CodeBook, cb: nat, vs: seq<seq<int>>, data: Bits, pos: nat)
    requires ValidBook(book, cb)
    requires forall i :: 0 <= i < |vs| ==> |vs[i]| == Dim(cb) && AllFit(cb, vs[i])
    requires StartsAt(data, pos, Cat(VectorCoder(book, cb), vs, |vs|))
    ensures Many(VectorParser(book, cb), data, pos, seq(|vs|, _ => ()), |vs|)
         == Ok(vs, pos + |Cat(VectorCoder(book, cb), vs, |vs|)|)
  {
    var kinds := seq(|vs|, _ => ());
    forall i | 0 <= i < |vs| ensures ReadsBack(VectorParser(book, cb), VectorCoder(book, cb), data, kinds[i], vs[i]) {
      VectorReadsBack(book, cb, data, vs[i]);
    }
    ManyReadBack(VectorParser(book, cb), VectorCoder(book, cb), data, pos, kinds, vs, |vs|);
    assert vs[..|vs|] == vs;
  }

  /** A band reads back from its bits, whatever its values and length. */
  lemma BandRoundTrip(book: CodeBook, cb: nat, vals: seq<int>, data: Bits, pos: nat)
    requires ValidBook(book, cb) && AllFit(cb, vals) && |vals| % 4 == 0
    requires StartsAt(data, pos, BandCode(book, cb, vals))
    ensures DecodeBand(book, cb, data, pos, |vals|) == Ok(vals, pos + |BandCode(book, cb, vals)|)
  {
    var vs := Vectors(cb, vals);
    forall i | 0 <= i < |vs| ensures |vs[i]| == Dim(cb) && AllFit(cb, vs[i]) {
      VectorFits(cb, vals, i);
    }
    hide Fits, AllFit, ValidBook;
    VectorsReadBack(book, cb, vs, data, pos);
    FlattenVectors(cb, vals, vs, |vs|);
    assert Flatten(vs, |vs|) == vals;
  }

  /** For every band the cost call reports the number of bits that are written. */
  lemma BandCostExact(book: CodeBook, cb: nat, vals: seq<int>)
    ensures BandCost(book, cb, vals) == |BandCode(book, cb, vals)|
  {
    var vs := Vectors(cb, vals);
    forall i | 0 <= i < |vs| ensures VectorCoster(book, cb)(vs[i]) == |VectorCoder(book, cb)(vs[i])| {
      if Codable(book, cb, vs[i]) {
        VectorCostExact(book, cb, vs[i]);
      }
    }
    CatLength(VectorCoder(book, cb), VectorCoster(book, cb), vs, |vs|);
  }

  lemma {:induction false} FlattenLength(cb: nat, vs: seq<seq<int>>, k: nat)
    requires k <= |vs| && forall i :: 0 <= i < |vs| ==> |vs[i]| == Dim(cb)
    ensures |Flatten(vs, k)| == Offset(cb, k)
  {
    if k > 0 {
      FlattenLength(cb, vs, k - 1);
    }
  }

  /** A decoded band has the length of the band. */
  lemma DecodedBandLength(book: CodeBook, cb: nat, data: Bits, pos: nat, len: nat)
    requires len % 4 == 0
    ensures var r := DecodeBand(book, cb, data, pos, len); r.Ok? ==> |r.value| == len
  {
    var n := VectorCount(cb, len);
    var kinds := seq(n, _ => ());
    ManyHave(VectorParser(book, cb), data, pos, kinds, n, (kind: (), v: seq<int>) => |v| == Dim(cb));
    var r := Many(VectorParser(book, cb), data, pos, kinds, n);
    if r.Ok? {
      FlattenLength(cb, r.value, n);
    }
  }
}
