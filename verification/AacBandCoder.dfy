/** Quantised bands written and counted in place (quantize_and_encode_band_cost_template of
    libavcodec/aaccoder.c, after quantisation), proved against module AacSpectral. */
module AacBandCoder {
  import opened Sums
  import opened BitIO
  import opened CodeLists
  import opened AacSpectral

  lemma {:induction false} ToBitsOfValue(w: Bits)
    ensures ToBits(|w|, Value(w)) == w
  {
    if w != [] {
      var n := |w| - 1;
      ToBitsOfValue(w[..n]);
      assert w == w[..n] + [w[n]];
    }
  }

  /** put_bits of a code word. */
  method PutWord(pb: PutBitContext, w: Bits)
    modifies pb
    ensures pb.bits == old(pb.bits) + w
  {
    ToBitsOfValue(w);
    pb.PutBits(|w|, Value(w));
  }

  lemma {:induction false} UnaryIsPower(n: nat)
    ensures Pow2(n + 1) >= 2 && ToBits(n + 1, Pow2(n + 1) - 2) == Unary(n)
  {
    if n == 0 {
      assert ToBits(1, 0) == ToBits(0, 0) + [false];
    } else {
      UnaryIsPower(n - 1);
      UnaryLast(n - 1);
      assert (Pow2(n + 1) - 2) / 2 == Pow2(n) - 1;
      AllOnes(n);
      assert ToBits(n + 1, Pow2(n + 1) - 2) == ToBits(n, Pow2(n) - 1) + [false];
    }
  }

  /** n ones. */
  function Ones(n: nat): (b: Bits)
    ensures |b| == n && forall i :: 0 <= i < n ==> b[i]
  {
    seq(n, _ => true)
  }

  lemma {:induction false} AllOnes(n: nat)
    ensures ToBits(n, Pow2(n) - 1) == Ones(n)
  {
    if n > 0 {
      AllOnes(n - 1);
      assert (Pow2(n) - 1) / 2 == Pow2(n - 1) - 1 && (Pow2(n) - 1) % 2 == 1;
    }
  }

  lemma {:induction false} UnaryLast(n: nat)
    ensures Unary(n + 1) == Ones(n + 1) + [false]
  {
    if n > 0 {
      UnaryLast(n - 1);
      assert Unary(n + 1) == [true] + Unary(n);
    } else {
      assert Unary(1) == [true] + Unary(0);
    }
  }

  /** The codebook index of a vector. */
  method IndexOf(cb: nat, quants: seq<int>) returns (curidx: nat)
    requires Book(cb) && AllFit(cb, quants)
    ensures curidx == VectorIndex(cb, quants, |quants|)
  {
    curidx := 0;
    for j := 0 to |quants|
      invariant curidx == VectorIndex(cb, quants, j)
    {
      curidx := curidx * Range(cb);
      curidx := curidx + Digit(cb, quants[j]);
    }
  }

  /** The bits charged for a vector: its code word, a sign for every value that is not zero in
      an unsigned book, an escape for every value of sixteen or more in the escape book. */
  method CountVector(book: CodeBook, cb: nat, quants: seq<int>, curidx: nat) returns (curbits: int)
    requires Book(cb) && AllFit(cb, quants) && curidx == VectorIndex(cb, quants, |quants|) < |book.words|
    ensures curbits == VectorCost(book, cb, quants)
  {
    curbits := |book.words[curidx]|;
    if Unsigned(cb) {
      for j := 0 to |quants|
        invariant curbits == |book.words[curidx]| + Total(SignCost, quants, j)
                             + if cb == ESC_BOOK then Total(EscapeCost, quants, j) else 0
      {
        if cb == ESC_BOOK && Digit(cb, quants[j]) == ESC_DIGIT {
          if Abs(quants[j]) >= ESC_MAX {
            curbits := curbits + CLIPPED_COST;
          } else {
            curbits := curbits + Log2(Abs(quants[j])) * 2 - 4 + 1;
          }
        }
        if quants[j] != 0 {
          curbits := curbits + 1;
        }
      }
    }
  }

  lemma EscapeFields(coef: nat)
    requires ESC_DIGIT <= coef <= ESC_MAX
    ensures var len := Log2(coef);
      && Pow2(len - 3) >= 2 && coef - Exp(len) < Pow2(len)
      && ToBits(len - 3, Pow2(len - 3) - 2) + ToBits(len, coef - Exp(len)) == EscapeCode(coef)
  {
    var len := Log2(coef);
    UnaryIsPower(len - 4);
    ExpIsPow2(len);
  }

  /** One escape sequence. */
  method WriteEscape(pb: PutBitContext, coef: nat)
    requires ESC_DIGIT <= coef <= ESC_MAX
    modifies pb
    ensures pb.bits == old(pb.bits) + EscapeCode(coef)
  {
    hide ToBits, Pow2, Log2, Exp, EscapeCode;
    EscapeFields(coef);
    var len := Log2(coef);
    pb.PutBits(len - 4 + 1, Pow2(len - 4 + 1) - 2);
    pb.PutBits(len, coef - Exp(len));
  }

  /** The signs of the values that are not zero. */
  method WriteSigns(pb: PutBitContext, quants: seq<int>)
    modifies pb
    ensures pb.bits == old(pb.bits) + Cat(SignBits, quants, |quants|)
  {
    for j := 0 to |quants|
      invariant pb.bits == old(pb.bits) + Cat(SignBits, quants, j)
    {
      if quants[j] != 0 {
        OneBit(quants[j] < 0);
        pb.PutBits(1, if quants[j] < 0 then 1 else 0);
      }
    }
  }

  lemma OneBit(b: bool)
    ensures ToBits(1, if b then 1 else 0) == [b] && Pow2(1) == 2
  {
    assert ToBits(1, if b then 1 else 0) == ToBits(0, 0) + [b];
  }

  lemma EscapedDigit(x: int)
    requires Fits(ESC_BOOK, x)
    ensures if Digit(ESC_BOOK, x) == ESC_DIGIT
            then ESC_DIGIT <= Abs(x) <= ESC_MAX && EscapeBits(x) == EscapeCode(Abs(x))
            else EscapeBits(x) == []
  {
  }

  method WriteEscapes(pb: PutBitContext, quants: seq<int>)
    requires AllFit(ESC_BOOK, quants)
    modifies pb
    ensures pb.bits == old(pb.bits) + Cat(EscapeBits, quants, |quants|)
  {
    hide EscapeBits, EscapeCode, Fits, Digit;
    for j := 0 to |quants|
      invariant pb.bits == old(pb.bits) + Cat(EscapeBits, quants, j)
    {
      EscapedDigit(quants[j]);
      if Digit(ESC_BOOK, quants[j]) == ESC_DIGIT {
        WriteEscape(pb, Abs(quants[j]));
      }
    }
  }

  lemma VectorParts(book: CodeBook, cb: nat, quants: seq<int>)
    requires Book(cb) && AllFit(cb, quants) && VectorIndex(cb, quants, |quants|) < |book.words|
    ensures var word, signs, escapes := book.words[VectorIndex(cb, quants, |quants|)], Cat(SignBits, quants, |quants|),
        Cat(EscapeBits, quants, |quants|);
      VectorCode(book, cb, quants)
        == if !Unsigned(cb) then word else if cb == ESC_BOOK then (word + signs) + escapes else word + signs
  {
    hide Cat, VectorIndex;
    var word := book.words[VectorIndex(cb, quants, |quants|)];
    assert word + [] == word;
  }

  /** The bits of a vector. */
  method WriteVector(pb: PutBitContext, book: CodeBook, cb: nat, quants: seq<int>, curidx: nat)
    requires Book(cb) && AllFit(cb, quants) && curidx == VectorIndex(cb, quants, |quants|) < |book.words|
    modifies pb
    ensures pb.bits == old(pb.bits) + VectorCode(book, cb, quants)
  {
    hide Cat, VectorIndex, Fits, VectorCode;
    VectorParts(book, cb, quants);
    PutWord(pb, book.words[curidx]);
    if Unsigned(cb) {
      WriteSigns(pb, quants);
    }
    if cb == ESC_BOOK {
      WriteEscapes(pb, quants);
    }
  }

  /** One vector: counted, and written if there is a writer. */
  method CodeVector(pb: PutBitContext?, book: CodeBook, cb: nat, quants: seq<int>) returns (curbits: int)
    requires ValidBook(book, cb) && AllFit(cb, quants) && |quants| == Dim(cb)
    modifies pb
    ensures curbits == VectorCoster(book, cb)(quants)
    ensures pb != null ==> pb.bits == old(pb.bits) + VectorCoder(book, cb)(quants)
  {
    hide Fits, VectorCode, VectorCost, VectorIndex, PrefixFree;
    IndexInBook(cb, quants);
    var curidx := IndexOf(cb, quants);
    curbits := CountVector(book, cb, quants, curidx);
    if pb != null {
      WriteVector(pb, book, cb, quants, curidx);
    }
  }

  lemma NextVector(cb: nat, vals: seq<int>, k: nat)
    requires Book(cb) && AllFit(cb, vals) && |vals| % 4 == 0 && k <= VectorCount(cb, |vals|)
    ensures Offset(cb, k) <= |vals| && (Offset(cb, k) < |vals| <==> k < VectorCount(cb, |vals|))
    ensures k < VectorCount(cb, |vals|) ==>
      && Offset(cb, k + 1) == Offset(cb, k) + Dim(cb) <= |vals|
      && Vectors(cb, vals)[k] == vals[Offset(cb, k)..Offset(cb, k) + Dim(cb)]
      && AllFit(cb, Vectors(cb, vals)[k]) && |Vectors(cb, vals)[k]| == Dim(cb)
  {
    hide Fits;
    if k < VectorCount(cb, |vals|) {
      VectorFits(cb, vals, k);
    }
  }

  lemma BandOfVectors(book: CodeBook, cb: nat, vals: seq<int>)
    ensures BandCost(book, cb, vals) == Total(VectorCoster(book, cb), Vectors(cb, vals), VectorCount(cb, |vals|))
    ensures BandCode(book, cb, vals) == Cat(VectorCoder(book, cb), Vectors(cb, vals), VectorCount(cb, |vals|))
    ensures Offset(cb, 0) == 0
  {
  }

  /** The cost template on a band: with a writer it appends the band's bits, and with or
      without one it reports how many they are. */
  method QuantizeAndEncodeBandCost(pb: PutBitContext?, book: CodeBook, cb: nat, vals: seq<int>) returns (resbits: int)
    requires ValidBook(book, cb) && AllFit(cb, vals) && |vals| % 4 == 0
    modifies pb
    ensures resbits == BandCost(book, cb, vals) == |BandCode(book, cb, vals)|
    ensures pb != null ==> pb.bits == old(pb.bits) + BandCode(book, cb, vals)
  {
    hide Fits, AllFit, Vectors, VectorCount, Offset, BandCode, BandCost, VectorCoster, VectorCoder, PrefixFree;
    BandCostExact(book, cb, vals);
    BandOfVectors(book, cb, vals);
    NextVector(cb, vals, 0);
    ghost var vs := Vectors(cb, vals);
    var dim := if cb >= 5 then 2 else 4;
    resbits := 0;
    var i := 0;
    ghost var k := 0;
    while i < |vals|
      invariant k <= |vs| && i == Offset(cb, k) <= |vals| && (i < |vals| <==> k < |vs|)
      invariant resbits == Total(VectorCoster(book, cb), vs, k)
      invariant pb != null ==> pb.bits == old(pb.bits) + Cat(VectorCoder(book, cb), vs, k)
      decreases |vs| - k
    {
      NextVector(cb, vals, k);
      var curbits := CodeVector(pb, book, cb, vals[i..i + dim]);
      resbits := resbits + curbits;
      i, k := i + dim, k + 1;
      NextVector(cb, vals, k);
    }
  }
}
