/** Big-endian bit writing and reading (put_bits and get_bits of libavcodec). */
module BitIO {
  import opened Sums

  /** The low n bits of v, most significant first. */
  function ToBits(n: nat, v: nat): (b: Bits)
    ensures |b| == n
  {
    if n == 0 then [] else ToBits(n - 1, v / 2) + [v % 2 == 1]
  }

  /** The number whose binary digits are b, most significant first. */
  function Value(b: Bits): (v: nat)
    ensures v < Pow2(|b|)
  {
    if b == [] then 0 else 2 * Value(b[..|b| - 1]) + (if b[|b| - 1] then 1 else 0)
  }

  lemma {:induction false} ValueOfToBits(n: nat, v: nat)
    requires v < Pow2(n)
    ensures Value(ToBits(n, v)) == v
  {
    if n > 0 {
      ValueOfToBits(n - 1, v / 2);
      assert ToBits(n, v)[..n - 1] == ToBits(n - 1, v / 2);
    }
  }

  lemma {:induction false} ValueOfCons(b: bool, p: Bits)
    ensures Value([b] + p) == (if b then Pow2(|p|) else 0) + Value(p)
  {
    if p == [] {
      assert [b] + p == [b] && [b][..0] == [];
    } else {
      var n := |p| - 1;
      assert ([b] + p)[..|p|] == [b] + p[..n];
      ValueOfCons(b, p[..n]);
    }
  }

  // ---------- reading ----------

  /** Bit i of the data; the reader supplies zeros past the end. */
  function BitAt(data: Bits, i: nat): bool {
    i < |data| && data[i]
  }

  function Window(data: Bits, pos: nat, n: nat): (b: Bits)
    ensures |b| == n && forall i :: 0 <= i < n ==> b[i] == BitAt(data, pos + i)
  {
    seq(n, i requires 0 <= i < n => BitAt(data, pos + i))
  }

  /** get_bits. */
  function GetBits(data: Bits, pos: nat, n: nat): nat {
    Value(Window(data, pos, n))
  }

  /** The data holds these bits at the position. */
  predicate StartsAt(data: Bits, pos: nat, code: Bits) {
    pos + |code| <= |data| && data[pos..pos + |code|] == code
  }

  lemma StartsAtParts(data: Bits, pos: nat, a: Bits, b: Bits)
    requires StartsAt(data, pos, a + b)
    ensures StartsAt(data, pos, a) && StartsAt(data, pos + |a|, b)
  {
    var w := data[pos..pos + |a| + |b|];
    assert w[..|a|] == a && w[|a|..] == b;
    assert data[pos..pos + |a|] == w[..|a|];
    assert data[pos + |a|..pos + |a| + |b|] == w[|a|..];
  }

  lemma StartsAtBit(data: Bits, pos: nat, code: Bits, i: nat)
    requires StartsAt(data, pos, code) && i < |code|
    ensures BitAt(data, pos + i) == code[i]
  {
    assert data[pos..pos + |code|][i] == data[pos + i];
  }

  lemma ReadField(data: Bits, pos: nat, n: nat, v: nat)
    requires StartsAt(data, pos, ToBits(n, v)) && v < Pow2(n)
    ensures GetBits(data, pos, n) == v
  {
    forall i | 0 <= i < n ensures Window(data, pos, n)[i] == ToBits(n, v)[i] {
      StartsAtBit(data, pos, ToBits(n, v), i);
    }
    assert Window(data, pos, n) == ToBits(n, v);
    ValueOfToBits(n, v);
  }

  /** The bit writer. */
  class PutBitContext {
    var bits: Bits

    constructor ()
      ensures bits == []
    {
      bits := [];
    }

    method PutBits(n: nat, v: nat)
      requires v < Pow2(n)
      modifies this
      ensures bits == old(bits) + ToBits(n, v)
    {
      bits := bits + ToBits(n, v);
    }
  }
}
