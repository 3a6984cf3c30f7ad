/** How many bits quantised values can take at most (quantize_and_encode_band_cost_template of
    libavcodec/aaccoder.c): with code words of at most sixteen bits, thirty a value. */
module AacBudget {
  import opened CodeLists
  import opened AacSpectral

  const LONGEST_WORD: nat := 16
  const VALUE_BITS: nat := 30

  ghost predicate ShortWords(book: CodeBook) {
    forall i :: 0 <= i < |book.words| ==> |book.words[i]| <= LONGEST_WORD
  }

  lemma {:induction false} SignsAtMost(q: seq<int>, k: nat)
    requires k <= |q|
    ensures Total(SignCost, q, k) <= k
  {
    if k > 0 {
      SignsAtMost(q, k - 1);
    }
  }

  lemma {:induction false} EscapesAtMost(q: seq<int>, k: nat)
    requires k <= |q|
    ensures Total(EscapeCost, q, k) <= CLIPPED_COST * k
  {
    if k > 0 {
      EscapesAtMost(q, k - 1);
    }
  }

  /** A vector takes at most thirty bits a value. */
  lemma VectorAtMost(book: CodeBook, cb: nat, v: seq<int>)
    requires ShortWords(book) && |v| == Dim(cb)
    ensures VectorCoster(book, cb)(v) <= VALUE_BITS * |v|
  {
    hide VectorIndex, Fits, Total;
    SignsAtMost(v, |v|);
    EscapesAtMost(v, |v|);
  }

  lemma {:induction false} VectorsAtMost(book: CodeBook, cb: nat, vs: seq<seq<int>>, k: nat)
    requires ShortWords(book) && k <= |vs| && forall i :: 0 <= i < |vs| ==> |vs[i]| == Dim(cb)
    ensures Total(VectorCoster(book, cb), vs, k) <= VALUE_BITS * Offset(cb, k)
  {
    hide VectorCoster, ShortWords;
    if k > 0 {
      VectorsAtMost(book, cb, vs, k - 1);
      VectorAtMost(book, cb, vs[k - 1]);
    }
  }

  /** A band takes at most thirty bits a value, in any codebook. */
  lemma BandAtMost(book: CodeBook, cb: nat, vals: seq<int>)
    requires ShortWords(book)
    ensures BandCost(book, cb, vals) <= VALUE_BITS * |vals|
  {
    hide VectorCoster, ShortWords, Total;
    var vs := Vectors(cb, vals);
    VectorsAtMost(book, cb, vs, |vs|);
  }
}
