/** Lists of items written one after the other: if every item reads back wherever its bits
    start, so does the list. */
module CodeLists {
  import opened Wrappers
  import opened Sums
  import opened BitIO

  /** The codes of the first k items. */
  function Cat<V>(code: V -> Bits, vs: seq<V>, k: nat): Bits
    requires k <= |vs|
  {
    if k == 0 then [] else Cat(code, vs, k - 1) + code(vs[k - 1])
  }

  /** Parses k items, one after the other; each parse is told what kind of item to expect. */
  function Many<S, V>(parse: (Bits, nat, S) -> Result<V>, data: Bits, pos: nat, kinds: seq<S>,
                      k: nat): (r: Result<seq<V>>)
    requires k <= |kinds|
    ensures r.Ok? ==> |r.value| == k
  {
    if k == 0 then Ok([], pos)
    else
      match Many(parse, data, pos, kinds, k - 1)
      case Err => Err
      case Ok(vs, p) =>
        match parse(data, p, kinds[k - 1])
        case Err => Err
        case Ok(v, p') => Ok(vs + [v], p')
  }

  /** Wherever the code of v starts in the data, parsing yields v and consumes exactly it. */
  ghost predicate ReadsBack<S, V>(parse: (Bits, nat, S) -> Result<V>, code: V -> Bits, data: Bits, kind: S, v: V) {
    forall p: nat {:trigger parse(data, p, kind)} ::
      StartsAt(data, p, code(v)) ==> parse(data, p, kind) == Ok(v, p + |code(v)|)
  }

  lemma {:induction false} ManyReadBack<S, V>(parse: (Bits, nat, S) -> Result<V>, code: V -> Bits,
                                              data: Bits, pos: nat, kinds: seq<S>, vs: seq<V>, k: nat)
    requires |kinds| == |vs| && k <= |vs|
    requires forall i :: 0 <= i < |vs| ==> ReadsBack(parse, code, data, kinds[i], vs[i])
    requires StartsAt(data, pos, Cat(code, vs, k))
    ensures Many(parse, data, pos, kinds, k) == Ok(vs[..k], pos + |Cat(code, vs, k)|)
  {
    if k > 0 {
      var before, bits := Cat(code, vs, k - 1), code(vs[k - 1]);
      StartsAtParts(data, pos, before, bits);
      ManyReadBack(parse, code, data, pos, kinds, vs, k - 1);
      assert ReadsBack(parse, code, data, kinds[k - 1], vs[k - 1]);
      assert vs[..k] == vs[..k - 1] + [vs[k - 1]];
    }
  }

  /** The length of a list of codes is the sum of their lengths. */
  lemma {:induction false} CatLength<V>(code: V -> Bits, cost: V -> int, vs: seq<V>, k: nat)
    requires k <= |vs|
    requires forall i :: 0 <= i < |vs| ==> cost(vs[i]) == |code(vs[i])|
    ensures Total(cost, vs, k) == |Cat(code, vs, k)|
  {
    if k > 0 {
      CatLength(code, cost, vs, k - 1);
    }
  }

  function Total<V>(cost: V -> int, vs: seq<V>, k: nat): int
    requires k <= |vs|
  {
    if k == 0 then 0 else Total(cost, vs, k - 1) + cost(vs[k - 1])
  }

  lemma {:induction false} CatPrefix<V>(code: V -> Bits, vs: seq<V>, vs': seq<V>, k: nat)
    requires k <= |vs| && k <= |vs'| && forall i :: 0 <= i < k ==> vs[i] == vs'[i]
    ensures Cat(code, vs, k) == Cat(code, vs', k)
  {
    if k > 0 {
      CatPrefix(code, vs, vs', k - 1);
    }
  }

  // ---------- lists read until they cover a range ----------

  /** The codes of the items from i on. */
  function CatFrom<V>(code: V -> Bits, vs: seq<V>, i: nat): Bits
    requires i <= |vs|
    decreases |vs| - i
  {
    if i == |vs| then [] else code(vs[i]) + CatFrom(code, vs, i + 1)
  }

  lemma {:induction false} CatSplits<V>(code: V -> Bits, vs: seq<V>, i: nat)
    requires i <= |vs|
    ensures Cat(code, vs, i) + CatFrom(code, vs, i) == Cat(code, vs, |vs|)
    decreases |vs| - i
  {
    if i < |vs| {
      CatSplits(code, vs, i + 1);
      assert Cat(code, vs, i) + (code(vs[i]) + CatFrom(code, vs, i + 1))
          == (Cat(code, vs, i) + code(vs[i])) + CatFrom(code, vs, i + 1);
    }
  }

  lemma CatAll<V>(code: V -> Bits, vs: seq<V>)
    ensures CatFrom(code, vs, 0) == Cat(code, vs, |vs|)
  {
    CatSplits(code, vs, 0);
  }

  /** How much the items from i on cover. */
  function WidthFrom<V>(width: V -> nat, vs: seq<V>, i: nat): nat
    requires i <= |vs|
    decreases |vs| - i
  {
    if i == |vs| then 0 else width(vs[i]) + WidthFrom(width, vs, i + 1)
  }

  /** while (k < end) { v = step; k += width of v }: a step must advance within the data. */
  function Until<V>(step: (Bits, nat, nat) -> Result<V>, width: V -> nat,
                    data: Bits, pos: nat, k: nat, end: nat): Result<seq<V>>
    decreases |data| - pos
  {
    if k >= end then Ok([], pos)
    else
      match step(data, pos, k)
      case Err => Err
      case Ok(v, p) =>
        if !(pos < p <= |data|) then Err
        else
          match Until(step, width, data, p, k + width(v), end)
          case Err => Err
          case Ok(rest, p') => Ok([v] + rest, p')
  }

  lemma {:induction false} UntilReadBack<V>(step: (Bits, nat, nat) -> Result<V>, width: V -> nat, code: V -> Bits,
                                            data: Bits, pos: nat, vs: seq<V>, i: nat, k: nat, end: nat)
    requires i <= |vs| && k + WidthFrom(width, vs, i) == end
    requires forall n :: 0 <= n < |vs| ==> width(vs[n]) > 0 && code(vs[n]) != []
    requires forall n, k': nat :: 0 <= n < |vs| && k' + width(vs[n]) <= end ==>
      ReadsBack(step, code, data, k', vs[n])
    requires StartsAt(data, pos, CatFrom(code, vs, i))
    ensures Until(step, width, data, pos, k, end) == Ok(vs[i..], pos + |CatFrom(code, vs, i)|)
    decreases |vs| - i
  {
    if i < |vs| {
      var bits, more := code(vs[i]), CatFrom(code, vs, i + 1);
      StartsAtParts(data, pos, bits, more);
      assert ReadsBack(step, code, data, k, vs[i]);
      assert step(data, pos, k) == Ok(vs[i], pos + |bits|);
      UntilReadBack(step, width, code, data, pos + |bits|, vs, i + 1, k + width(vs[i]), end);
      assert vs[i..] == [vs[i]] + vs[i + 1..];
    }
  }

  // ---------- lists whose items depend on what was read before ----------

  function Join(codes: seq<Bits>, k: nat): Bits
    requires k <= |codes|
  {
    if k == 0 then [] else Join(codes, k - 1) + codes[k - 1]
  }

  /** Parses k items in turn, threading a state through. */
  function Thread<K, S, V>(step: (Bits, nat, K, S) -> Result<(V, S)>, data: Bits, pos: nat,
                           kinds: seq<K>, st: S, k: nat): (r: Result<(seq<V>, S)>)
    requires k <= |kinds|
    ensures r.Ok? ==> |r.value.0| == k
  {
    if k == 0 then Ok(([], st), pos)
    else
      match Thread(step, data, pos, kinds, st, k - 1)
      case Err => Err
      case Ok((vs, st1), p) =>
        match step(data, p, kinds[k - 1], st1)
        case Err => Err
        case Ok((v, st2), p') => Ok((vs + [v], st2), p')
  }

  ghost predicate StepReadsBack<K, S, V>(step: (Bits, nat, K, S) -> Result<(V, S)>, data: Bits, code: Bits,
                                         kind: K, st: S, v: V, st': S) {
    forall p: nat {:trigger step(data, p, kind, st)} ::
      StartsAt(data, p, code) ==> step(data, p, kind, st) == Ok((v, st'), p + |code|)
  }

  lemma {:induction false} ThreadReadsBack<K, S, V>(step: (Bits, nat, K, S) -> Result<(V, S)>, data: Bits, pos: nat,
                                                    codes: seq<Bits>, kinds: seq<K>, vs: seq<V>, sts: seq<S>, k: nat)
    requires |codes| == |kinds| == |vs| && |sts| == |vs| + 1 && k <= |vs|
    requires forall i :: 0 <= i < |vs| ==> StepReadsBack(step, data, codes[i], kinds[i], sts[i], vs[i], sts[i + 1])
    requires StartsAt(data, pos, Join(codes, k))
    ensures Thread(step, data, pos, kinds, sts[0], k) == Ok((vs[..k], sts[k]), pos + |Join(codes, k)|)
  {
    if k > 0 {
      StartsAtParts(data, pos, Join(codes, k - 1), codes[k - 1]);
      ThreadReadsBack(step, data, pos, codes, kinds, vs, sts, k - 1);
      assert StepReadsBack(step, data, codes[k - 1], kinds[k - 1], sts[k - 1], vs[k - 1], sts[k]);
      assert vs[..k] == vs[..k - 1] + [vs[k - 1]];
    }
  }

  lemma {:induction false} JoinPart(codes: seq<Bits>, data: Bits, pos: nat, n: nat, i: nat)
    requires i < n <= |codes| && StartsAt(data, pos, Join(codes, n))
    ensures StartsAt(data, pos + |Join(codes, i)|, codes[i])
  {
    StartsAtParts(data, pos, Join(codes, n - 1), codes[n - 1]);
    if i < n - 1 {
      JoinPart(codes, data, pos, n - 1, i);
    }
  }

  /** If every step stays within the range, the items read cover exactly the range. */
  lemma {:induction false} UntilCovers<V>(step: (Bits, nat, nat) -> Result<V>, width: V -> nat,
                                          data: Bits, pos: nat, k: nat, end: nat)
    requires k <= end
    requires forall p: nat, k': nat {:trigger step(data, p, k')} ::
      k' <= end && step(data, p, k').Ok? ==> k' + width(step(data, p, k').value) <= end
    ensures var r := Until(step, width, data, pos, k, end);
      r.Ok? ==> WidthFrom(width, r.value, 0) == end - k
    decreases |data| - pos
  {
    var r := Until(step, width, data, pos, k, end);
    if k < end && r.Ok? {
      var v, p := step(data, pos, k).value, step(data, pos, k).pos;
      UntilCovers(step, width, data, p, k + width(v), end);
      WidthShift(width, [v], r.value[1..], 0);
      assert r.value == [v] + r.value[1..];
    }
  }

  lemma {:induction false} WidthShift<V>(width: V -> nat, front: seq<V>, vs: seq<V>, i: nat)
    requires i <= |vs|
    ensures WidthFrom(width, front + vs, |front| + i) == WidthFrom(width, vs, i)
    decreases |vs| - i
  {
    if i < |vs| {
      WidthShift(width, front, vs, i + 1);
    }
  }

  /** A property that every parse guarantees holds of all the values read. */
  lemma {:induction false} ManyHave<S, V>(parse: (Bits, nat, S) -> Result<V>, data: Bits, pos: nat, kinds: seq<S>,
                                          k: nat, good: (S, V) -> bool)
    requires k <= |kinds|
    requires forall p: nat, kind: S {:trigger parse(data, p, kind)} ::
      kind in kinds && parse(data, p, kind).Ok? ==> good(kind, parse(data, p, kind).value)
    ensures var r := Many(parse, data, pos, kinds, k);
      r.Ok? ==> forall i :: 0 <= i < k ==> good(kinds[i], r.value[i])
  {
    if k > 0 {
      ManyHave(parse, data, pos, kinds, k - 1, good);
    }
  }
}
