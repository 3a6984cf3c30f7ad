/** The order of the channel elements of an AAC stream (count_paired_channels, assign_pair and
    sniff_channel_order of libavcodec/aacdec.c). */
module ChannelOrder {

  const SCE: nat := 0
  const CPE: nat := 1
  const LFE: nat := 3

  const FRONT: nat := 1
  const SIDE: nat := 2
  const BACK: nat := 3
  const LOW: nat := 4
  const COUPLING: nat := 5

  const UNPLACED: nat := 0xFFFF_FFFF_FFFF_FFFF
  const MAX_TAGS: nat := 64

  /** One entry of the layout map: element type, element id, position. */
  datatype Tag = Tag(kind: nat, id: nat, pos: nat)

  /** One element with the speakers it feeds. */
  datatype Elem = Elem(speakers: nat, kind: nat, id: nat, aac: nat)

  /** Front, side and back elements are single or paired channels, low-frequency ones LFE. */
  ghost predicate WellTyped(tags: seq<Tag>) {
    forall i :: 0 <= i < |tags| ==>
      && (FRONT <= tags[i].pos <= BACK ==> tags[i].kind == SCE || tags[i].kind == CPE)
      && (tags[i].pos == LOW ==> tags[i].kind == LFE)
  }

  // ---------- counting ----------

  /** Result of a count: the number of channels or -1, and where the region ends. */
  datatype Counted = Counted(num: int, end: nat)

  /** count_paired_channels from element i on. */
  function Count(tags: seq<Tag>, pos: nat, i: nat, num: nat, firstCpe: bool, parity: bool, start: nat): Counted
    requires i <= |tags|
    decreases |tags| - i
  {
    if i < |tags| && tags[i].pos == pos then
      if tags[i].kind == CPE then
        if parity && !(pos == FRONT && !firstCpe) then Counted(-1, start)
        else Count(tags, pos, i + 1, num + 2, true, false, start)
      else Count(tags, pos, i + 1, num + 1, firstCpe, !parity, start)
    else if parity && ((pos == FRONT && firstCpe) || pos == SIDE) then Counted(-1, start)
    else Counted(num, i)
  }

  /** The number of channels at a position, counted from element i on. */
  function CountPaired(tags: seq<Tag>, pos: nat, i: nat): Counted
    requires i <= |tags|
  {
    Count(tags, pos, i, 0, false, false, i)
  }

  /** Elements i..j are k channel pairs: paired elements, or two single ones in a row. */
  ghost predicate PairsFit(tags: seq<Tag>, i: nat, k: nat, j: nat)
    decreases k
  {
    j <= |tags| &&
    if k == 0 then i == j
    else i < j && ((tags[i].kind == CPE && PairsFit(tags, i + 1, k - 1, j))
                || (tags[i].kind == SCE && i + 1 < j && tags[i + 1].kind == SCE && PairsFit(tags, i + 2, k - 1, j)))
  }

  lemma {:induction false} OnePairMore(tags: seq<Tag>, i: nat, k: nat, j: nat)
    requires PairsFit(tags, i, k, j)
    ensures j < |tags| && tags[j].kind == CPE ==> PairsFit(tags, i, k + 1, j + 1)
    ensures j + 1 < |tags| && tags[j].kind == SCE && tags[j + 1].kind == SCE ==> PairsFit(tags, i, k + 1, j + 2)
    decreases k
  {
    if k > 0 {
      if tags[i].kind == CPE {
        OnePairMore(tags, i + 1, k - 1, j);
      } else {
        OnePairMore(tags, i + 2, k - 1, j);
      }
    }
  }

  lemma {:induction false} SinglesFit(tags: seq<Tag>, i: nat, k: nat)
    requires i + 2 * k <= |tags| && forall n :: i <= n < i + 2 * k ==> tags[n].kind == SCE
    ensures PairsFit(tags, i, k, i + 2 * k)
    decreases k
  {
    if k > 0 {
      SinglesFit(tags, i + 2, k - 1);
    }
  }

  function Odd(n: nat): nat {
    n % 2
  }

  /** What the counting loop knows of the elements from s up to i. */
  ghost predicate Shape(tags: seq<Tag>, pos: nat, s: nat, i: nat, num: nat, firstCpe: bool, parity: bool) {
    s <= i <= |tags| &&
    if pos == FRONT && !firstCpe then
      && num == i - s && parity == (Odd(num) == 1)
      && forall k :: s <= k < i ==> tags[k].kind == SCE
    else
      var p: nat := if parity then 1 else 0;
      var c: nat := if pos == FRONT then Odd(num + p) else 0;
      && s + c + p <= i && c + p <= num && Odd(num) == Odd(c + p)
      && (c == 1 ==> tags[s].kind == SCE) && (p == 1 ==> tags[i - 1].kind == SCE)
      && PairsFit(tags, s + c, (num - c - p) / 2, i - p)
  }

  /** The elements from s up to j are num channels in an order that can be paired: an odd
      front has its single centre first, an odd back its single centre last. */
  ghost predicate Paired(tags: seq<Tag>, pos: nat, s: nat, j: nat, num: nat) {
    && s <= j <= |tags|
    && if pos == FRONT then (Odd(num) == 1 ==> s < j && tags[s].kind == SCE) && PairsFit(tags, s + Odd(num), num / 2, j)
       else s + Odd(num) <= j && (Odd(num) == 1 ==> pos == BACK && tags[j - 1].kind == SCE)
            && PairsFit(tags, s, num / 2, j - Odd(num))
  }

  lemma CpeStep(tags: seq<Tag>, pos: nat, s: nat, i: nat, num: nat, firstCpe: bool, parity: bool)
    requires Shape(tags, pos, s, i, num, firstCpe, parity) && i < |tags| && tags[i].kind == CPE
    requires !(parity && !(pos == FRONT && !firstCpe))
    ensures Shape(tags, pos, s, i + 1, num + 2, true, false)
  {
    if pos == FRONT && !firstCpe {
      var c := Odd(num);
      SinglesFit(tags, s + c, (num - c) / 2);
      OnePairMore(tags, s + c, (num - c) / 2, i);
    } else {
      var c: nat := if pos == FRONT then Odd(num) else 0;
      OnePairMore(tags, s + c, (num - c) / 2, i);
    }
  }

  lemma SceStep(tags: seq<Tag>, pos: nat, s: nat, i: nat, num: nat, firstCpe: bool, parity: bool)
    requires Shape(tags, pos, s, i, num, firstCpe, parity) && i < |tags| && tags[i].kind == SCE
    ensures Shape(tags, pos, s, i + 1, num + 1, firstCpe, !parity)
  {
    hide PairsFit;
    if !(pos == FRONT && !firstCpe) && parity {
      var c: nat := if pos == FRONT then Odd(num + 1) else 0;
      OnePairMore(tags, s + c, (num - c - 1) / 2, i - 1);
    }
  }

  lemma LastStep(tags: seq<Tag>, pos: nat, s: nat, i: nat, num: nat, firstCpe: bool, parity: bool)
    requires Shape(tags, pos, s, i, num, firstCpe, parity) && FRONT <= pos <= BACK
    requires !(parity && ((pos == FRONT && firstCpe) || pos == SIDE))
    ensures Paired(tags, pos, s, i, num)
  {
    if pos == FRONT && !firstCpe {
      SinglesFit(tags, s + Odd(num), num / 2);
    }
  }

  /** An accepted count leaves a region that can be assigned pair by pair. */
  lemma {:induction false} CountIsPaired(tags: seq<Tag>, pos: nat, s: nat, i: nat, num: nat, firstCpe: bool,
                                         parity: bool)
    requires WellTyped(tags) && FRONT <= pos <= BACK && Shape(tags, pos, s, i, num, firstCpe, parity)
    requires forall k :: s <= k < i ==> tags[k].pos == pos
    ensures var r := Count(tags, pos, i, num, firstCpe, parity, s);
      r.num >= 0 ==> Paired(tags, pos, s, r.end, r.num) && r.end >= i
                     && (forall k :: s <= k < r.end ==> tags[k].pos == pos)
                     && (r.end < |tags| ==> tags[r.end].pos != pos)
    ensures Count(tags, pos, i, num, firstCpe, parity, s).num >= -1
    decreases |tags| - i
  {
    hide Shape, Paired;
    InRange(tags, pos, s, i, num, firstCpe, parity);
    if i < |tags| && tags[i].pos == pos {
      if tags[i].kind == CPE {
        if !(parity && !(pos == FRONT && !firstCpe)) {
          CpeStep(tags, pos, s, i, num, firstCpe, parity);
          CountIsPaired(tags, pos, s, i + 1, num + 2, true, false);
        }
      } else {
        SceStep(tags, pos, s, i, num, firstCpe, parity);
        CountIsPaired(tags, pos, s, i + 1, num + 1, firstCpe, !parity);
      }
    } else if !(parity && ((pos == FRONT && firstCpe) || pos == SIDE)) {
      LastStep(tags, pos, s, i, num, firstCpe, parity);
    }
  }

  lemma InRange(tags: seq<Tag>, pos: nat, s: nat, i: nat, num: nat, firstCpe: bool, parity: bool)
    requires Shape(tags, pos, s, i, num, firstCpe, parity)
    ensures s <= i <= |tags|
  {
  }

  lemma CountedIsPaired(tags: seq<Tag>, pos: nat, s: nat)
    requires WellTyped(tags) && FRONT <= pos <= BACK && s <= |tags|
    ensures var r := CountPaired(tags, pos, s);
      r.num >= 0 ==> Paired(tags, pos, s, r.end, r.num) && (forall k :: s <= k < r.end ==> tags[k].pos == pos)
                     && (r.end < |tags| ==> tags[r.end].pos != pos)
  {
    assert Shape(tags, pos, s, s, 0, false, false);
    CountIsPaired(tags, pos, s, s, 0, false, false);
  }

  // ---------- assigning speakers ----------

  const FRONT_LEFT: nat := 0x1
  const FRONT_RIGHT: nat := 0x2
  const FRONT_CENTER: nat := 0x4
  const LOW_FREQUENCY: nat := 0x8
  const BACK_LEFT: nat := 0x10
  const BACK_RIGHT: nat := 0x20
  const FRONT_LEFT_OF_CENTER: nat := 0x40
  const FRONT_RIGHT_OF_CENTER: nat := 0x80
  const BACK_CENTER: nat := 0x100
  const SIDE_LEFT: nat := 0x200
  const SIDE_RIGHT: nat := 0x400

  /** Speakers for one single element of a kind, or for one pair of channels. */
  datatype Label = One(at: nat, kind: nat, aac: nat) | Two(left: nat, right: nat, aac: nat)

  /** Bitwise or. */
  function Or(a: nat, b: nat): nat {
    if a == 0 then b else if b == 0 then a
    else 2 * Or(a / 2, b / 2) + if a % 2 == 1 || b % 2 == 1 then 1 else 0
  }

  /** Elements i..j are just what the labels from l on ask for. */
  ghost predicate Fits(tags: seq<Tag>, i: nat, labels: seq<Label>, l: nat, j: nat)
    requires l <= |labels|
    decreases |labels| - l
  {
    j <= |tags| &&
    if l == |labels| then i == j
    else
      i < j &&
      match labels[l]
      case One(_, kind, _) => tags[i].kind == kind && Fits(tags, i + 1, labels, l + 1, j)
      case Two(_, _, _) =>
        || (tags[i].kind == CPE && Fits(tags, i + 1, labels, l + 1, j))
        || (tags[i].kind == SCE && i + 1 < j && tags[i + 1].kind == SCE && Fits(tags, i + 2, labels, l + 1, j))
  }

  /** The elements made for one label. */
  function Labelled(tags: seq<Tag>, i: nat, lab: Label): (es: seq<Elem>)
    requires i < |tags| && (lab.Two? && tags[i].kind != CPE ==> i + 1 < |tags|)
    ensures |es| == if lab.Two? && tags[i].kind != CPE then 2 else 1
  {
    match lab
    case One(at, kind, aac) => [Elem(at, kind, tags[i].id, aac)]
    case Two(left, right, aac) =>
      if tags[i].kind == CPE then [Elem(Or(left, right), CPE, tags[i].id, aac)]
      else [Elem(left, SCE, tags[i].id, aac), Elem(right, SCE, tags[i + 1].id, aac)]
  }

  /** The elements made for the labels from l on. */
  ghost function Elems(tags: seq<Tag>, i: nat, labels: seq<Label>, l: nat, j: nat): (es: seq<Elem>)
    requires l <= |labels| && Fits(tags, i, labels, l, j)
    ensures i + |es| == j
    decreases |labels| - l
  {
    if l == |labels| then []
    else
      var first := Labelled(tags, i, labels[l]);
      first + Elems(tags, i + |first|, labels, l + 1, j)
  }

  lemma {:induction false} PairsThenRest(tags: seq<Tag>, i: nat, labels: seq<Label>, l: nat, k: nat, m: nat, j: nat)
    requires l + k <= |labels| && (forall n :: l <= n < l + k ==> labels[n].Two?)
    requires PairsFit(tags, i, k, m) && m <= j && Fits(tags, m, labels, l + k, j)
    ensures Fits(tags, i, labels, l, j)
    decreases k
  {
    if k > 0 {
      if tags[i].kind == CPE && PairsFit(tags, i + 1, k - 1, m) {
        PairsThenRest(tags, i + 1, labels, l + 1, k - 1, m, j);
      } else {
        PairsThenRest(tags, i + 2, labels, l + 1, k - 1, m, j);
      }
      PairsEndLater(tags, i, k, m);
    }
  }

  lemma {:induction false} PairsEndLater(tags: seq<Tag>, i: nat, k: nat, j: nat)
    requires PairsFit(tags, i, k, j)
    ensures i + k <= j
    decreases k
  {
    if k > 0 {
      if tags[i].kind == CPE && PairsFit(tags, i + 1, k - 1, j) {
        PairsEndLater(tags, i + 1, k - 1, j);
      } else {
        PairsEndLater(tags, i + 2, k - 1, j);
      }
    }
  }

  /** An odd front has a centre; two pairs or more get the pair left and right of it first. */
  function FrontLabels(n: nat): (labels: seq<Label>)
    ensures |labels| == Odd(n) + n / 2
    ensures Odd(n) == 1 ==> labels[0] == One(FRONT_CENTER, SCE, FRONT)
    ensures forall k :: 0 <= k < n / 2 ==> labels[Odd(n) + k] == FrontPair(n / 2, k)
  {
    seq(Odd(n) + n / 2, k requires 0 <= k < Odd(n) + n / 2 =>
      if k < Odd(n) then One(FRONT_CENTER, SCE, FRONT) else FrontPair(n / 2, k - Odd(n)))
  }

  function FrontPair(pairs: nat, k: nat): Label {
    if pairs >= 2 && k == 0 then Two(FRONT_LEFT_OF_CENTER, FRONT_RIGHT_OF_CENTER, FRONT)
    else if (pairs >= 2 && k == 1) || (pairs < 2 && k == 0) then Two(FRONT_LEFT, FRONT_RIGHT, FRONT)
    else Two(UNPLACED, UNPLACED, FRONT)
  }

  /** The first side pair is recorded as a front one. */
  function SideLabels(n: nat): (labels: seq<Label>)
    ensures |labels| == n / 2
    ensures forall k :: 0 <= k < n / 2 ==>
      labels[k] == if k == 0 then Two(SIDE_LEFT, SIDE_RIGHT, FRONT) else Two(UNPLACED, UNPLACED, SIDE)
  {
    seq(n / 2, k requires 0 <= k < n / 2 =>
      if k == 0 then Two(SIDE_LEFT, SIDE_RIGHT, FRONT) else Two(UNPLACED, UNPLACED, SIDE))
  }

  /** The last back pair is the one with speakers; an odd back ends with the back centre. */
  function BackLabels(n: nat): (labels: seq<Label>)
    ensures |labels| == n / 2 + Odd(n)
    ensures forall k :: 0 <= k < n / 2 ==>
      labels[k] == if k < n / 2 - 1 then Two(UNPLACED, UNPLACED, BACK) else Two(BACK_LEFT, BACK_RIGHT, BACK)
    ensures Odd(n) == 1 ==> labels[n / 2] == One(BACK_CENTER, SCE, BACK)
  {
    seq(n / 2 + Odd(n), k requires 0 <= k < n / 2 + Odd(n) =>
      if k < n / 2 - 1 then Two(UNPLACED, UNPLACED, BACK)
      else if k < n / 2 then Two(BACK_LEFT, BACK_RIGHT, BACK)
      else One(BACK_CENTER, SCE, BACK))
  }

  function LfeLabels(n: nat): (labels: seq<Label>)
    ensures |labels| == n
    ensures forall k :: 0 <= k < n ==> labels[k] == One(if k == 0 then LOW_FREQUENCY else UNPLACED, LFE, LOW)
  {
    seq(n, k requires 0 <= k < n => One(if k == 0 then LOW_FREQUENCY else UNPLACED, LFE, LOW))
  }

  lemma FrontFits(tags: seq<Tag>, s: nat, j: nat, n: nat)
    requires Paired(tags, FRONT, s, j, n)
    ensures Fits(tags, s, FrontLabels(n), 0, j)
  {
    PairsThenRest(tags, s + Odd(n), FrontLabels(n), Odd(n), n / 2, j, j);
  }

  lemma SideFits(tags: seq<Tag>, s: nat, j: nat, n: nat)
    requires PairsFit(tags, s, n / 2, j)
    ensures Fits(tags, s, SideLabels(n), 0, j)
  {
    PairsThenRest(tags, s, SideLabels(n), 0, n / 2, j, j);
  }

  lemma BackFits(tags: seq<Tag>, s: nat, j: nat, n: nat)
    requires Odd(n) <= j && PairsFit(tags, s, n / 2, j - Odd(n)) && j <= |tags|
    requires Odd(n) == 1 ==> tags[j - 1].kind == SCE
    ensures Fits(tags, s, BackLabels(n), 0, j)
  {
    if Odd(n) == 1 {
      assert Fits(tags, j, BackLabels(n), n / 2 + 1, j);
      assert Fits(tags, j - 1, BackLabels(n), n / 2, j);
    }
    PairsThenRest(tags, s, BackLabels(n), 0, n / 2, j - Odd(n), j);
  }

  lemma {:induction false} LfeFits(tags: seq<Tag>, s: nat, n: nat, k: nat)
    requires k <= n && s + n <= |tags| && forall i :: s <= i < s + n ==> tags[i].kind == LFE
    ensures Fits(tags, s + k, LfeLabels(n), k, s + n)
    decreases n - k
  {
    if k < n {
      LfeFits(tags, s, n, k + 1);
    }
  }

  // ---------- the whole prefix ----------

  /** Channels at the front, at the sides and at the back, and where each region ends; the
      last region is that of the low-frequency elements. */
  datatype Regions = Rejected | Regions(front: nat, side: nat, back: nat, e1: nat, e2: nat, e3: nat, e4: nat)

  function LfeEnd(tags: seq<Tag>, i: nat): (e: nat)
    requires i <= |tags|
    ensures i <= e <= |tags| && (forall k :: i <= k < e ==> tags[k].pos == LOW) && (e < |tags| ==> tags[e].pos != LOW)
    decreases |tags| - i
  {
    if i < |tags| && tags[i].pos == LOW then LfeEnd(tags, i + 1) else i
  }

  lemma {:induction false} CountEnd(tags: seq<Tag>, pos: nat, i: nat, num: nat, firstCpe: bool, parity: bool, s: nat)
    requires i <= |tags| && s <= |tags|
    ensures Count(tags, pos, i, num, firstCpe, parity, s).end <= |tags|
    decreases |tags| - i
  {
    if i < |tags| && tags[i].pos == pos {
      CountEnd(tags, pos, i + 1, num + 2, true, false, s);
      CountEnd(tags, pos, i + 1, num + 1, firstCpe, !parity, s);
    }
  }

  /** The regions of a map; four or more back channels without side channels give their first
      pair to the sides. */
  function Divide(tags: seq<Tag>): (r: Regions)
    ensures r.Regions? ==> r.e3 <= r.e4 <= |tags|
  {
    CountEnd(tags, FRONT, 0, 0, false, false, 0);
    var f := CountPaired(tags, FRONT, 0);
    if f.num < 0 then Rejected
    else
      CountEnd(tags, SIDE, f.end, 0, false, false, f.end);
      var s := CountPaired(tags, SIDE, f.end);
      if s.num < 0 then Rejected
      else
        CountEnd(tags, BACK, s.end, 0, false, false, s.end);
        var b := CountPaired(tags, BACK, s.end);
        if b.num < 0 then Rejected
        else if s.num == 0 && b.num >= 4 then
          var m := if s.end < |tags| && tags[s.end].kind == CPE then s.end + 1 else s.end + 2;
          Regions(f.num, 2, b.num - 2, f.end, m, b.end, LfeEnd(tags, b.end))
        else Regions(f.num, s.num, b.num, f.end, s.end, b.end, LfeEnd(tags, b.end))
  }

  ghost predicate RegionsFit(tags: seq<Tag>, r: Regions)
    requires r.Regions?
  {
    && Fits(tags, 0, FrontLabels(r.front), 0, r.e1) && Fits(tags, r.e1, SideLabels(r.side), 0, r.e2)
    && Fits(tags, r.e2, BackLabels(r.back), 0, r.e3) && r.e3 <= r.e4
    && Fits(tags, r.e3, LfeLabels(r.e4 - r.e3), 0, r.e4)
  }

  lemma FirstPairMoves(tags: seq<Tag>, i: nat, k: nat, j: nat)
    requires k > 0 && PairsFit(tags, i, k, j)
    ensures var m := if i < |tags| && tags[i].kind == CPE then i + 1 else i + 2;
      PairsFit(tags, i, 1, m) && PairsFit(tags, m, k - 1, j) && m <= j
  {
    var m := if i < |tags| && tags[i].kind == CPE then i + 1 else i + 2;
    PairsEndLater(tags, m, k - 1, j);
    assert PairsFit(tags, m, 0, m);
  }

  /** In every map that is accepted, each region holds just the elements its labels ask for:
      whenever a pair is assigned, there is a paired element or two single ones. */
  lemma AcceptedFits(tags: seq<Tag>)
    requires WellTyped(tags) && Divide(tags).Regions?
    ensures RegionsFit(tags, Divide(tags))
  {
    hide Paired, PairsFit, Fits;
    var f := CountPaired(tags, FRONT, 0);
    CountedIsPaired(tags, FRONT, 0);
    CountEnd(tags, FRONT, 0, 0, false, false, 0);
    FrontFits(tags, 0, f.end, f.num);
    CountEnd(tags, SIDE, f.end, 0, false, false, f.end);
    var s := CountPaired(tags, SIDE, f.end);
    CountedIsPaired(tags, SIDE, f.end);
    CountEnd(tags, BACK, s.end, 0, false, false, s.end);
    var b := CountPaired(tags, BACK, s.end);
    CountedIsPaired(tags, BACK, s.end);
    SidesAndBacksFit(tags, f.end, s, b);
    var e := LfeEnd(tags, b.end);
    forall k | b.end <= k < e ensures tags[k].kind == LFE {
      assert tags[k].pos == LOW;
    }
    LfeFits(tags, b.end, e - b.end, 0);
  }

  lemma SidesAndBacksFit(tags: seq<Tag>, i: nat, s: Counted, b: Counted)
    requires s.num >= 0 && b.num >= 0 && i <= |tags|
    requires Paired(tags, SIDE, i, s.end, s.num) && Paired(tags, BACK, s.end, b.end, b.num)
    ensures var m := if s.end < |tags| && tags[s.end].kind == CPE then s.end + 1 else s.end + 2;
      if s.num == 0 && b.num >= 4
      then Fits(tags, i, SideLabels(2), 0, m) && Fits(tags, m, BackLabels(b.num - 2), 0, b.end)
      else Fits(tags, i, SideLabels(s.num), 0, s.end) && Fits(tags, s.end, BackLabels(b.num), 0, b.end)
  {
    if s.num == 0 && b.num >= 4 {
      FirstPairMoves(tags, s.end, b.num / 2, b.end - Odd(b.num));
      var m := if s.end < |tags| && tags[s.end].kind == CPE then s.end + 1 else s.end + 2;
      SideFits(tags, i, m, 2);
      BackFits(tags, m, b.end, b.num - 2);
    } else {
      SideFits(tags, i, s.end, s.num);
      BackFits(tags, s.end, b.end, b.num);
    }
  }

  /** The elements of the whole prefix, with their speakers, in the order of the map. */
  ghost function Elements(tags: seq<Tag>, r: Regions): (es: seq<Elem>)
    requires r.Regions? && RegionsFit(tags, r)
    ensures |es| == r.e4
  {
    Elems(tags, 0, FrontLabels(r.front), 0, r.e1) + Elems(tags, r.e1, SideLabels(r.side), 0, r.e2)
      + Elems(tags, r.e2, BackLabels(r.back), 0, r.e3) + Elems(tags, r.e3, LfeLabels(r.e4 - r.e3), 0, r.e4)
  }

  lemma {:induction false} ElemsKeepIds(tags: seq<Tag>, i: nat, labels: seq<Label>, l: nat, j: nat, k: nat)
    requires l <= |labels| && Fits(tags, i, labels, l, j) && i <= k < j
    ensures j <= |tags| && |Elems(tags, i, labels, l, j)| == j - i
    ensures var e := Elems(tags, i, labels, l, j)[k - i]; e.kind == tags[k].kind && e.id == tags[k].id
    decreases |labels| - l
  {
    var first := Labelled(tags, i, labels[l]);
    if k >= i + |first| {
      ElemsKeepIds(tags, i + |first|, labels, l + 1, j, k);
    }
  }

  lemma FitsEnd(tags: seq<Tag>, i: nat, labels: seq<Label>, l: nat, j: nat)
    requires l <= |labels| && Fits(tags, i, labels, l, j)
    ensures i <= j <= |tags|
  {
  }

  /** Assigning speakers keeps the type and id of every element. */
  lemma ElementsKeepIds(tags: seq<Tag>, r: Regions, k: nat)
    requires r.Regions? && RegionsFit(tags, r) && k < r.e4
    ensures r.e4 <= |tags|
    ensures Elements(tags, r)[k].kind == tags[k].kind && Elements(tags, r)[k].id == tags[k].id
  {
    hide Fits, Elems;
    FitsEnd(tags, r.e3, LfeLabels(r.e4 - r.e3), 0, r.e4);
    if k < r.e1 {
      ElemsKeepIds(tags, 0, FrontLabels(r.front), 0, r.e1, k);
    } else if k < r.e2 {
      ElemsKeepIds(tags, r.e1, SideLabels(r.side), 0, r.e2, k);
    } else if k < r.e3 {
      ElemsKeepIds(tags, r.e2, BackLabels(r.back), 0, r.e3, k);
    } else {
      ElemsKeepIds(tags, r.e3, LfeLabels(r.e4 - r.e3), 0, r.e4, k);
    }
  }

  // ---------- the stable sort ----------

  ghost predicate Sorted(es: seq<Elem>) {
    forall k, j :: 0 <= k < j < |es| ==> es[k].speakers <= es[j].speakers
  }

  /** The elements with these speakers, in their order. */
  function At(es: seq<Elem>, v: nat): seq<Elem> {
    if es == [] then [] else At(es[..|es| - 1], v) + if es[|es| - 1].speakers == v then [es[|es| - 1]] else []
  }

  /** Type and id of every element. */
  function Ids(es: seq<Elem>): (ids: seq<(nat, nat)>)
    ensures |ids| == |es| && forall k :: 0 <= k < |es| ==> ids[k] == (es[k].kind, es[k].id)
  {
    seq(|es|, k requires 0 <= k < |es| => (es[k].kind, es[k].id))
  }

  /** b holds the elements of a; those with equal speakers keep their order. */
  ghost predicate Rearranged(a: seq<Elem>, b: seq<Elem>) {
    && |a| == |b| && multiset(a) == multiset(b) && multiset(Ids(a)) == multiset(Ids(b))
    && forall v: nat :: At(a, v) == At(b, v)
  }

  lemma {:induction false} AtTogether(a: seq<Elem>, b: seq<Elem>, v: nat)
    ensures At(a + b, v) == At(a, v) + At(b, v)
  {
    if b == [] {
      assert a + b == a;
    } else {
      var n := |b| - 1;
      assert (a + b)[..|a + b| - 1] == a + b[..n];
      AtTogether(a, b[..n], v);
    }
  }

  function Swap<T>(s: seq<T>, i: nat): (r: seq<T>)
    requires 0 < i < |s|
    ensures |r| == |s|
  {
    s[i - 1 := s[i]][i := s[i - 1]]
  }

  lemma SwapParts<T>(s: seq<T>, i: nat)
    requires 0 < i < |s|
    ensures s == s[..i - 1] + [s[i - 1]] + [s[i]] + s[i + 1..]
    ensures Swap(s, i) == s[..i - 1] + [s[i]] + [s[i - 1]] + s[i + 1..]
  {
  }

  lemma SwapKeepsMultiset<T>(s: seq<T>, i: nat)
    requires 0 < i < |s|
    ensures multiset(Swap(s, i)) == multiset(s)
  {
    SwapParts(s, i);
  }

  lemma SwapKeepsAt(es: seq<Elem>, i: nat, v: nat)
    requires 0 < i < |es| && es[i - 1].speakers != es[i].speakers
    ensures At(Swap(es, i), v) == At(es, v)
  {
    SwapParts(es, i);
    var a, x, y, b := es[..i - 1], [es[i - 1]], [es[i]], es[i + 1..];
    AtTogether(a, x, v);
    AtTogether(a + x, y, v);
    AtTogether(a + x + y, b, v);
    AtTogether(a, y, v);
    AtTogether(a + y, x, v);
    AtTogether(a + y + x, b, v);
  }

  lemma SwapRearranges(a: seq<Elem>, es: seq<Elem>, i: nat)
    requires Rearranged(a, es) && 0 < i < |es| && es[i - 1].speakers != es[i].speakers
    ensures Rearranged(a, Swap(es, i))
  {
    SwapKeepsMultiset(es, i);
    SwapKeepsMultiset(Ids(es), i);
    assert Ids(Swap(es, i)) == Swap(Ids(es), i);
    forall v: nat ensures At(a, v) == At(Swap(es, i), v) {
      SwapKeepsAt(es, i, v);
    }
  }

  lemma {:induction false} AtFinds(es: seq<Elem>, v: nat)
    ensures At(es, v) != [] ==> exists k :: 0 <= k < |es| && es[k].speakers == v
  {
    if es != [] {
      AtFinds(es[..|es| - 1], v);
    }
  }

  lemma AtLast(es: seq<Elem>, v: nat)
    requires es != []
    ensures var n, all := |es| - 1, At(es, v);
      if es[n].speakers == v then all != [] && all[|all| - 1] == es[n] && At(es[..n], v) == all[..|all| - 1]
      else At(es[..n], v) == all
  {
  }

  /** A sorted stable rearrangement is unique. */
  lemma {:induction false} StableSortIsUnique(b: seq<Elem>, c: seq<Elem>)
    requires |b| == |c| && Sorted(b) && Sorted(c) && forall v: nat :: At(b, v) == At(c, v)
    ensures b == c
  {
    if b != [] {
      var n := |b| - 1;
      var x, y := b[n].speakers, c[n].speakers;
      assert At(b, x) == At(c, x) && At(b, y) == At(c, y);
      AtLast(b, x);
      AtLast(c, y);
      AtFinds(c, x);
      AtFinds(b, y);
      assert x == y;
      forall v: nat ensures At(b[..n], v) == At(c[..n], v) {
        assert At(b, v) == At(c, v);
        AtLast(b, v);
        AtLast(c, v);
      }
      StableSortIsUnique(b[..n], c[..n]);
    }
  }

  /** Every element from n on is no smaller than any before it. */
  ghost predicate Settled(es: seq<Elem>, n: nat) {
    forall k, j :: 0 <= k < j < |es| && n <= j ==> es[k].speakers <= es[j].speakers
  }

  /** One pass: swaps neighbours that are out of order, and tells where the last swap was. */
  method BubblePass(e2c: array<Elem>, total: nat, n: nat, ghost first: seq<Elem>) returns (nextN: nat)
    requires n <= total <= e2c.Length && Settled(e2c[..total], n) && Rearranged(first, e2c[..total])
    modifies e2c
    ensures nextN <= n && (n > 0 ==> nextN < n)
    ensures Settled(e2c[..total], nextN) && Rearranged(first, e2c[..total])
  {
    hide Rearranged;
    nextN := 0;
    var i := 1;
    while i < n
      invariant 1 <= i && (n > 0 ==> i <= n) && nextN < i && (n == 0 ==> i == 1)
      invariant forall k, j :: 0 <= k < j < i && nextN <= j && j < total ==> e2c[k].speakers <= e2c[j].speakers
      invariant forall k, j :: 0 <= k < j < total && n <= j ==> e2c[k].speakers <= e2c[j].speakers
      invariant Rearranged(first, e2c[..total])
    {
      if e2c[i - 1].speakers > e2c[i].speakers {
        SwapRearranges(first, e2c[..total], i);
        ghost var before := e2c[..total];
        e2c[i - 1], e2c[i] := e2c[i], e2c[i - 1];
        assert e2c[..total] == Swap(before, i);
        nextN := i;
      }
      i := i + 1;
    }
  }

  /** The bubble sort with its shrinking bound sorts, ends, and is stable. */
  method BubbleSort(e2c: array<Elem>, total: nat)
    requires total <= e2c.Length
    modifies e2c
    ensures Sorted(e2c[..total]) && Rearranged(old(e2c[..total]), e2c[..total])
  {
    ghost var first := e2c[..total];
    var n: nat := BubblePass(e2c, total, total, first);
    while n > 0
      invariant n <= total && Settled(e2c[..total], n) && Rearranged(first, e2c[..total])
    {
      n := BubblePass(e2c, total, n, first);
    }
  }

  // ---------- the channel order in place ----------

  /** The union of the speakers that are placed. */
  function Speakers(es: seq<Elem>, k: nat): nat
    requires k <= |es|
  {
    if k == 0 then 0
    else if es[k - 1].speakers == UNPLACED then Speakers(es, k - 1)
    else Or(Speakers(es, k - 1), es[k - 1].speakers)
  }

  /** The elements still to be made from labels l on, after those already made. */
  ghost predicate Making(tags: seq<Tag>, made: seq<Elem>, i: nat, labels: seq<Label>, l: nat, j: nat, all: seq<Elem>) {
    && l <= |labels| && Fits(tags, i, labels, l, j) && |made| == i <= j
    && made + Elems(tags, i, labels, l, j) == all
  }

  lemma MakingLeft(tags: seq<Tag>, made: seq<Elem>, i: nat, labels: seq<Label>, l: nat, j: nat, all: seq<Elem>)
    requires Making(tags, made, i, labels, l, j, all) && l < |labels|
    ensures i < j <= |tags| && (labels[l].Two? && tags[i].kind != CPE ==> i + 1 < j)
    ensures labels[l].Two? ==> tags[i].kind == CPE || (tags[i].kind == SCE && tags[i + 1].kind == SCE)
  {
  }

  /** The elements from label l on are those of label l and the rest. */
  lemma FitsMore(tags: seq<Tag>, i: nat, labels: seq<Label>, l: nat, j: nat)
    requires l < |labels| && Fits(tags, i, labels, l, j)
    ensures i < |tags| && (labels[l].Two? && tags[i].kind != CPE ==> i + 1 < |tags|)
    ensures var es := Labelled(tags, i, labels[l]);
      Fits(tags, i + |es|, labels, l + 1, j) && i + |es| <= j
      && Elems(tags, i, labels, l, j) == es + Elems(tags, i + |es|, labels, l + 1, j)
  {
  }

  lemma MakingMore(tags: seq<Tag>, made: seq<Elem>, i: nat, labels: seq<Label>, l: nat, j: nat, all: seq<Elem>,
                   made': seq<Elem>)
    requires Making(tags, made, i, labels, l, j, all) && l < |labels|
    requires i < |tags| && (labels[l].Two? && tags[i].kind != CPE ==> i + 1 < |tags|)
    requires made' == made + Labelled(tags, i, labels[l])
    ensures Making(tags, made', |made'|, labels, l + 1, j, all)
  {
    hide Fits, Elems, Labelled;
    FitsMore(tags, i, labels, l, j);
    var es := Labelled(tags, i, labels[l]);
    var rest := Elems(tags, i + |es|, labels, l + 1, j);
    assert made + (es + rest) == (made + es) + rest;
  }

  lemma MakingDone(tags: seq<Tag>, made: seq<Elem>, i: nat, labels: seq<Label>, l: nat, j: nat, all: seq<Elem>)
    requires Making(tags, made, i, labels, l, j, all) && l == |labels|
    ensures made == all && i == j
  {
  }

  /** count_paired_channels. */
  method CountPairedChannels(layoutMap: array<Tag>, pos: nat, current: nat) returns (num: int, end: nat)
    requires current <= layoutMap.Length
    ensures Counted(num, end) == CountPaired(layoutMap[..], pos, current)
  {
    ghost var tags := layoutMap[..];
    var channels, firstCpe, parity, i := 0, false, false, current;
    while i < layoutMap.Length && layoutMap[i].pos == pos
      invariant current <= i <= layoutMap.Length
      invariant CountPaired(tags, pos, current) == Count(tags, pos, i, channels, firstCpe, parity, current)
    {
      if layoutMap[i].kind == CPE {
        if parity {
          if pos == FRONT && !firstCpe {
            parity := false;
          } else {
            return -1, current;
          }
        }
        channels := channels + 2;
        firstCpe := true;
      } else {
        channels := channels + 1;
        parity := !parity;
      }
      i := i + 1;
    }
    if parity && ((pos == FRONT && firstCpe) || pos == SIDE) {
      return -1, current;
    }
    return channels, i;
  }

  /** assign_pair, where the labels being worked off ask for a pair next. */
  method AssignPair(e2c: array<Elem>, layoutMap: array<Tag>, offset: nat, left: nat, right: nat, pos: nat,
                    ghost labels: seq<Label>, ghost l: nat, ghost j: nat, ghost all: seq<Elem>) returns (next: nat)
    requires e2c.Length == MAX_TAGS && layoutMap.Length <= MAX_TAGS && offset <= MAX_TAGS
    requires Making(layoutMap[..], e2c[..offset], offset, labels, l, j, all)
    requires l < |labels| && labels[l] == Two(left, right, pos)
    modifies e2c
    ensures next <= layoutMap.Length && Making(layoutMap[..], e2c[..next], next, labels, l + 1, j, all)
  {
    hide Making, Or;
    ghost var made := e2c[..offset];
    MakingLeft(layoutMap[..], made, offset, labels, l, j, all);
    if layoutMap[offset].kind == CPE {
      e2c[offset] := Elem(Or(left, right), CPE, layoutMap[offset].id, pos);
      next := offset + 1;
    } else {
      e2c[offset] := Elem(left, SCE, layoutMap[offset].id, pos);
      e2c[offset + 1] := Elem(right, SCE, layoutMap[offset + 1].id, pos);
      next := offset + 2;
    }
    assert e2c[..next] == made + Labelled(layoutMap[..], offset, labels[l]);
    MakingMore(layoutMap[..], made, offset, labels, l, j, all, e2c[..next]);
  }

  /** A single element, where the labels ask for one next. */
  method AssignSingle(e2c: array<Elem>, layoutMap: array<Tag>, offset: nat, at: nat, kind: nat, pos: nat,
                      ghost labels: seq<Label>, ghost l: nat, ghost j: nat, ghost all: seq<Elem>) returns (next: nat)
    requires e2c.Length == MAX_TAGS && layoutMap.Length <= MAX_TAGS && offset <= MAX_TAGS
    requires Making(layoutMap[..], e2c[..offset], offset, labels, l, j, all)
    requires l < |labels| && labels[l] == One(at, kind, pos)
    modifies e2c
    ensures next == offset + 1 <= layoutMap.Length
    ensures Making(layoutMap[..], e2c[..next], next, labels, l + 1, j, all)
  {
    hide Making;
    ghost var made := e2c[..offset];
    MakingLeft(layoutMap[..], made, offset, labels, l, j, all);
    e2c[offset] := Elem(at, kind, layoutMap[offset].id, pos);
    next := offset + 1;
    assert e2c[..next] == made + Labelled(layoutMap[..], offset, labels[l]);
    MakingMore(layoutMap[..], made, offset, labels, l, j, all, e2c[..next]);
  }

  /** The front: centre, the outer pair, the main pair, then pairs without speakers. */
  method AssignFront(e2c: array<Elem>, layoutMap: array<Tag>, start: nat, num: nat, ghost j: nat, ghost all: seq<Elem>)
    returns (i: nat)
    requires e2c.Length == MAX_TAGS && layoutMap.Length <= MAX_TAGS && start <= MAX_TAGS
    requires Making(layoutMap[..], e2c[..start], start, FrontLabels(num), 0, j, all)
    modifies e2c
    ensures i == j <= MAX_TAGS && e2c[..i] == all
  {
    hide Making;
    ghost var labels, l := FrontLabels(num), 0;
    var left := num;
    i := start;
    if left % 2 == 1 {
      i := AssignSingle(e2c, layoutMap, i, FRONT_CENTER, SCE, FRONT, labels, l, j, all);
      left, l := left - 1, l + 1;
    }
    assert l == Odd(num);
    if left >= 4 {
      assert labels[Odd(num) + 0] == FrontPair(num / 2, 0);
      i := AssignPair(e2c, layoutMap, i, FRONT_LEFT_OF_CENTER, FRONT_RIGHT_OF_CENTER, FRONT, labels, l, j, all);
      left, l := left - 2, l + 1;
    }
    if left >= 2 {
      assert labels[Odd(num) + (l - Odd(num))] == FrontPair(num / 2, l - Odd(num));
      i := AssignPair(e2c, layoutMap, i, FRONT_LEFT, FRONT_RIGHT, FRONT, labels, l, j, all);
      left, l := left - 2, l + 1;
    }
    while left >= 2
      invariant i <= layoutMap.Length || left < 2
      invariant i <= MAX_TAGS && left % 2 == 0 && left == 2 * (|labels| - l)
      invariant left >= 2 ==> l - Odd(num) >= 2
      invariant Making(layoutMap[..], e2c[..i], i, labels, l, j, all)
    {
      assert labels[Odd(num) + (l - Odd(num))] == FrontPair(num / 2, l - Odd(num));
      i := AssignPair(e2c, layoutMap, i, UNPLACED, UNPLACED, FRONT, labels, l, j, all);
      left, l := left - 2, l + 1;
    }
    MakingDone(layoutMap[..], e2c[..i], i, labels, l, j, all);
  }

  /** The sides: one pair with speakers, then pairs without. */
  method AssignSide(e2c: array<Elem>, layoutMap: array<Tag>, start: nat, num: nat, ghost j: nat, ghost all: seq<Elem>)
    returns (i: nat)
    requires e2c.Length == MAX_TAGS && layoutMap.Length <= MAX_TAGS && start <= MAX_TAGS && num % 2 == 0
    requires Making(layoutMap[..], e2c[..start], start, SideLabels(num), 0, j, all)
    modifies e2c
    ensures i == j <= MAX_TAGS && e2c[..i] == all
  {
    hide Making;
    ghost var labels, l := SideLabels(num), 0;
    var left := num;
    i := start;
    if left >= 2 {
      i := AssignPair(e2c, layoutMap, i, SIDE_LEFT, SIDE_RIGHT, FRONT, labels, l, j, all);
      left, l := left - 2, l + 1;
    }
    while left >= 2
      invariant i <= MAX_TAGS && left == 2 * (|labels| - l) && (left >= 2 ==> l >= 1)
      invariant Making(layoutMap[..], e2c[..i], i, labels, l, j, all)
    {
      i := AssignPair(e2c, layoutMap, i, UNPLACED, UNPLACED, SIDE, labels, l, j, all);
      left, l := left - 2, l + 1;
    }
    MakingDone(layoutMap[..], e2c[..i], i, labels, l, j, all);
  }

  /** The back: pairs without speakers, the main pair, the centre. */
  method AssignBack(e2c: array<Elem>, layoutMap: array<Tag>, start: nat, num: nat, ghost j: nat, ghost all: seq<Elem>)
    returns (i: nat)
    requires e2c.Length == MAX_TAGS && layoutMap.Length <= MAX_TAGS && start <= MAX_TAGS
    requires Making(layoutMap[..], e2c[..start], start, BackLabels(num), 0, j, all)
    modifies e2c
    ensures i == j <= MAX_TAGS && e2c[..i] == all
  {
    hide Making;
    ghost var labels, l := BackLabels(num), 0;
    var left := num;
    i := start;
    while left >= 4
      invariant i <= MAX_TAGS && l <= num / 2 && left == num - 2 * l
      invariant Making(layoutMap[..], e2c[..i], i, labels, l, j, all)
    {
      i := AssignPair(e2c, layoutMap, i, UNPLACED, UNPLACED, BACK, labels, l, j, all);
      left, l := left - 2, l + 1;
    }
    if left >= 2 {
      i := AssignPair(e2c, layoutMap, i, BACK_LEFT, BACK_RIGHT, BACK, labels, l, j, all);
      left, l := left - 2, l + 1;
    }
    if left != 0 {
      i := AssignSingle(e2c, layoutMap, i, BACK_CENTER, SCE, BACK, labels, l, j, all);
      l := l + 1;
    }
    MakingDone(layoutMap[..], e2c[..i], i, labels, l, j, all);
  }

  /** The low-frequency elements: the first has a speaker. */
  method AssignLfe(e2c: array<Elem>, layoutMap: array<Tag>, start: nat, ghost all: seq<Elem>) returns (i: nat)
    requires e2c.Length == MAX_TAGS && layoutMap.Length <= MAX_TAGS && start <= layoutMap.Length
    requires var n := LfeEnd(layoutMap[..], start) - start;
      Making(layoutMap[..], e2c[..start], start, LfeLabels(n), 0, start + n, all)
    modifies e2c
    ensures i == LfeEnd(layoutMap[..], start) <= MAX_TAGS && e2c[..i] == all
  {
    hide Making;
    ghost var j := LfeEnd(layoutMap[..], start);
    ghost var labels := LfeLabels(j - start);
    i := start;
    if i < layoutMap.Length && layoutMap[i].pos == LOW {
      i := AssignSingle(e2c, layoutMap, i, LOW_FREQUENCY, LFE, LOW, labels, i - start, j, all);
    }
    while i < layoutMap.Length && layoutMap[i].pos == LOW
      invariant start <= i <= j && (i == start ==> j == start)
      invariant Making(layoutMap[..], e2c[..i], i, labels, i - start, j, all)
    {
      i := AssignSingle(e2c, layoutMap, i, UNPLACED, LFE, LOW, labels, i - start, j, all);
    }
    MakingDone(layoutMap[..], e2c[..i], i, labels, i - start, j, all);
  }

  lemma MakingStarts(tags: seq<Tag>, made: seq<Elem>, labels: seq<Label>, j: nat)
    requires Fits(tags, |made|, labels, 0, j)
    ensures Making(tags, made, |made|, labels, 0, j, made + Elems(tags, |made|, labels, 0, j))
  {
  }

  /** All elements with their speakers, before sorting. */
  method AssignAll(e2c: array<Elem>, layoutMap: array<Tag>, ghost r: Regions, front: nat, side: nat, back: nat)
    returns (total: nat)
    requires e2c.Length == MAX_TAGS && layoutMap.Length <= MAX_TAGS
    requires r.Regions? && RegionsFit(layoutMap[..], r) && r.e4 == LfeEnd(layoutMap[..], r.e3) && r.side % 2 == 0
    requires front == r.front && side == r.side && back == r.back && r.e3 <= layoutMap.Length
    modifies e2c
    ensures total == r.e4 <= layoutMap.Length && e2c[..total] == Elements(layoutMap[..], r)
  {
    hide Fits, Elems, Making;
    ghost var tags := layoutMap[..];
    ghost var a := Elems(tags, 0, FrontLabels(r.front), 0, r.e1);
    MakingStarts(tags, [], FrontLabels(r.front), r.e1);
    assert [] + a == a && e2c[..0] == [];
    total := AssignFront(e2c, layoutMap, 0, front, r.e1, a);
    ghost var b := a + Elems(tags, r.e1, SideLabels(r.side), 0, r.e2);
    MakingStarts(tags, a, SideLabels(r.side), r.e2);
    total := AssignSide(e2c, layoutMap, total, side, r.e2, b);
    ghost var c := b + Elems(tags, r.e2, BackLabels(r.back), 0, r.e3);
    MakingStarts(tags, b, BackLabels(r.back), r.e3);
    total := AssignBack(e2c, layoutMap, total, back, r.e3, c);
    ghost var d := c + Elems(tags, r.e3, LfeLabels(r.e4 - r.e3), 0, r.e4);
    MakingStarts(tags, c, LfeLabels(r.e4 - r.e3), r.e4);
    total := AssignLfe(e2c, layoutMap, total, d);
  }

  /** Writes the sorted elements back into the map and collects their speakers. */
  method WriteBack(e2c: array<Elem>, layoutMap: array<Tag>, total: nat) returns (layout: nat)
    requires total <= e2c.Length && total <= layoutMap.Length
    modifies layoutMap
    ensures forall k :: 0 <= k < layoutMap.Length ==>
      layoutMap[k] == if k < total then Tag(e2c[k].kind, e2c[k].id, e2c[k].aac) else old(layoutMap[k])
    ensures layout == Speakers(e2c[..total], total)
  {
    hide Or;
    layout := 0;
    ghost var es := e2c[..total];
    for i := 0 to total
      invariant forall k :: 0 <= k < layoutMap.Length ==>
        layoutMap[k] == if k < i then Tag(e2c[k].kind, e2c[k].id, e2c[k].aac) else old(layoutMap[k])
      invariant layout == Speakers(es, i)
    {
      layoutMap[i] := Tag(e2c[i].kind, e2c[i].id, e2c[i].aac);
      if e2c[i].speakers != UNPLACED {
        layout := Or(layout, e2c[i].speakers);
      }
    }
  }

  /** The map after the call: the sorted elements, then what followed them. */
  ghost predicate Rewritten(tags: seq<Tag>, order: seq<Elem>, tags': seq<Tag>) {
    && |tags'| == |tags| && |order| <= |tags|
    && forall k :: 0 <= k < |tags| ==>
         tags'[k] == if k < |order| then Tag(order[k].kind, order[k].id, order[k].aac) else tags[k]
  }

  /** The elements of the prefix sorted by speaker, stably. */
  ghost predicate Ordered(tags: seq<Tag>, order: seq<Elem>) {
    && Divide(tags).Regions? && RegionsFit(tags, Divide(tags))
    && Sorted(order) && Rearranged(Elements(tags, Divide(tags)), order)
  }

  lemma SideIsEven(tags: seq<Tag>)
    requires WellTyped(tags) && Divide(tags).Regions?
    ensures Divide(tags).side % 2 == 0
  {
    CountEnd(tags, FRONT, 0, 0, false, false, 0);
    CountedIsPaired(tags, SIDE, CountPaired(tags, FRONT, 0).end);
  }

  /** The three counts; four or more back channels without sides give two to the sides. */
  method CountRegions(layoutMap: array<Tag>) returns (ok: bool, front: nat, side: nat, back: nat)
    ensures ok <==> Divide(layoutMap[..]).Regions?
    ensures ok ==> var r := Divide(layoutMap[..]); front == r.front && side == r.side && back == r.back
  {
    hide Count;
    DivideEnds(layoutMap[..]);
    ok, front, side, back := false, 0, 0, 0;
    var num, end := CountPairedChannels(layoutMap, FRONT, 0);
    if num < 0 {
      return;
    }
    front := num;
    num, end := CountPairedChannels(layoutMap, SIDE, end);
    if num < 0 {
      return;
    }
    side := num;
    num, end := CountPairedChannels(layoutMap, BACK, end);
    if num < 0 {
      return;
    }
    back := num;
    if side == 0 && back >= 4 {
      side, back := 2, back - 2;
    }
    ok := true;
  }

  lemma DivideFits(tags: seq<Tag>)
    requires WellTyped(tags) && Divide(tags).Regions?
    ensures var r := Divide(tags);
      RegionsFit(tags, r) && r.e3 <= r.e4 == LfeEnd(tags, r.e3) && r.side % 2 == 0 && r.e4 <= |tags|
  {
    DivideEnds(tags);
    AcceptedFits(tags);
    SideIsEven(tags);
  }

  /** sniff_channel_order: a map that is too long or cannot be paired stays as it is; else its
      prefix is replaced by its elements sorted by speaker. */
  method SniffChannelOrder(layoutMap: array<Tag>) returns (layout: nat, ghost order: seq<Elem>)
    requires WellTyped(layoutMap[..])
    modifies layoutMap
    ensures var tags := old(layoutMap[..]);
      if |tags| > MAX_TAGS || Divide(tags).Rejected? then layout == 0 && layoutMap[..] == tags
      else Ordered(tags, order) && Rewritten(tags, order, layoutMap[..]) && layout == Speakers(order, |order|)
  {
    hide Count, Divide, RegionsFit, Rearranged, Sorted, Speakers, Elements, WellTyped;
    order := [];
    if layoutMap.Length > MAX_TAGS {
      return 0, [];
    }
    ghost var tags := layoutMap[..];
    var ok, front, side, back := CountRegions(layoutMap);
    if !ok {
      return 0, [];
    }
    DivideFits(tags);
    var e2c := new Elem[MAX_TAGS](_ => Elem(0, 0, 0, 0));
    var total := AssignAll(e2c, layoutMap, Divide(tags), front, side, back);
    BubbleSort(e2c, total);
    order := e2c[..total];
    layout := WriteBack(e2c, layoutMap, total);
  }

  lemma DivideEnds(tags: seq<Tag>)
    ensures var f := CountPaired(tags, FRONT, 0);
      f.end <= |tags|
      && var s := CountPaired(tags, SIDE, f.end);
         s.end <= |tags| && CountPaired(tags, BACK, s.end).end <= |tags|
    ensures var r := Divide(tags); r.Regions? ==> r.e4 == LfeEnd(tags, r.e3)
  {
    CountEnd(tags, FRONT, 0, 0, false, false, 0);
    var f := CountPaired(tags, FRONT, 0);
    CountEnd(tags, SIDE, f.end, 0, false, false, f.end);
    var s := CountPaired(tags, SIDE, f.end);
    CountEnd(tags, BACK, s.end, 0, false, false, s.end);
  }

  // ---------- what the caller gets ----------

  /** Type and id of every entry. */
  function TagIds(tags: seq<Tag>): (ids: seq<(nat, nat)>)
    ensures |ids| == |tags| && forall k :: 0 <= k < |tags| ==> ids[k] == (tags[k].kind, tags[k].id)
  {
    seq(|tags|, k requires 0 <= k < |tags| => (tags[k].kind, tags[k].id))
  }

  /** The rewritten prefix holds the same types and ids as before, each as often. */
  lemma PrefixIsPermuted(tags: seq<Tag>, order: seq<Elem>, tags': seq<Tag>)
    requires Ordered(tags, order) && Rewritten(tags, order, tags')
    ensures var n := Divide(tags).e4;
      n == |order| && multiset(TagIds(tags'[..n])) == multiset(TagIds(tags[..n])) && tags'[n..] == tags[n..]
  {
    hide Elements, Divide, RegionsFit, At, Sorted;
    var r := Divide(tags);
    var n, es := r.e4, Elements(tags, r);
    forall k | 0 <= k < n ensures Ids(es)[k] == TagIds(tags[..n])[k] {
      ElementsKeepIds(tags, r, k);
    }
    assert Ids(es) == TagIds(tags[..n]);
    assert Ids(order) == TagIds(tags'[..n]);
  }

  /** Positions in the order front, side, back, low-frequency, coupling. */
  ghost predicate InOrder(tags: seq<Tag>) {
    && (forall k :: 0 <= k < |tags| ==> FRONT <= tags[k].pos <= COUPLING)
    && forall k, j :: 0 <= k < j < |tags| ==> tags[k].pos <= tags[j].pos
  }

  /** In a map that is in order and accepted, the prefix is all that is not coupling. */
  lemma PrefixIsNotCoupling(tags: seq<Tag>, k: nat)
    requires WellTyped(tags) && InOrder(tags) && Divide(tags).Regions? && k < |tags|
    ensures k < Divide(tags).e4 <==> tags[k].pos != COUPLING
  {
    var f := CountPaired(tags, FRONT, 0);
    CountedIsPaired(tags, FRONT, 0);
    CountEnd(tags, FRONT, 0, 0, false, false, 0);
    var s := CountPaired(tags, SIDE, f.end);
    CountedIsPaired(tags, SIDE, f.end);
    CountEnd(tags, SIDE, f.end, 0, false, false, f.end);
    var b := CountPaired(tags, BACK, s.end);
    CountedIsPaired(tags, BACK, s.end);
    CountEnd(tags, BACK, s.end, 0, false, false, s.end);
    EndsRise(tags, f, s, b);
    hide Count, Paired;
    var e := LfeEnd(tags, b.end);
    if k >= e {
      assert e < |tags| && tags[e].pos != LOW;
      if b.end < e {
        assert tags[b.end].pos == LOW && tags[b.end].pos <= tags[e].pos;
      } else {
        assert tags[e].pos != BACK;
        if s.end < b.end {
          assert tags[s.end].pos == BACK && tags[s.end].pos <= tags[e].pos;
        } else if f.end < s.end {
          assert tags[f.end].pos == SIDE && tags[f.end].pos <= tags[e].pos;
        } else if 0 < f.end {
          assert tags[0].pos == FRONT;
        }
      }
      assert tags[e].pos <= tags[k].pos;
    }
  }

  lemma EndsRise(tags: seq<Tag>, f: Counted, s: Counted, b: Counted)
    requires f.num >= 0 && s.num >= 0 && b.num >= 0
    requires Paired(tags, FRONT, 0, f.end, f.num) && Paired(tags, SIDE, f.end, s.end, s.num)
    requires Paired(tags, BACK, s.end, b.end, b.num)
    ensures f.end <= s.end <= b.end
  {
  }

  lemma {:induction false} OrSame(a: nat)
    ensures Or(a, a) == a
  {
    if a > 0 {
      OrSame(a / 2);
    }
  }

  lemma {:induction false} OrAtMostSum(a: nat, b: nat)
    ensures Or(a, b) <= a + b
  {
    if a > 0 && b > 0 {
      OrAtMostSum(a / 2, b / 2);
    }
  }

  /** Are the label's speakers placed, or all without a place? */
  predicate Placeable(lab: Label) {
    match lab
    case One(at, _, _) => at <= UNPLACED
    case Two(left, right, _) => left == right == UNPLACED || left + right <= UNPLACED
  }

  lemma LabelledWithin(tags: seq<Tag>, i: nat, lab: Label)
    requires Placeable(lab) && i < |tags| && (lab.Two? && tags[i].kind != CPE ==> i + 1 < |tags|)
    ensures forall e :: e in Labelled(tags, i, lab) ==> e.speakers <= UNPLACED
  {
    hide Or;
    if lab.Two? {
      OrSame(lab.left);
      OrAtMostSum(lab.left, lab.right);
    }
  }

  lemma {:induction false} ElemsWithin(tags: seq<Tag>, i: nat, labels: seq<Label>, l: nat, j: nat)
    requires l <= |labels| && Fits(tags, i, labels, l, j) && forall k :: 0 <= k < |labels| ==> Placeable(labels[k])
    ensures forall e :: e in Elems(tags, i, labels, l, j) ==> e.speakers <= UNPLACED
    decreases |labels| - l
  {
    hide Fits, Labelled, Placeable;
    if l < |labels| {
      FitsMore(tags, i, labels, l, j);
      LabelledWithin(tags, i, labels[l]);
      ElemsWithin(tags, i + |Labelled(tags, i, labels[l])|, labels, l + 1, j);
    }
  }

  lemma LabelsPlaceable(n: nat)
    ensures forall k :: 0 <= k < |FrontLabels(n)| ==> Placeable(FrontLabels(n)[k])
    ensures forall k :: 0 <= k < |SideLabels(n)| ==> Placeable(SideLabels(n)[k])
    ensures forall k :: 0 <= k < |BackLabels(n)| ==> Placeable(BackLabels(n)[k])
    ensures forall k :: 0 <= k < |LfeLabels(n)| ==> Placeable(LfeLabels(n)[k])
  {
  }

  lemma ElementsWithin(tags: seq<Tag>, r: Regions)
    requires r.Regions? && RegionsFit(tags, r)
    ensures forall e :: e in Elements(tags, r) ==> e.speakers <= UNPLACED
  {
    hide Fits, Elems;
    LabelsPlaceable(r.front);
    LabelsPlaceable(r.side);
    LabelsPlaceable(r.back);
    LabelsPlaceable(r.e4 - r.e3);
    ElemsWithin(tags, 0, FrontLabels(r.front), 0, r.e1);
    ElemsWithin(tags, r.e1, SideLabels(r.side), 0, r.e2);
    ElemsWithin(tags, r.e2, BackLabels(r.back), 0, r.e3);
    ElemsWithin(tags, r.e3, LfeLabels(r.e4 - r.e3), 0, r.e4);
  }

  /** Elements without speakers come last, in the order of the map. */
  lemma UnplacedKeepOrder(tags: seq<Tag>, order: seq<Elem>)
    requires Ordered(tags, order)
    ensures At(order, UNPLACED) == At(Elements(tags, Divide(tags)), UNPLACED)
    ensures |At(order, UNPLACED)| <= |order| && order[|order| - |At(order, UNPLACED)|..] == At(order, UNPLACED)
  {
    ElementsWithin(tags, Divide(tags));
    forall k | 0 <= k < |order| ensures order[k].speakers <= UNPLACED {
      assert order[k] in multiset(order);
      assert order[k] in multiset(Elements(tags, Divide(tags)));
    }
    SortedTail(order, UNPLACED);
  }

  lemma {:induction false} SortedTail(es: seq<Elem>, v: nat)
    requires Sorted(es) && forall k :: 0 <= k < |es| ==> es[k].speakers <= v
    ensures |At(es, v)| <= |es| && es[|es| - |At(es, v)|..] == At(es, v)
  {
    if es != [] {
      var n := |es| - 1;
      SortedTail(es[..n], v);
      AtLast(es, v);
      if es[n].speakers != v {
        AtFinds(es, v);
        assert At(es, v) == [];
      } else {
        assert es == es[..n] + [es[n]];
      }
    }
  }
}
