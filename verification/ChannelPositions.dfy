/** When the positions in a channel map survive sniff_channel_order of libavcodec/aacdec.c. */
module ChannelPositions {
  import opened ChannelOrder

  // ---------- the condition, read off the map ----------

  /** The first element from i on that is not at this position. */
  function RunEnd(tags: seq<Tag>, pos: nat, i: nat): (e: nat)
    requires i <= |tags|
    ensures i <= e <= |tags| && (forall k :: i <= k < e ==> tags[k].pos == pos)
    ensures e < |tags| ==> tags[e].pos != pos
    decreases |tags| - i
  {
    if i < |tags| && tags[i].pos == pos then RunEnd(tags, pos, i + 1) else i
  }

  /** The channels of elements i..j. */
  function Channels(tags: seq<Tag>, i: nat, j: nat): nat
    requires i <= j <= |tags|
  {
    if i == j then 0 else Channels(tags, i, j - 1) + if tags[j - 1].kind == CPE then 2 else 1
  }

  /** No side element, and fewer than four back channels. */
  predicate SidesUnused(tags: seq<Tag>) {
    var f := RunEnd(tags, FRONT, 0);
    (f < |tags| ==> tags[f].pos != SIDE) && Channels(tags, f, RunEnd(tags, BACK, f)) < 4
  }

  /** Where a pair of channels ends: after one paired element, or after two single ones. */
  function PairEnd(tags: seq<Tag>, i: nat): nat {
    if i < |tags| && tags[i].kind == CPE then i + 1 else i + 2
  }

  /** Element k belongs to the pair that gets the side speakers. */
  predicate GetsSides(tags: seq<Tag>, k: nat) {
    !SidesUnused(tags) && var f := RunEnd(tags, FRONT, 0); f <= k < PairEnd(tags, f)
  }

  // ---------- counting, seen from outside ----------

  /** An accepted count counts the channels of a whole run of elements. */
  lemma {:induction false} CountIsRun(tags: seq<Tag>, pos: nat, s: nat, i: nat, num: nat, firstCpe: bool, parity: bool)
    requires s <= i <= |tags| && num == Channels(tags, s, i)
    ensures var r := Count(tags, pos, i, num, firstCpe, parity, s);
      r.num >= 0 ==> r.end == RunEnd(tags, pos, i) && r.num == Channels(tags, s, r.end)
    decreases |tags| - i
  {
    if i < |tags| && tags[i].pos == pos {
      if tags[i].kind == CPE {
        CountIsRun(tags, pos, s, i + 1, num + 2, true, false);
      } else {
        CountIsRun(tags, pos, s, i + 1, num + 1, firstCpe, !parity);
      }
    }
  }

  lemma {:induction false} ChannelsPositive(tags: seq<Tag>, i: nat, j: nat)
    requires i < j <= |tags|
    ensures Channels(tags, i, j) > 0
  {
    if i < j - 1 {
      ChannelsPositive(tags, i, j - 1);
    }
  }

  /** The regions of an accepted map, and which of them are given to the sides. */
  lemma RegionsAre(tags: seq<Tag>)
    requires WellTyped(tags) && Divide(tags).Regions?
    ensures var r := Divide(tags); var f := RunEnd(tags, FRONT, 0); var s := RunEnd(tags, SIDE, f);
      && r.e1 == f && r.e3 == RunEnd(tags, BACK, s) && r.e4 == LfeEnd(tags, r.e3)
      && (r.side == 0 <==> SidesUnused(tags))
      && r.e2 == (if r.side > 0 && s == f then PairEnd(tags, f) else s)
      && (s == f ==> r.side <= 2) && (r.side == 0 ==> s == f)
  {
    hide Count, WellTyped;
    CountIsRun(tags, FRONT, 0, 0, 0, false, false);
    var f := CountPaired(tags, FRONT, 0).end;
    CountIsRun(tags, SIDE, f, f, 0, false, false);
    var s := CountPaired(tags, SIDE, f).end;
    CountIsRun(tags, BACK, s, s, 0, false, false);
    if s > f {
      ChannelsPositive(tags, f, s);
    }
  }

  // ---------- what is recorded ----------

  lemma LabelRecorded(tags: seq<Tag>, i: nat, lab: Label)
    requires i < |tags| && (lab.Two? && tags[i].kind != CPE ==> i + 1 < |tags|)
    ensures forall m :: 0 <= m < |Labelled(tags, i, lab)| ==> Labelled(tags, i, lab)[m].aac == lab.aac
    ensures |Labelled(tags, i, lab)| == if lab.Two? then PairEnd(tags, i) - i else 1
  {
  }

  /** Elements for labels of one position are recorded there. */
  lemma {:induction false} RecordedAt(tags: seq<Tag>, i: nat, labels: seq<Label>, l: nat, j: nat, p: nat, k: nat)
    requires l <= |labels| && Fits(tags, i, labels, l, j) && i <= k < j
    requires forall n :: l <= n < |labels| ==> labels[n].aac == p
    ensures |Elems(tags, i, labels, l, j)| == j - i && Elems(tags, i, labels, l, j)[k - i].aac == p
    decreases |labels| - l
  {
    hide Fits, Elems, Labelled;
    LabelAt(tags, i, labels, l, j, k);
    FitsMore(tags, i, labels, l, j);
    LabelRecorded(tags, i, labels[l]);
    var first := Labelled(tags, i, labels[l]);
    if k >= i + |first| {
      RecordedAt(tags, i + |first|, labels, l + 1, j, p, k);
    }
  }

  lemma LabelAt(tags: seq<Tag>, i: nat, labels: seq<Label>, l: nat, j: nat, k: nat)
    requires l <= |labels| && Fits(tags, i, labels, l, j) && i <= k < j
    ensures l < |labels| && i < |tags| && (labels[l].Two? && tags[i].kind != CPE ==> i + 1 < |tags|)
    ensures Fits(tags, i + |Labelled(tags, i, labels[l])|, labels, l + 1, j)
  {
    FitsMore(tags, i, labels, l, j);
  }

  /** The sides: the first pair is recorded at the front. */
  lemma SidesRecorded(tags: seq<Tag>, i: nat, n: nat, j: nat, k: nat)
    requires Fits(tags, i, SideLabels(n), 0, j) && i <= k < j
    ensures |Elems(tags, i, SideLabels(n), 0, j)| == j - i
    ensures Elems(tags, i, SideLabels(n), 0, j)[k - i].aac == if k < PairEnd(tags, i) then FRONT else SIDE
  {
    hide Fits, Elems, Labelled;
    LabelAt(tags, i, SideLabels(n), 0, j, k);
    FitsMore(tags, i, SideLabels(n), 0, j);
    LabelRecorded(tags, i, SideLabels(n)[0]);
    var first := Labelled(tags, i, SideLabels(n)[0]);
    if k >= i + |first| {
      RecordedAt(tags, i + |first|, SideLabels(n), 1, j, SIDE, k);
    }
  }

  /** Assigning speakers records every element at its own position, but the pair that gets the
      side speakers at the front. */
  lemma RecordedPosition(tags: seq<Tag>, k: nat)
    requires WellTyped(tags) && Divide(tags).Regions? && k < Divide(tags).e4
    ensures RegionsFit(tags, Divide(tags))
    ensures Elements(tags, Divide(tags))[k].aac == if GetsSides(tags, k) then FRONT else tags[k].pos
    ensures GetsSides(tags, k) ==> tags[k].pos == SIDE || tags[k].pos == BACK
  {
    hide Fits, Elems, Divide, SidesUnused, WellTyped;
    var r := Divide(tags);
    AcceptedFits(tags);
    RegionsAre(tags);
    RegionEnds(tags, r);
    SideIsEven(tags);
    if k < r.e1 {
      RecordedAt(tags, 0, FrontLabels(r.front), 0, r.e1, FRONT, k);
    } else if k < r.e2 {
      SidesRecorded(tags, r.e1, r.side, r.e2, k);
    } else if k < r.e3 {
      RecordedAt(tags, r.e2, BackLabels(r.back), 0, r.e3, BACK, k);
    } else {
      RecordedAt(tags, r.e3, LfeLabels(r.e4 - r.e3), 0, r.e4, LOW, k);
    }
  }

  lemma RegionEnds(tags: seq<Tag>, r: Regions)
    requires r.Regions? && RegionsFit(tags, r)
    ensures r.e1 <= r.e2 <= r.e3 <= r.e4 <= |tags|
    ensures r.side >= 2 ==> PairEnd(tags, r.e1) <= r.e2
  {
    hide Elems;
    FitsEnd(tags, 0, FrontLabels(r.front), 0, r.e1);
    FitsEnd(tags, r.e1, SideLabels(r.side), 0, r.e2);
    FitsEnd(tags, r.e2, BackLabels(r.back), 0, r.e3);
    FitsEnd(tags, r.e3, LfeLabels(r.e4 - r.e3), 0, r.e4);
    if r.side >= 2 {
      FitsMore(tags, r.e1, SideLabels(r.side), 0, r.e2);
    }
  }

  // ---------- the map that the caller gets ----------

  /** The entry that is written back for an element. */
  function Entry(e: Elem): Tag {
    Tag(e.kind, e.id, e.aac)
  }

  function Entries(es: seq<Elem>): (tags: seq<Tag>)
    ensures |tags| == |es| && forall k :: 0 <= k < |es| ==> tags[k] == Entry(es[k])
  {
    seq(|es|, k requires 0 <= k < |es| => Entry(es[k]))
  }

  lemma Without<T>(s: seq<T>, k: nat)
    requires k < |s|
    ensures multiset(s[..k] + s[k + 1..]) == multiset(s) - multiset{s[k]}
    ensures multiset(s) == multiset(s[..k] + s[k + 1..]) + multiset{s[k]}
  {
    assert s == s[..k] + [s[k]] + s[k + 1..];
  }

  /** The last value of one rearrangement stands somewhere in the other. */
  lemma LastElsewhere<T>(a: seq<T>, b: seq<T>) returns (k: nat)
    requires multiset(a) == multiset(b) && a != []
    ensures k < |b| && b[k] == a[|a| - 1] && multiset(a[..|a| - 1]) == multiset(b[..k] + b[k + 1..])
  {
    var n := |a| - 1;
    assert a[n] in multiset(b);
    k :| 0 <= k < |b| && b[k] == a[n];
    Without(a, n);
    Without(b, k);
    assert a[..n] + a[n + 1..] == a[..n];
  }

  lemma EntriesWithout(es: seq<Elem>, k: nat)
    requires k < |es|
    ensures multiset(Entries(es)) == multiset(Entries(es[..k] + es[k + 1..])) + multiset{Entry(es[k])}
  {
    Without(Entries(es), k);
    assert Entries(es)[..k] + Entries(es)[k + 1..] == Entries(es[..k] + es[k + 1..]);
  }

  lemma {:induction false} EntriesRearranged(a: seq<Elem>, b: seq<Elem>)
    requires multiset(a) == multiset(b)
    ensures multiset(Entries(a)) == multiset(Entries(b))
    decreases |a|
  {
    hide Entries, Entry;
    if a == [] {
      NothingLeft(a, b);
    } else {
      var n := |a| - 1;
      var k := LastElsewhere(a, b);
      EntriesRearranged(a[..n], b[..k] + b[k + 1..]);
      EntriesWithout(a, n);
      EntriesWithout(b, k);
      assert a[..n] + a[n + 1..] == a[..n];
    }
  }

  lemma NothingLeft<T>(a: seq<T>, b: seq<T>)
    requires multiset(a) == multiset(b) && a == []
    ensures b == []
  {
    assert |multiset(b)| == 0;
  }

  /** How many entries are at a position. */
  function AtPosition(tags: seq<Tag>, pos: nat): nat {
    if tags == [] then 0 else AtPosition(tags[..|tags| - 1], pos) + if tags[|tags| - 1].pos == pos then 1 else 0
  }

  lemma {:induction false} AtPositionSplits(a: seq<Tag>, b: seq<Tag>, pos: nat)
    ensures AtPosition(a + b, pos) == AtPosition(a, pos) + AtPosition(b, pos)
  {
    if b == [] {
      assert a + b == a;
    } else {
      assert (a + b)[..|a + b| - 1] == a + b[..|b| - 1];
      AtPositionSplits(a, b[..|b| - 1], pos);
    }
  }

  lemma AtPositionWithout(tags: seq<Tag>, k: nat, pos: nat)
    requires k < |tags|
    ensures AtPosition(tags, pos) == AtPosition(tags[..k] + tags[k + 1..], pos) + if tags[k].pos == pos then 1 else 0
  {
    var one := [tags[k]];
    assert tags == tags[..k] + (one + tags[k + 1..]);
    AtPositionSplits(tags[..k], one + tags[k + 1..], pos);
    AtPositionSplits(one, tags[k + 1..], pos);
    AtPositionSplits(tags[..k], tags[k + 1..], pos);
    assert AtPosition(one[..0], pos) == 0;
  }

  lemma {:induction false} AtPositionRearranged(a: seq<Tag>, b: seq<Tag>, pos: nat)
    requires multiset(a) == multiset(b)
    ensures AtPosition(a, pos) == AtPosition(b, pos)
    decreases |a|
  {
    hide AtPosition;
    if a == [] {
      NothingLeft(a, b);
    } else {
      var n := |a| - 1;
      var k := LastElsewhere(a, b);
      AtPositionRearranged(a[..n], b[..k] + b[k + 1..], pos);
      AtPositionWithout(a, n, pos);
      AtPositionWithout(b, k, pos);
      assert a[..n] + a[n + 1..] == a[..n];
    }
  }

  lemma {:induction false} MoreAtFront(a: seq<Tag>, b: seq<Tag>, k: nat)
    requires |a| == |b| && forall m :: 0 <= m < |a| && a[m].pos == FRONT ==> b[m].pos == FRONT
    ensures AtPosition(a, FRONT) <= AtPosition(b, FRONT)
    ensures k < |a| && a[k].pos != FRONT && b[k].pos == FRONT ==> AtPosition(a, FRONT) < AtPosition(b, FRONT)
  {
    if a != [] {
      MoreAtFront(a[..|a| - 1], b[..|a| - 1], k);
    }
  }

  /** The entries that are written back, before sorting. */
  lemma EntriesAre(tags: seq<Tag>)
    requires WellTyped(tags) && Divide(tags).Regions?
    ensures RegionsFit(tags, Divide(tags))
    ensures var n := Divide(tags).e4; var es := Entries(Elements(tags, Divide(tags)));
      n <= |tags| && |es| == n
      && forall k :: 0 <= k < n ==> es[k] == if GetsSides(tags, k) then tags[k].(pos := FRONT) else tags[k]
  {
    hide WellTyped, Elements, RegionsFit, GetsSides;
    AcceptedFits(tags);
    var r := Divide(tags);
    forall k | 0 <= k < r.e4
      ensures Entries(Elements(tags, r))[k] == if GetsSides(tags, k) then tags[k].(pos := FRONT) else tags[k]
    {
      RecordedPosition(tags, k);
      ElementsKeepIds(tags, r, k);
    }
  }

  /** The rewritten prefix holds the entries of the map, each as often, except that the pair that
      gets the side speakers is at the front. */
  lemma PrefixIsRearranged(tags: seq<Tag>, order: seq<Elem>, tags': seq<Tag>)
    requires WellTyped(tags) && Ordered(tags, order) && Rewritten(tags, order, tags')
    ensures var n := Divide(tags).e4;
      n <= |tags| && multiset(tags'[..n]) == multiset(Entries(Elements(tags, Divide(tags))))
  {
    hide WellTyped, Elements, At, Ids, Divide, RegionsFit;
    EntriesRearranged(Elements(tags, Divide(tags)), order);
    assert tags'[..|order|] == Entries(order);
  }

  /** The map that is written back has the same entries, positions included, if and only if the
      map has no side element and fewer than four back channels. */
  lemma PositionsKeptIffSidesUnused(tags: seq<Tag>, order: seq<Elem>, tags': seq<Tag>)
    requires WellTyped(tags) && Ordered(tags, order) && Rewritten(tags, order, tags')
    ensures var n := Divide(tags).e4;
      n <= |tags| && (multiset(tags'[..n]) == multiset(tags[..n]) <==> SidesUnused(tags))
  {
    hide Divide, Elements, Ordered, RegionsFit, WellTyped, SidesUnused;
    OrderedDivides(tags, order);
    PrefixIsRearranged(tags, order, tags');
    EntriesAre(tags);
    var n, es := Divide(tags).e4, Entries(Elements(tags, Divide(tags)));
    if SidesUnused(tags) {
      assert es == tags[..n];
    } else {
      var f := RunEnd(tags, FRONT, 0);
      FirstSideInside(tags);
      RecordedPosition(tags, f);
      if multiset(tags'[..n]) == multiset(tags[..n]) {
        AtPositionRearranged(es, tags[..n], FRONT);
        MoreAtFront(tags[..n], es, f);
      }
    }
  }

  lemma OrderedDivides(tags: seq<Tag>, order: seq<Elem>)
    requires Ordered(tags, order)
    ensures Divide(tags).Regions? && RegionsFit(tags, Divide(tags))
  {
  }

  lemma FirstSideInside(tags: seq<Tag>)
    requires WellTyped(tags) && Divide(tags).Regions? && !SidesUnused(tags)
    ensures RunEnd(tags, FRONT, 0) < Divide(tags).e4 && GetsSides(tags, RunEnd(tags, FRONT, 0))
  {
    hide SidesUnused, WellTyped, Divide, RegionsFit;
    AcceptedFits(tags);
    RegionsAre(tags);
    SideIsEven(tags);
    RegionEnds(tags, Divide(tags));
  }

  // ---------- the default map of 7.1 channels ----------

  /** Centre, main pair, side pair, back pair, low frequencies. */
  const SEVEN_ONE: seq<Tag> := [Tag(SCE, 0, FRONT), Tag(CPE, 0, FRONT), Tag(CPE, 1, SIDE), Tag(CPE, 2, BACK),
                                Tag(LFE, 0, LOW)]

  lemma SevenOneRegions()
    ensures WellTyped(SEVEN_ONE) && Divide(SEVEN_ONE) == Regions(3, 2, 2, 2, 3, 4, 5) && !SidesUnused(SEVEN_ONE)
  {
    var t := SEVEN_ONE;
    assert Count(t, FRONT, 2, 3, true, false, 0) == Counted(3, 2);
    assert Count(t, FRONT, 1, 1, false, true, 0) == Counted(3, 2);
    assert CountPaired(t, FRONT, 0) == Counted(3, 2);
    assert Count(t, SIDE, 3, 2, true, false, 2) == Counted(2, 3);
    assert CountPaired(t, SIDE, 2) == Counted(2, 3);
    assert Count(t, BACK, 4, 2, true, false, 3) == Counted(2, 4);
    assert CountPaired(t, BACK, 3) == Counted(2, 4);
    assert LfeEnd(t, 5) == 5;
    assert LfeEnd(t, 4) == 5;
    assert RunEnd(t, FRONT, 2) == 2;
    assert RunEnd(t, FRONT, 1) == 2;
    assert RunEnd(t, FRONT, 0) == 2;
  }

  /** Its side pair is written back as a front one. */
  lemma SevenOneLosesItsSides(order: seq<Elem>, tags': seq<Tag>)
    requires Ordered(SEVEN_ONE, order) && Rewritten(SEVEN_ONE, order, tags')
    ensures multiset(tags') == multiset(SEVEN_ONE[2 := Tag(CPE, 1, FRONT)])
    ensures Tag(CPE, 1, SIDE) in SEVEN_ONE && Tag(CPE, 1, SIDE) !in tags'
  {
    hide Ordered, Divide, Elements, RegionsFit, SidesUnused;
    SevenOneRegions();
    OrderedDivides(SEVEN_ONE, order);
    PrefixIsRearranged(SEVEN_ONE, order, tags');
    EntriesAre(SEVEN_ONE);
    TwoInFront(SEVEN_ONE);
    var es := Entries(Elements(SEVEN_ONE, Divide(SEVEN_ONE)));
    assert es == SEVEN_ONE[2 := Tag(CPE, 1, FRONT)];
    assert tags'[..5] == tags';
    assert SEVEN_ONE[2] == Tag(CPE, 1, SIDE);
    assert Tag(CPE, 1, SIDE) !in multiset(es);
  }

  /** The front ends after two elements. */
  lemma TwoInFront(tags: seq<Tag>)
    requires |tags| > 2 && tags[0].pos == tags[1].pos == FRONT && tags[2].pos != FRONT
    ensures RunEnd(tags, FRONT, 0) == 2
  {
    assert RunEnd(tags, FRONT, 1) == 2;
  }
}
