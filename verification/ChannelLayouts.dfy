/** Which speakers a channel map stands for, said by counting its channels: the layout that
    sniff_channel_order (libavcodec/aacdec.c) returns, the speakers that each element feeds, and
    the maps that are accepted. */
module ChannelLayouts {
  import opened Wrappers
  import opened ChannelOrder
  import opened ChannelPositions

  // ---------- speakers by channel ----------

  /** Channels without a speaker. */
  function Nones(n: nat): (s: seq<Option<nat>>)
    ensures |s| == n && forall c :: 0 <= c < n ==> s[c] == None
  {
    seq(n, _ => None)
  }

  /** The bits of the speakers of n front channels: 0 and 1 are front left and right, 2 is the centre,
      6 and 7 are left and right of the centre. */
  function FrontSpeakers(n: nat): seq<Option<nat>> {
    if n == 0 then []
    else if n == 1 then [Some(2)]
    else if n == 2 then [Some(0), Some(1)]
    else if n == 3 then [Some(2), Some(0), Some(1)]
    else if n % 2 == 0 then [Some(6), Some(7), Some(0), Some(1)] + Nones(n - 4)
    else [Some(2), Some(6), Some(7), Some(0), Some(1)] + Nones(n - 5)
  }

  /** Side left and right come first. */
  function SideSpeakers(n: nat): seq<Option<nat>> {
    if n < 2 then Nones(n) else [Some(9), Some(10)] + Nones(n - 2)
  }

  /** Back left and right, and the back centre, come last. */
  function BackSpeakers(n: nat): seq<Option<nat>> {
    if n == 0 then []
    else if n == 1 then [Some(8)]
    else if n % 2 == 0 then Nones(n - 2) + [Some(4), Some(5)]
    else Nones(n - 3) + [Some(4), Some(5), Some(8)]
  }

  function LowSpeakers(n: nat): seq<Option<nat>> {
    if n == 0 then [] else [Some(3)] + Nones(n - 1)
  }

  // ---------- the channels of a map ----------

  /** Where the front, the sides, the back and the low-frequency elements end. */
  function FrontEnd(tags: seq<Tag>): (e: nat)
    ensures e <= |tags|
  {
    RunEnd(tags, FRONT, 0)
  }

  function SideEnd(tags: seq<Tag>): (e: nat)
    ensures FrontEnd(tags) <= e <= |tags|
  {
    RunEnd(tags, SIDE, FrontEnd(tags))
  }

  function BackEnd(tags: seq<Tag>): (e: nat)
    ensures SideEnd(tags) <= e <= |tags|
  {
    RunEnd(tags, BACK, SideEnd(tags))
  }

  function LowEnd(tags: seq<Tag>): (e: nat)
    ensures BackEnd(tags) <= e <= |tags|
  {
    RunEnd(tags, LOW, BackEnd(tags))
  }

  function FrontCount(tags: seq<Tag>): nat {
    Channels(tags, 0, FrontEnd(tags))
  }

  /** Four or more back channels, and no side element. */
  predicate BackFeedsSides(tags: seq<Tag>) {
    SideEnd(tags) == FrontEnd(tags) && Channels(tags, SideEnd(tags), BackEnd(tags)) >= 4
  }

  function SideCount(tags: seq<Tag>): nat {
    if BackFeedsSides(tags) then 2 else Channels(tags, FrontEnd(tags), SideEnd(tags))
  }

  function BackCount(tags: seq<Tag>): nat {
    Channels(tags, SideEnd(tags), BackEnd(tags)) - if BackFeedsSides(tags) then 2 else 0
  }

  function LowCount(tags: seq<Tag>): nat {
    LowEnd(tags) - BackEnd(tags)
  }

  /** The speaker of every channel of the map, in its order. */
  function SpeakersOf(tags: seq<Tag>): seq<Option<nat>> {
    FrontSpeakers(FrontCount(tags)) + SideSpeakers(SideCount(tags)) + BackSpeakers(BackCount(tags))
      + LowSpeakers(LowCount(tags))
  }

  /** The value of a speaker bit. */
  function Power(bit: nat): (v: nat)
    ensures v > 0
  {
    if bit == 0 then 1 else 2 * Power(bit - 1)
  }

  /** The speakers of a single channel, and of a pair. */
  function Single(a: Option<nat>): nat {
    if a.Some? then Power(a.value) else UNPLACED
  }

  function Pair(a: Option<nat>, b: Option<nat>): nat {
    if a.Some? && b.Some? then Power(a.value) + Power(b.value) else UNPLACED
  }

  // ---------- labels as channels ----------

  /** The speakers of the labels from l on, one for every channel. */
  function Flat(labels: seq<Label>, l: nat): (s: seq<nat>)
    requires l <= |labels|
    decreases |labels| - l
  {
    if l == |labels| then []
    else
      match labels[l]
      case One(at, _, _) => [at] + Flat(labels, l + 1)
      case Two(left, right, _) => [left, right] + Flat(labels, l + 1)
  }

  /** Single labels are for elements of one channel; a pair has two neighbouring speakers, the left
      one first, or none. */
  ghost predicate Tidy(lab: Label) {
    match lab
    case One(at, kind, _) => kind != CPE
    case Two(left, right, _) =>
      || (left == UNPLACED && right == UNPLACED)
      || exists a: nat :: NextTo(left, right, a)
  }

  ghost predicate NextTo(left: nat, right: nat, a: nat) {
    left == Power(a) && right == Power(a + 1)
  }

  lemma {:induction false} OrSame(a: nat)
    ensures Or(a, a) == a
  {
    if a > 0 {
      OrSame(a / 2);
    }
  }

  lemma {:induction false} OrNext(a: nat)
    ensures Or(Power(a), Power(a + 1)) == Power(a) + Power(a + 1)
  {
    if a > 0 {
      OrNext(a - 1);
    } else {
      assert Power(1) == 2;
      assert Or(0, 1) == 1;
    }
  }

  lemma {:induction false} ChannelsSplit(tags: seq<Tag>, i: nat, m: nat, j: nat)
    requires i <= m <= j <= |tags|
    ensures Channels(tags, i, j) == Channels(tags, i, m) + Channels(tags, m, j)
    decreases j
  {
    if m < j {
      ChannelsSplit(tags, i, m, j - 1);
    }
  }

  lemma OneChannels(tags: seq<Tag>, i: nat)
    requires i < |tags|
    ensures Channels(tags, i, i + 1) == if tags[i].kind == CPE then 2 else 1
  {
    assert Channels(tags, i, i) == 0;
  }

  /** The elements made for one label cover its channels. */
  lemma LabelChannels(tags: seq<Tag>, i: nat, lab: Label)
    requires i < |tags| && (lab.Two? && tags[i].kind != CPE ==> i + 1 < |tags| && tags[i + 1].kind == SCE)
    requires lab.One? ==> tags[i].kind == lab.kind
    requires Tidy(lab)
    ensures Channels(tags, i, i + |Labelled(tags, i, lab)|) == if lab.Two? then 2 else 1
  {
    OneChannels(tags, i);
    if lab.Two? && tags[i].kind != CPE {
      OneChannels(tags, i + 1);
      ChannelsSplit(tags, i, i + 1, i + 2);
    }
  }

  /** The speakers of a pair of channels together. */
  function Both(left: nat, right: nat): nat {
    if left == UNPLACED || right == UNPLACED then UNPLACED else left + right
  }

  lemma PowerPlaced(bit: nat)
    ensures Power(bit) != UNPLACED && Power(bit) + Power(bit + 1) != UNPLACED
  {
  }

  lemma PairIsBoth(lab: Label)
    requires lab.Two? && Tidy(lab)
    ensures Or(lab.left, lab.right) == Both(lab.left, lab.right)
  {
    hide Or, Power;
    if lab.left == UNPLACED && lab.right == UNPLACED {
      OrSame(UNPLACED);
    } else {
      var a: nat :| NextTo(lab.left, lab.right, a);
      OrNext(a);
      PowerPlaced(a);
      PowerPlaced(a + 1);
    }
  }

  /** What an element feeds, its channels beginning at number c. */
  ghost predicate Feeds(e: Elem, kind: nat, all: seq<nat>, c: nat) {
    && c < |all| && (kind == CPE ==> c + 1 < |all|)
    && e.speakers == if kind == CPE then Both(all[c], all[c + 1]) else all[c]
  }

  lemma LabelStart(tags: seq<Tag>, i: nat, labels: seq<Label>, l: nat, j: nat)
    requires l < |labels| && Fits(tags, i, labels, l, j)
    ensures i < j <= |tags|
    ensures labels[l].Two? && tags[i].kind != CPE ==> i + 1 < j && tags[i + 1].kind == SCE
    ensures labels[l].One? ==> tags[i].kind == labels[l].kind
  {
  }

  /** The first elements feed the first channels. */
  lemma LabelFeeds(tags: seq<Tag>, i: nat, labels: seq<Label>, l: nat, k: nat)
    requires l < |labels| && Tidy(labels[l]) && i < |tags|
    requires labels[l].Two? && tags[i].kind != CPE ==> i + 1 < |tags| && tags[i + 1].kind == SCE
    requires labels[l].One? ==> tags[i].kind == labels[l].kind
    requires i <= k < i + |Labelled(tags, i, labels[l])|
    ensures Feeds(Labelled(tags, i, labels[l])[k - i], tags[k].kind, Flat(labels, l), Channels(tags, i, k))
  {
    hide Or, Tidy;
    assert Channels(tags, i, i) == 0;
    OneChannels(tags, i);
    SingleKind(labels[l]);
    if labels[l].Two? {
      PairIsBoth(labels[l]);
    }
  }

  lemma SingleKind(lab: Label)
    requires Tidy(lab)
    ensures lab.One? ==> lab.kind != CPE
  {
  }

  lemma FeedsLater(e: Elem, kind: nat, first: seq<nat>, rest: seq<nat>, c: nat)
    requires Feeds(e, kind, rest, c)
    ensures Feeds(e, kind, first + rest, |first| + c)
  {
  }

  function FlatOne(lab: Label): seq<nat> {
    match lab
    case One(at, _, _) => [at]
    case Two(left, right, _) => [left, right]
  }

  lemma FlatMore(labels: seq<Label>, l: nat)
    requires l < |labels|
    ensures Flat(labels, l) == FlatOne(labels[l]) + Flat(labels, l + 1)
  {
  }

  /** Every element made for the labels feeds the channels that it covers. */
  lemma {:induction false} ElementFeeds(tags: seq<Tag>, i: nat, labels: seq<Label>, l: nat, j: nat, k: nat)
    requires l <= |labels| && Fits(tags, i, labels, l, j) && i <= k < j
    requires forall n :: l <= n < |labels| ==> Tidy(labels[n])
    ensures j <= |tags| && |Elems(tags, i, labels, l, j)| == j - i
    ensures Feeds(Elems(tags, i, labels, l, j)[k - i], tags[k].kind, Flat(labels, l), Channels(tags, i, k))
    decreases |labels| - l
  {
    hide Fits, Elems, Labelled, Feeds, Tidy, Or, Channels, Flat;
    LabelAt(tags, i, labels, l, j, k);
    LabelStart(tags, i, labels, l, j);
    FitsMore(tags, i, labels, l, j);
    var first := Labelled(tags, i, labels[l]);
    if k < i + |first| {
      LabelFeeds(tags, i, labels, l, k);
    } else {
      ElementFeeds(tags, i + |first|, labels, l + 1, j, k);
      LabelChannels(tags, i, labels[l]);
      ChannelsSplit(tags, i, i + |first|, k);
      FlatMore(labels, l);
      FeedsLater(Elems(tags, i, labels, l, j)[k - i], tags[k].kind, FlatOne(labels[l]), Flat(labels, l + 1),
                 Channels(tags, i + |first|, k));
    }
  }

  /** As many channels as the labels ask for. */
  lemma {:induction false} FlatLength(tags: seq<Tag>, i: nat, labels: seq<Label>, l: nat, j: nat)
    requires l <= |labels| && Fits(tags, i, labels, l, j)
    requires forall n :: l <= n < |labels| ==> Tidy(labels[n])
    ensures i <= j <= |tags| && |Flat(labels, l)| == Channels(tags, i, j)
    decreases |labels| - l
  {
    hide Labelled, Tidy, Channels, Flat, Elems;
    if l == |labels| {
      NoChannels(tags, labels, i);
    } else {
      LabelStart(tags, i, labels, l, j);
      FitsMore(tags, i, labels, l, j);
      var first := Labelled(tags, i, labels[l]);
      FlatLength(tags, i + |first|, labels, l + 1, j);
      LabelChannels(tags, i, labels[l]);
      ChannelsSplit(tags, i, i + |first|, j);
      FlatMore(labels, l);
    }
  }

  lemma NoChannels(tags: seq<Tag>, labels: seq<Label>, i: nat)
    requires i <= |tags|
    ensures Channels(tags, i, i) == 0 && Flat(labels, |labels|) == []
  {
  }

  // ---------- the labels of each region ----------

  /** The speaker values of the channels. */
  function Values(s: seq<Option<nat>>): (v: seq<nat>)
    ensures |v| == |s| && forall c :: 0 <= c < |s| ==> v[c] == Single(s[c])
  {
    seq(|s|, c requires 0 <= c < |s| => Single(s[c]))
  }

  lemma PowersAre()
    ensures Power(0) == 0x1 && Power(1) == 0x2 && Power(2) == 0x4 && Power(3) == 0x8 && Power(4) == 0x10
    ensures Power(5) == 0x20 && Power(6) == 0x40 && Power(7) == 0x80 && Power(8) == 0x100 && Power(9) == 0x200
    ensures Power(10) == 0x400
  {
    assert Power(3) == 0x8;
    assert Power(6) == 0x40;
  }

  /** From a pair without speakers on, all are without. */
  lemma {:induction false} FlatNones(labels: seq<Label>, l: nat, k: nat)
    requires l + k <= |labels|
    requires forall n :: l <= n < l + k ==> labels[n].Two? && labels[n].left == labels[n].right == UNPLACED
    ensures Flat(labels, l) == Values(Nones(2 * k)) + Flat(labels, l + k)
    decreases k
  {
    hide Flat;
    if k == 0 {
      assert Values(Nones(0)) == [];
    } else {
      FlatMore(labels, l);
      FlatNones(labels, l + 1, k - 1);
      assert Values(Nones(2 * k)) == [UNPLACED, UNPLACED] + Values(Nones(2 * (k - 1)));
    }
  }

  lemma FlatEnd(labels: seq<Label>)
    ensures Flat(labels, |labels|) == []
  {
  }

  lemma FrontTidy(n: nat)
    ensures forall l :: 0 <= l < |FrontLabels(n)| ==> Tidy(FrontLabels(n)[l])
  {
    hide Power;
    var labels := FrontLabels(n);
    PowersAre();
    assert NextTo(0x40, 0x80, 6) && NextTo(0x1, 0x2, 0);
    forall l | 0 <= l < |labels| ensures Tidy(labels[l]) {
      if l >= Odd(n) {
        assert labels[Odd(n) + (l - Odd(n))] == FrontPair(n / 2, l - Odd(n));
      }
    }
  }

  /** The pairs of the front, the centre left aside. */
  lemma FrontPairsAre(n: nat)
    ensures Odd(n) <= |FrontLabels(n)|
    ensures Flat(FrontLabels(n), Odd(n))
         == if n / 2 == 0 then [] else if n / 2 == 1 then [0x1, 0x2]
            else [0x40, 0x80, 0x1, 0x2] + Values(Nones(2 * (n / 2) - 4))
  {
    hide Flat, Power, FrontLabels, Values;
    var labels, o, m := FrontLabels(n), Odd(n), n / 2;
    FlatEnd(labels);
    if m == 1 {
      assert labels[o + 0] == FrontPair(1, 0);
      FlatMore(labels, o);
    } else if m > 1 {
      assert labels[o + 0] == FrontPair(m, 0) && labels[o + 1] == FrontPair(m, 1);
      forall l | o + 2 <= l < |labels| ensures labels[l].Two? && labels[l].left == labels[l].right == UNPLACED {
        assert labels[o + (l - o)] == FrontPair(m, l - o);
      }
      FlatMore(labels, o);
      FlatMore(labels, o + 1);
      FlatNones(labels, o + 2, m - 2);
    }
  }

  lemma FrontIs(n: nat)
    ensures Flat(FrontLabels(n), 0) == Values(FrontSpeakers(n))
    ensures forall l :: 0 <= l < |FrontLabels(n)| ==> Tidy(FrontLabels(n)[l])
  {
    hide Flat, Power, FrontLabels, Tidy;
    FrontTidy(n);
    FrontPairsAre(n);
    PowersAre();
    if n % 2 == 1 {
      FlatMore(FrontLabels(n), 0);
    }
  }

  lemma SideIs(n: nat)
    requires n % 2 == 0
    ensures Flat(SideLabels(n), 0) == Values(SideSpeakers(n))
    ensures forall l :: 0 <= l < |SideLabels(n)| ==> Tidy(SideLabels(n)[l])
  {
    hide Flat, Power;
    var labels := SideLabels(n);
    PowersAre();
    FlatEnd(labels);
    assert NextTo(Power(9), Power(10), 9);
    if n > 0 {
      FlatMore(labels, 0);
      FlatNones(labels, 1, |labels| - 1);
    }
  }

  lemma BackTidy(n: nat)
    ensures forall l :: 0 <= l < |BackLabels(n)| ==> Tidy(BackLabels(n)[l])
  {
    hide Power;
    PowersAre();
    assert NextTo(0x10, 0x20, 4);
  }

  lemma BackPairs(n: nat)
    requires n >= 2
    ensures Flat(BackLabels(n), 0) == Values(Nones(2 * (n / 2 - 1))) + [0x10, 0x20] + Flat(BackLabels(n), n / 2)
  {
    hide Flat, Values;
    FlatNones(BackLabels(n), 0, n / 2 - 1);
    FlatMore(BackLabels(n), n / 2 - 1);
  }

  lemma BackIs(n: nat)
    ensures Flat(BackLabels(n), 0) == Values(BackSpeakers(n))
    ensures forall l :: 0 <= l < |BackLabels(n)| ==> Tidy(BackLabels(n)[l])
  {
    hide Flat, Power, Tidy, BackLabels;
    BackTidy(n);
    PowersAre();
    FlatEnd(BackLabels(n));
    if n >= 2 {
      BackPairs(n);
    }
    if n % 2 == 1 {
      FlatMore(BackLabels(n), n / 2);
    }
  }

  lemma {:induction false} LowTail(n: nat, l: nat)
    requires 0 < l <= n
    ensures Flat(LfeLabels(n), l) == Values(Nones(n - l))
    decreases n - l
  {
    hide Flat;
    if l == n {
      FlatEnd(LfeLabels(n));
    } else {
      FlatMore(LfeLabels(n), l);
      LowTail(n, l + 1);
      assert Values(Nones(n - l)) == [UNPLACED] + Values(Nones(n - l - 1));
    }
  }

  lemma LowIs(n: nat)
    ensures Flat(LfeLabels(n), 0) == Values(LowSpeakers(n))
    ensures forall l :: 0 <= l < |LfeLabels(n)| ==> Tidy(LfeLabels(n)[l])
  {
    hide Flat, Power;
    PowersAre();
    FlatEnd(LfeLabels(n));
    if n > 0 {
      FlatMore(LfeLabels(n), 0);
      LowTail(n, 1);
    }
  }

  // ---------- the speakers of every element ----------

  lemma {:induction false} LowRun(tags: seq<Tag>, i: nat)
    requires i <= |tags|
    ensures LfeEnd(tags, i) == RunEnd(tags, LOW, i)
    decreases |tags| - i
  {
    if i < |tags| {
      LowRun(tags, i + 1);
    }
  }

  /** The counts of an accepted map, by its channels. */
  lemma CountsAre(tags: seq<Tag>)
    requires WellTyped(tags) && Divide(tags).Regions?
    ensures var r := Divide(tags);
      && r.front == FrontCount(tags) && r.side == SideCount(tags) && r.back == BackCount(tags)
      && r.e1 == FrontEnd(tags) && r.e3 == BackEnd(tags) && r.e4 == LowEnd(tags)
  {
    hide Count, WellTyped, Channels;
    RegionsAre(tags);
    NoneThere(tags, 0);
    CountIsRun(tags, FRONT, 0, 0, 0, false, false);
    var f := CountPaired(tags, FRONT, 0).end;
    NoneThere(tags, f);
    CountIsRun(tags, SIDE, f, f, 0, false, false);
    var s := CountPaired(tags, SIDE, f).end;
    NoneThere(tags, s);
    CountIsRun(tags, BACK, s, s, 0, false, false);
    if s > f {
      ChannelsPositive(tags, f, s);
    }
    LowRun(tags, BackEnd(tags));
  }

  lemma NoneThere(tags: seq<Tag>, i: nat)
    requires i <= |tags|
    ensures Channels(tags, i, i) == 0
  {
  }

  /** The labels of the regions, as speakers of channels, and how many channels each region has. */
  lemma RegionChannels(tags: seq<Tag>, r: Regions)
    requires r.Regions? && RegionsFit(tags, r) && r.side % 2 == 0
    ensures r.e1 <= r.e2 <= r.e3 <= r.e4 <= |tags|
    ensures |FrontSpeakers(r.front)| == Channels(tags, 0, r.e1) && |SideSpeakers(r.side)| == Channels(tags, r.e1, r.e2)
    ensures |BackSpeakers(r.back)| == Channels(tags, r.e2, r.e3)
    ensures |LowSpeakers(r.e4 - r.e3)| == Channels(tags, r.e3, r.e4)
  {
    hide Fits, Flat, Tidy, Channels, FrontLabels, SideLabels, BackLabels, LfeLabels, FrontSpeakers, SideSpeakers,
      BackSpeakers, LowSpeakers;
    RegionEnds(tags, r);
    FrontIs(r.front);
    SideIs(r.side);
    BackIs(r.back);
    LowIs(r.e4 - r.e3);
    FlatLength(tags, 0, FrontLabels(r.front), 0, r.e1);
    FlatLength(tags, r.e1, SideLabels(r.side), 0, r.e2);
    FlatLength(tags, r.e2, BackLabels(r.back), 0, r.e3);
    FlatLength(tags, r.e3, LfeLabels(r.e4 - r.e3), 0, r.e4);
  }

  /** The speakers that an element feeds, its channels beginning at number c. */
  ghost predicate FeedsSpeakers(e: Elem, kind: nat, all: seq<Option<nat>>, c: nat) {
    && c < |all| && (kind == CPE ==> c + 1 < |all|)
    && e.speakers == if kind == CPE then Pair(all[c], all[c + 1]) else Single(all[c])
  }

  lemma FeedsWithin(e: Elem, kind: nat, before: seq<Option<nat>>, s: seq<Option<nat>>, after: seq<Option<nat>>, c: nat)
    requires Feeds(e, kind, Values(s), c)
    ensures FeedsSpeakers(e, kind, before + s + after, |before| + c)
  {
    hide Power;
    forall a: Option<nat>, b: Option<nat> ensures Both(Single(a), Single(b)) == Pair(a, b) {
      if a.Some? { PowerPlaced(a.value); }
      if b.Some? { PowerPlaced(b.value); }
    }
    var all := before + s + after;
    assert all[|before| + c] == s[c];
    if kind == CPE {
      assert all[|before| + c + 1] == s[c + 1];
    }
  }

  /** In every map that is accepted, a single element feeds the speaker of its channel, and a paired
      element those of its two channels; channels are counted from the first element on, so of two
      single elements that make a pair the first is the left one. */
  lemma ElementSpeakers(tags: seq<Tag>, k: nat)
    requires WellTyped(tags) && Divide(tags).Regions? && k < LowEnd(tags)
    ensures RegionsFit(tags, Divide(tags)) && Divide(tags).e4 == LowEnd(tags)
    ensures FeedsSpeakers(Elements(tags, Divide(tags))[k], tags[k].kind, SpeakersOf(tags), Channels(tags, 0, k))
  {
    hide Fits, Elems, Flat, Tidy, Divide, Channels, FrontLabels, SideLabels, BackLabels, LfeLabels, FrontSpeakers,
      SideSpeakers, BackSpeakers, LowSpeakers, WellTyped, FrontCount, SideCount, BackCount, LowEnd, BackEnd, FrontEnd,
      FeedsSpeakers, Feeds, Values;
    var r := Divide(tags);
    AcceptedFits(tags);
    SideIsEven(tags);
    CountsAre(tags);
    RegionChannels(tags, r);
    var f, s, b, low := FrontSpeakers(r.front), SideSpeakers(r.side), BackSpeakers(r.back), LowSpeakers(r.e4 - r.e3);
    ChannelsSplit(tags, 0, r.e1, r.e2);
    ChannelsSplit(tags, 0, r.e2, r.e3);
    var e := Elements(tags, r)[k];
    if k < r.e1 {
      FrontIs(r.front);
      ElementFeeds(tags, 0, FrontLabels(r.front), 0, r.e1, k);
      FeedsWithin(e, tags[k].kind, [], f, s + b + low, Channels(tags, 0, k));
      assert [] + f + (s + b + low) == SpeakersOf(tags);
    } else if k < r.e2 {
      SideIs(r.side);
      ElementFeeds(tags, r.e1, SideLabels(r.side), 0, r.e2, k);
      ChannelsSplit(tags, 0, r.e1, k);
      FeedsWithin(e, tags[k].kind, f, s, b + low, Channels(tags, r.e1, k));
      assert f + s + (b + low) == SpeakersOf(tags);
    } else if k < r.e3 {
      BackIs(r.back);
      ElementFeeds(tags, r.e2, BackLabels(r.back), 0, r.e3, k);
      ChannelsSplit(tags, 0, r.e2, k);
      FeedsWithin(e, tags[k].kind, f + s, b, low, Channels(tags, r.e2, k));
    } else {
      LowIs(r.e4 - r.e3);
      ElementFeeds(tags, r.e3, LfeLabels(r.e4 - r.e3), 0, r.e4, k);
      ChannelsSplit(tags, 0, r.e3, k);
      FeedsWithin(e, tags[k].kind, f + s + b, low, [], Channels(tags, r.e3, k));
      assert f + s + b + low + [] == SpeakersOf(tags);
    }
  }

  // ---------- the layout ----------

  /** Bit b of a layout. */
  predicate HasBit(v: nat, b: nat) {
    if b == 0 then v % 2 == 1 else HasBit(v / 2, b - 1)
  }

  /** The speakers of a map by their bits: front left and right, centre, low frequencies, back left
      and right, left and right of the centre, back centre, side left and right. */
  function LayoutBits(front: nat, side: nat, back: nat, low: nat): seq<bool> {
    [front >= 2, front >= 2, front % 2 == 1, low > 0, back >= 2, back >= 2, front >= 4, front >= 4, back % 2 == 1,
     side >= 2, side >= 2]
  }

  /** The number with the bits from i on, the lowest first. */
  function Number(bits: seq<bool>, i: nat): nat
    decreases |bits| - i
  {
    if i >= |bits| then 0 else (if bits[i] then 1 else 0) + 2 * Number(bits, i + 1)
  }

  lemma {:induction false} NumberHasBit(bits: seq<bool>, i: nat, b: nat)
    ensures HasBit(Number(bits, i), b) <==> i + b < |bits| && bits[i + b]
    decreases b
  {
    if i >= |bits| {
      ZeroHasNone(b);
    } else if b > 0 {
      NumberHasBit(bits, i + 1, b - 1);
      assert Number(bits, i) / 2 == Number(bits, i + 1);
    }
  }

  lemma {:induction false} ZeroHasNone(b: nat)
    ensures !HasBit(0, b)
  {
    if b > 0 {
      ZeroHasNone(b - 1);
    }
  }

  lemma {:induction false} PowerHasBit(bit: nat, b: nat)
    ensures HasBit(Power(bit), b) <==> b == bit
  {
    if bit == 0 {
      if b > 0 { ZeroHasNone(b - 1); }
    } else if b > 0 {
      PowerHasBit(bit - 1, b - 1);
    }
  }

  lemma {:induction false} OrHasBit(x: nat, y: nat, b: nat)
    ensures HasBit(Or(x, y), b) <==> HasBit(x, b) || HasBit(y, b)
  {
    if x == 0 || y == 0 {
      ZeroHasNone(b);
    } else if b > 0 {
      OrHasBit(x / 2, y / 2, b - 1);
      OrHalf(x, y);
    } else {
      OrHalf(x, y);
    }
  }

  lemma OrHalf(x: nat, y: nat)
    requires x > 0 && y > 0
    ensures Or(x, y) / 2 == Or(x / 2, y / 2) && Or(x, y) % 2 == if x % 2 == 1 || y % 2 == 1 then 1 else 0
  {
  }

  /** Numbers with the same bits are equal. */
  lemma {:induction false} SameBits(x: nat, y: nat)
    requires forall b: nat :: HasBit(x, b) <==> HasBit(y, b)
    ensures x == y
  {
    assert HasBit(x, 0) <==> HasBit(y, 0);
    if x > 0 || y > 0 {
      forall b: nat ensures HasBit(x / 2, b) <==> HasBit(y / 2, b) {
        assert HasBit(x, b + 1) <==> HasBit(y, b + 1);
      }
      if x / 2 < x || y / 2 < y { SameBits(x / 2, y / 2); }
    }
  }

  /** Some placed element has this bit. */
  ghost predicate Lit(es: seq<Elem>, b: nat) {
    exists e :: e in es && LitBy(e, b)
  }

  ghost predicate LitBy(e: Elem, b: nat) {
    e.speakers != UNPLACED && HasBit(e.speakers, b)
  }

  lemma LitMore(es: seq<Elem>, e: Elem, b: nat)
    ensures Lit(es + [e], b) <==> Lit(es, b) || LitBy(e, b)
  {
    hide LitBy;
    if Lit(es, b) {
      var x :| x in es && LitBy(x, b);
      assert x in es + [e];
    }
    assert e in es + [e];
  }

  lemma {:induction false} SpeakersLit(es: seq<Elem>, k: nat, b: nat)
    requires k <= |es|
    ensures HasBit(Speakers(es, k), b) <==> Lit(es[..k], b)
  {
    hide Or, HasBit, Lit;
    if k == 0 {
      ZeroHasNone(b);
      NoneLit(b);
      assert es[..0] == [];
    } else {
      SpeakersLit(es, k - 1, b);
      LitMore(es[..k - 1], es[k - 1], b);
      assert es[..k - 1] + [es[k - 1]] == es[..k];
      OrHasBit(Speakers(es, k - 1), es[k - 1].speakers, b);
    }
  }

  lemma NoneLit(b: nat)
    ensures !Lit([], b)
  {
  }

  lemma SameLit(a: seq<Elem>, c: seq<Elem>, b: nat)
    requires multiset(a) == multiset(c)
    ensures Lit(a, b) <==> Lit(c, b)
  {
    hide LitBy;
    forall e ensures e in a <==> e in c {
      assert e in a <==> e in multiset(a);
      assert e in c <==> e in multiset(c);
    }
  }

  /** Some channel's speaker has this bit. */
  ghost predicate Sounds(s: seq<nat>, b: nat) {
    exists v :: v in s && SoundsBy(v, b)
  }

  ghost predicate SoundsBy(v: nat, b: nat) {
    v != UNPLACED && HasBit(v, b)
  }

  lemma SoundsTogether(x: seq<nat>, y: seq<nat>, b: nat)
    ensures Sounds(x + y, b) <==> Sounds(x, b) || Sounds(y, b)
  {
    hide SoundsBy;
    forall v | SoundsBy(v, b) ensures v in x + y <==> v in x || v in y {
    }
  }

  lemma LitTogether(x: seq<Elem>, y: seq<Elem>, b: nat)
    ensures Lit(x + y, b) <==> Lit(x, b) || Lit(y, b)
  {
    hide LitBy;
    forall e | LitBy(e, b) ensures e in x + y <==> e in x || e in y {
    }
  }

  lemma OneSounds(v: nat, b: nat)
    ensures Sounds([v], b) <==> SoundsBy(v, b)
  {
    assert v in [v];
  }

  lemma OneLit(e: Elem, b: nat)
    ensures Lit([e], b) <==> LitBy(e, b)
  {
    assert e in [e];
  }

  lemma NextPlaced(lab: Label)
    requires lab.Two? && Tidy(lab)
    ensures Or(lab.left, lab.right) == UNPLACED <==> lab.left == UNPLACED
    ensures lab.left == UNPLACED <==> lab.right == UNPLACED
  {
    hide Or, Power;
    if lab.left == UNPLACED && lab.right == UNPLACED {
      OrSame(UNPLACED);
    } else {
      var a: nat :| NextTo(lab.left, lab.right, a);
      OrNext(a);
      PowerPlaced(a);
      PowerPlaced(a + 1);
    }
  }

  lemma LabelLit(tags: seq<Tag>, i: nat, lab: Label, b: nat)
    requires i < |tags| && (lab.Two? && tags[i].kind != CPE ==> i + 1 < |tags|) && Tidy(lab)
    ensures Lit(Labelled(tags, i, lab), b) <==> Sounds(FlatOne(lab), b)
  {
    hide Or, HasBit, Lit, Sounds, Tidy;
    match lab
    case One(at, kind, aac) =>
      OneLit(Elem(at, kind, tags[i].id, aac), b);
      OneSounds(at, b);
    case Two(left, right, aac) =>
      NextPlaced(lab);
      OrHasBit(left, right, b);
      OneSounds(left, b);
      OneSounds(right, b);
      SoundsTogether([left], [right], b);
      assert [left] + [right] == [left, right];
      if tags[i].kind == CPE {
        OneLit(Elem(Or(left, right), CPE, tags[i].id, aac), b);
      } else {
        var x, y := Elem(left, SCE, tags[i].id, aac), Elem(right, SCE, tags[i + 1].id, aac);
        OneLit(x, b);
        OneLit(y, b);
        LitTogether([x], [y], b);
        assert [x] + [y] == [x, y];
      }
  }

  /** Just the speakers of the labels are lit. */
  lemma {:induction false} RegionLit(tags: seq<Tag>, i: nat, labels: seq<Label>, l: nat, j: nat, b: nat)
    requires l <= |labels| && Fits(tags, i, labels, l, j)
    requires forall n :: l <= n < |labels| ==> Tidy(labels[n])
    ensures Lit(Elems(tags, i, labels, l, j), b) <==> Sounds(Flat(labels, l), b)
    decreases |labels| - l
  {
    hide Labelled, Tidy, Flat, Lit, Sounds;
    if l == |labels| {
      FlatEnd(labels);
      NoneLit(b);
      NoneSounds(b);
    } else {
      hide Fits, Elems;
      LabelStart(tags, i, labels, l, j);
      FitsMore(tags, i, labels, l, j);
      var first := Labelled(tags, i, labels[l]);
      RegionLit(tags, i + |first|, labels, l + 1, j, b);
      LabelLit(tags, i, labels[l], b);
      FlatMore(labels, l);
      LitTogether(first, Elems(tags, i + |first|, labels, l + 1, j), b);
      SoundsTogether(FlatOne(labels[l]), Flat(labels, l + 1), b);
    }
  }

  lemma NoneSounds(b: nat)
    ensures !Sounds([], b)
  {
  }

  lemma ValuesSound(s: seq<Option<nat>>, b: nat)
    ensures Sounds(Values(s), b) <==> Some(b) in s
  {
    hide Power, HasBit;
    forall c | 0 <= c < |s| ensures SoundsBy(Values(s)[c], b) <==> s[c] == Some(b) {
      if s[c].Some? {
        PowerPlaced(s[c].value);
        PowerHasBit(s[c].value, b);
      }
    }
    if Some(b) in s {
      var c :| 0 <= c < |s| && s[c] == Some(b);
      assert Values(s)[c] in Values(s);
    }
  }

  /** The speakers of the regions. */
  lemma FrontBits(n: nat, b: nat)
    ensures Some(b) in FrontSpeakers(n) <==>
      (b <= 1 && n >= 2) || (b == 2 && n % 2 == 1) || ((b == 6 || b == 7) && n >= 4)
  {
  }

  lemma SideBits(n: nat, b: nat)
    ensures Some(b) in SideSpeakers(n) <==> (b == 9 || b == 10) && n >= 2
  {
  }

  lemma BackBits(n: nat, b: nat)
    ensures Some(b) in BackSpeakers(n) <==> ((b == 4 || b == 5) && n >= 2) || (b == 8 && n % 2 == 1)
  {
  }

  lemma LowBits(n: nat, b: nat)
    ensures Some(b) in LowSpeakers(n) <==> b == 3 && n > 0
  {
  }

  lemma AllBits(tags: seq<Tag>, b: nat)
    ensures var bits := LayoutBits(FrontCount(tags), SideCount(tags), BackCount(tags), LowCount(tags));
      Some(b) in SpeakersOf(tags) <==> b < |bits| && bits[b]
  {
    hide FrontCount, SideCount, BackCount, LowCount, FrontSpeakers, SideSpeakers, BackSpeakers, LowSpeakers;
    FrontBits(FrontCount(tags), b);
    SideBits(SideCount(tags), b);
    BackBits(BackCount(tags), b);
    LowBits(LowCount(tags), b);
  }

  /** Just the speakers of the map's channels are lit. */
  lemma ElementsLit(tags: seq<Tag>, b: nat)
    requires WellTyped(tags) && Divide(tags).Regions?
    ensures RegionsFit(tags, Divide(tags))
    ensures Lit(Elements(tags, Divide(tags)), b) <==> Some(b) in SpeakersOf(tags)
  {
    hide Fits, Elems, Flat, Tidy, Divide, Channels, FrontLabels, SideLabels, BackLabels, LfeLabels, FrontSpeakers,
      SideSpeakers, BackSpeakers, LowSpeakers, WellTyped, FrontCount, SideCount, BackCount, LowEnd, BackEnd, FrontEnd,
      Lit, Sounds, Values;
    var r := Divide(tags);
    AcceptedFits(tags);
    SideIsEven(tags);
    CountsAre(tags);
    FrontIs(r.front);
    SideIs(r.side);
    BackIs(r.back);
    LowIs(r.e4 - r.e3);
    RegionLit(tags, 0, FrontLabels(r.front), 0, r.e1, b);
    RegionLit(tags, r.e1, SideLabels(r.side), 0, r.e2, b);
    RegionLit(tags, r.e2, BackLabels(r.back), 0, r.e3, b);
    RegionLit(tags, r.e3, LfeLabels(r.e4 - r.e3), 0, r.e4, b);
    var f, s, k, low := FrontSpeakers(r.front), SideSpeakers(r.side), BackSpeakers(r.back), LowSpeakers(r.e4 - r.e3);
    ValuesSound(f, b);
    ValuesSound(s, b);
    ValuesSound(k, b);
    ValuesSound(low, b);
    var x, y := Elems(tags, 0, FrontLabels(r.front), 0, r.e1), Elems(tags, r.e1, SideLabels(r.side), 0, r.e2);
    var z := Elems(tags, r.e2, BackLabels(r.back), 0, r.e3);
    LitTogether(x, y, b);
    LitTogether(x + y, z, b);
    LitTogether(x + y + z, Elems(tags, r.e3, LfeLabels(r.e4 - r.e3), 0, r.e4), b);
  }

  /** The layout that is returned for an accepted map has just the speakers that the numbers of its
      channels ask for. */
  lemma LayoutOfCounts(tags: seq<Tag>, order: seq<Elem>)
    requires WellTyped(tags) && Ordered(tags, order)
    ensures Speakers(order, |order|)
         == Number(LayoutBits(FrontCount(tags), SideCount(tags), BackCount(tags), LowCount(tags)), 0)
  {
    hide Divide, RegionsFit, Elements, HasBit, Lit, Speakers, SpeakersOf, LayoutBits, FrontCount, SideCount, BackCount,
      LowCount, WellTyped, Number;
    var bits := LayoutBits(FrontCount(tags), SideCount(tags), BackCount(tags), LowCount(tags));
    forall b: nat ensures HasBit(Speakers(order, |order|), b) <==> HasBit(Number(bits, 0), b) {
      SpeakersLit(order, |order|, b);
      assert order[..|order|] == order;
      SameLit(Elements(tags, Divide(tags)), order, b);
      ElementsLit(tags, b);
      AllBits(tags, b);
      NumberHasBit(bits, 0, b);
    }
    SameBits(Speakers(order, |order|), Number(bits, 0));
  }

  // ---------- which maps are accepted ----------

  /** Elements a..b are all the single ones in a row there, among the elements s..j. */
  ghost predicate SingleRun(tags: seq<Tag>, s: nat, j: nat, a: nat, b: nat) {
    && s <= a < b <= j <= |tags| && (forall k :: a <= k < b ==> tags[k].kind != CPE)
    && (a > s ==> tags[a - 1].kind == CPE) && (b < j ==> tags[b].kind == CPE)
  }

  /** An even number of them, or at the begin of the front, or at the end of the back. */
  ghost predicate GoodRun(pos: nat, s: nat, j: nat, a: nat, b: nat) {
    (b - a) % 2 == 0 || (pos == FRONT && a == s) || (pos == BACK && b == j)
  }

  /** The single elements of a region can be paired. */
  ghost predicate Pairable(tags: seq<Tag>, pos: nat, s: nat, j: nat) {
    forall a: nat, b: nat :: SingleRun(tags, s, j, a, b) ==> GoodRun(pos, s, j, a, b)
  }

  /** The runs that end before element e are good. */
  ghost predicate GoodBefore(tags: seq<Tag>, pos: nat, s: nat, j: nat, e: nat) {
    forall a: nat, b: nat :: SingleRun(tags, s, j, a, b) && b < e ==> GoodRun(pos, s, j, a, b)
  }

  /** What the counting loop knows at element i, the single elements before it beginning at u. */
  ghost predicate AtElement(tags: seq<Tag>, s: nat, u: nat, i: nat, firstCpe: bool, parity: bool) {
    && s <= u <= i <= |tags| && (forall k :: u <= k < i ==> tags[k].kind != CPE)
    && (u > s ==> tags[u - 1].kind == CPE) && (firstCpe <==> u > s) && (parity <==> (i - u) % 2 == 1)
  }

  lemma CpeReached(tags: seq<Tag>, pos: nat, s: nat, u: nat, i: nat, firstCpe: bool, parity: bool, j: nat)
    requires AtElement(tags, s, u, i, firstCpe, parity) && i < j <= |tags| && tags[i].kind == CPE
    requires GoodBefore(tags, pos, s, j, u)
    ensures parity && !(pos == FRONT && !firstCpe) ==> !Pairable(tags, pos, s, j)
    ensures !(parity && !(pos == FRONT && !firstCpe)) ==>
              GoodBefore(tags, pos, s, j, i + 1) && AtElement(tags, s, i + 1, i + 1, true, false)
  {
    if parity && !(pos == FRONT && !firstCpe) {
      assert SingleRun(tags, s, j, u, i);
    } else {
      forall a: nat, b: nat | SingleRun(tags, s, j, a, b) && b < i + 1 ensures GoodRun(pos, s, j, a, b) {
        if b >= u {
          assert a >= u;
        }
      }
    }
  }

  lemma EndReached(tags: seq<Tag>, pos: nat, s: nat, u: nat, j: nat, firstCpe: bool, parity: bool)
    requires AtElement(tags, s, u, j, firstCpe, parity) && FRONT <= pos <= BACK
    requires GoodBefore(tags, pos, s, j, u)
    ensures parity && ((pos == FRONT && firstCpe) || pos == SIDE) <==> !Pairable(tags, pos, s, j)
  {
    if parity && ((pos == FRONT && firstCpe) || pos == SIDE) {
      assert SingleRun(tags, s, j, u, j);
    } else {
      forall a: nat, b: nat | SingleRun(tags, s, j, a, b) ensures GoodRun(pos, s, j, a, b) {
        if b >= u {
          assert a >= u;
        }
      }
    }
  }

  /** Counting a region fails just when its single elements cannot be paired. */
  lemma {:induction false} CountIffPairable(tags: seq<Tag>, pos: nat, s: nat, u: nat, i: nat, num: nat, firstCpe: bool,
                                            parity: bool)
    requires AtElement(tags, s, u, i, firstCpe, parity) && FRONT <= pos <= BACK
    requires GoodBefore(tags, pos, s, RunEnd(tags, pos, i), u)
    ensures Count(tags, pos, i, num, firstCpe, parity, s).num >= 0 <==> Pairable(tags, pos, s, RunEnd(tags, pos, i))
    decreases |tags| - i
  {
    hide Pairable, GoodBefore, AtElement;
    var j := RunEnd(tags, pos, i);
    ElementInside(tags, s, u, i, firstCpe, parity);
    if i < j {
      RunGoesOn(tags, pos, i);
      if tags[i].kind == CPE {
        CpeReached(tags, pos, s, u, i, firstCpe, parity, j);
        if !(parity && !(pos == FRONT && !firstCpe)) {
          CountIffPairable(tags, pos, s, i + 1, i + 1, num + 2, true, false);
        }
      } else {
        SingleReached(tags, s, u, i, firstCpe, parity);
        CountIffPairable(tags, pos, s, u, i + 1, num + 1, firstCpe, !parity);
      }
    } else {
      EndReached(tags, pos, s, u, j, firstCpe, parity);
    }
  }

  lemma ElementInside(tags: seq<Tag>, s: nat, u: nat, i: nat, firstCpe: bool, parity: bool)
    requires AtElement(tags, s, u, i, firstCpe, parity)
    ensures s <= u <= i <= |tags|
  {
  }

  lemma SingleReached(tags: seq<Tag>, s: nat, u: nat, i: nat, firstCpe: bool, parity: bool)
    requires AtElement(tags, s, u, i, firstCpe, parity) && i < |tags| && tags[i].kind != CPE
    ensures AtElement(tags, s, u, i + 1, firstCpe, !parity)
  {
  }

  lemma RunGoesOn(tags: seq<Tag>, pos: nat, i: nat)
    requires i < |tags| && i < RunEnd(tags, pos, i)
    ensures tags[i].pos == pos && RunEnd(tags, pos, i + 1) == RunEnd(tags, pos, i)
  {
  }

  lemma CountedIffPairable(tags: seq<Tag>, pos: nat, s: nat)
    requires FRONT <= pos <= BACK && s <= |tags|
    ensures CountPaired(tags, pos, s).num >= 0 <==> Pairable(tags, pos, s, RunEnd(tags, pos, s))
  {
    hide Pairable, Count;
    CountIffPairable(tags, pos, s, s, s, 0, false, false);
  }

  /** A map is accepted if and only if, in each region, every row of single elements has an even
      number of them; the first row of the front and the last of the back may be odd. */
  lemma AcceptedIffPairable(tags: seq<Tag>)
    requires WellTyped(tags)
    ensures Divide(tags).Regions? <==>
      && Pairable(tags, FRONT, 0, FrontEnd(tags)) && Pairable(tags, SIDE, FrontEnd(tags), SideEnd(tags))
      && Pairable(tags, BACK, SideEnd(tags), BackEnd(tags))
  {
    hide Pairable, Count, WellTyped;
    NoneThere(tags, 0);
    CountIsRun(tags, FRONT, 0, 0, 0, false, false);
    CountedIffPairable(tags, FRONT, 0);
    var f := FrontEnd(tags);
    NoneThere(tags, f);
    CountIsRun(tags, SIDE, f, f, 0, false, false);
    CountedIffPairable(tags, SIDE, f);
    var s := SideEnd(tags);
    NoneThere(tags, s);
    CountIsRun(tags, BACK, s, s, 0, false, false);
    CountedIffPairable(tags, BACK, s);
  }

  // ---------- the default maps ----------

  /** aac_channel_layout_map: the elements of a channel configuration, none where there is no map. */
  function DefaultMap(config: nat): seq<Tag> {
    var centre, main := Tag(SCE, 0, FRONT), Tag(CPE, 0, FRONT);
    match config
    case 1 => [centre]
    case 2 => [main]
    case 3 => [centre, main]
    case 4 => [centre, main, Tag(SCE, 1, BACK)]
    case 5 => [centre, main, Tag(CPE, 1, BACK)]
    case 6 => [centre, main, Tag(CPE, 1, BACK), Tag(LFE, 0, LOW)]
    case 7 => [centre, main, Tag(CPE, 1, FRONT), Tag(CPE, 2, BACK), Tag(LFE, 0, LOW)]
    case 11 => [centre, main, Tag(CPE, 1, BACK), Tag(SCE, 1, BACK), Tag(LFE, 0, LOW)]
    case 12 => [centre, main, Tag(CPE, 1, SIDE), Tag(CPE, 2, BACK), Tag(LFE, 0, LOW)]
    case _ => []
  }

  /** aac_channel_layout: mono, stereo, surround, 4.0, 5.0 and 5.1 with back speakers, 7.1 wide with
      back speakers, 6.1, 7.1. */
  function DefaultLayout(config: nat): nat {
    match config
    case 1 => 0x4
    case 2 => 0x3
    case 3 => 0x7
    case 4 => 0x107
    case 5 => 0x37
    case 6 => 0x3F
    case 7 => 0xFF
    case 11 => 0x70F
    case 12 => 0x63F
    case _ => 0
  }

  predicate HasDefault(config: nat) {
    1 <= config <= 7 || config == 11 || config == 12
  }

  /** The first elements of a region are its run. */
  lemma {:induction false} RunIs(tags: seq<Tag>, pos: nat, i: nat, j: nat)
    requires i <= j <= |tags| && (forall k :: i <= k < j ==> tags[k].pos == pos) && (j < |tags| ==> tags[j].pos != pos)
    ensures RunEnd(tags, pos, i) == j
    decreases j - i
  {
    if i < j {
      RunIs(tags, pos, i + 1, j);
    }
  }

  /** The regions of a default map: where they end. */
  lemma DefaultEnds(config: nat)
    requires HasDefault(config)
    ensures var t := DefaultMap(config);
      && FrontEnd(t) == (if config <= 2 then 1 else if config == 7 then 3 else 2)
      && SideEnd(t) == FrontEnd(t) + (if config == 12 then 1 else 0)
      && LowEnd(t) == |t| && BackEnd(t) == |t| - if config >= 6 then 1 else 0
  {
    var t := DefaultMap(config);
    var f := if config <= 2 then 1 else if config == 7 then 3 else 2;
    var s := f + if config == 12 then 1 else 0;
    var b := |t| - if config >= 6 then 1 else 0;
    RunIs(t, FRONT, 0, f);
    RunIs(t, SIDE, f, s);
    RunIs(t, BACK, s, b);
    RunIs(t, LOW, b, |t|);
  }

  lemma UpToThree(tags: seq<Tag>, i: nat, j: nat)
    requires i <= j <= |tags| && j - i <= 3
    ensures Channels(tags, i, j)
         == (if i < j then (if tags[i].kind == CPE then 2 else 1) else 0)
            + (if i + 1 < j then (if tags[i + 1].kind == CPE then 2 else 1) else 0)
            + (if i + 2 < j then (if tags[i + 2].kind == CPE then 2 else 1) else 0)
  {
    NoneThere(tags, i);
    if i < j {
      OneChannels(tags, i);
      ChannelsSplit(tags, i, i + 1, j);
      NoneThere(tags, i + 1);
      if i + 1 < j {
        OneChannels(tags, i + 1);
        ChannelsSplit(tags, i + 1, i + 2, j);
        NoneThere(tags, i + 2);
        if i + 2 < j {
          OneChannels(tags, i + 2);
        }
      }
    }
  }

  lemma DefaultCounts(config: nat)
    requires HasDefault(config)
    ensures var t := DefaultMap(config);
      && FrontCount(t) == (if config <= 2 then config else if config == 7 then 5 else 3)
      && SideCount(t) == (if config == 12 then 2 else 0)
      && BackCount(t) == (if config <= 3 then 0 else if config == 4 then 1 else if config == 11 then 3 else 2)
      && LowCount(t) == if config >= 6 then 1 else 0
  {
    hide Channels, FrontEnd, SideEnd, BackEnd, LowEnd;
    var t := DefaultMap(config);
    DefaultEnds(config);
    UpToThree(t, 0, FrontEnd(t));
    UpToThree(t, FrontEnd(t), SideEnd(t));
    UpToThree(t, SideEnd(t), BackEnd(t));
  }

  lemma DefaultPairable(config: nat)
    requires HasDefault(config)
    ensures WellTyped(DefaultMap(config)) && |DefaultMap(config)| <= MAX_TAGS && Divide(DefaultMap(config)).Regions?
  {
    hide Divide, FrontEnd, SideEnd, BackEnd, LowEnd;
    var t := DefaultMap(config);
    DefaultEnds(config);
    AcceptedIffPairable(t);
    SingleFirstOrLast(t, FRONT, 0, FrontEnd(t));
    SingleFirstOrLast(t, SIDE, FrontEnd(t), SideEnd(t));
    SingleFirstOrLast(t, BACK, SideEnd(t), BackEnd(t));
  }

  /** At most one single element, the first of the front or the last of the back. */
  lemma SingleFirstOrLast(tags: seq<Tag>, pos: nat, s: nat, j: nat)
    requires j <= |tags|
    requires forall k :: s <= k < j && tags[k].kind != CPE ==> (pos == FRONT && k == s) || (pos == BACK && k == j - 1)
    ensures Pairable(tags, pos, s, j)
  {
    forall a: nat, b: nat | SingleRun(tags, s, j, a, b) ensures GoodRun(pos, s, j, a, b) {
      assert tags[a].kind != CPE && tags[b - 1].kind != CPE;
    }
  }

  /** The numbers of the default layouts, and of 6.1 with back speakers. */
  lemma NumbersAre()
    ensures Number(LayoutBits(1, 0, 0, 0), 0) == 0x4 && Number(LayoutBits(2, 0, 0, 0), 0) == 0x3
    ensures Number(LayoutBits(3, 0, 0, 0), 0) == 0x7 && Number(LayoutBits(3, 0, 1, 0), 0) == 0x107
    ensures Number(LayoutBits(3, 0, 2, 0), 0) == 0x37 && Number(LayoutBits(3, 0, 2, 1), 0) == 0x3F
    ensures Number(LayoutBits(5, 0, 2, 1), 0) == 0xFF && Number(LayoutBits(3, 0, 3, 1), 0) == 0x13F
    ensures Number(LayoutBits(3, 2, 2, 1), 0) == 0x63F
  {
    hide Number, LayoutBits;
    NumberOfBits(1, 0, 0, 0);
    NumberOfBits(2, 0, 0, 0);
    NumberOfBits(3, 0, 0, 0);
    NumberOfBits(3, 0, 1, 0);
    NumberOfBits(3, 0, 2, 0);
    NumberOfBits(3, 0, 2, 1);
    NumberOfBits(5, 0, 2, 1);
    NumberOfBits(3, 0, 3, 1);
    NumberOfBits(3, 2, 2, 1);
  }

  /** The number of eleven bits. */
  lemma NumberOfBits(front: nat, side: nat, back: nat, low: nat)
    ensures Number(LayoutBits(front, side, back, low), 0)
         == (if front >= 2 then 0x3 else 0) + (if front % 2 == 1 then 0x4 else 0) + (if low > 0 then 0x8 else 0)
            + (if back >= 2 then 0x30 else 0) + (if front >= 4 then 0xC0 else 0)
            + (if back % 2 == 1 then 0x100 else 0) + (if side >= 2 then 0x600 else 0)
  {
    hide Number;
    ElevenBits(LayoutBits(front, side, back, low));
  }

  function Bit(b: bool): nat {
    if b then 1 else 0
  }

  lemma ElevenBits(x: seq<bool>)
    requires |x| == 11
    ensures Number(x, 0)
         == Bit(x[0]) + 2 * Bit(x[1]) + 4 * Bit(x[2]) + 8 * Bit(x[3]) + 0x10 * Bit(x[4]) + 0x20 * Bit(x[5])
            + 0x40 * Bit(x[6]) + 0x80 * Bit(x[7]) + 0x100 * Bit(x[8]) + 0x200 * Bit(x[9]) + 0x400 * Bit(x[10])
  {
    hide Number, Bit;
    FourBits(x, 0);
    FourBits(x, 4);
    OneBit(x, 8);
    OneBit(x, 9);
    OneBit(x, 10);
    OneBit(x, 11);
  }

  lemma FourBits(x: seq<bool>, i: nat)
    requires i + 4 <= |x|
    ensures Number(x, i)
         == Bit(x[i]) + 2 * Bit(x[i + 1]) + 4 * Bit(x[i + 2]) + 8 * Bit(x[i + 3]) + 0x10 * Number(x, i + 4)
  {
    hide Number, Bit;
    OneBit(x, i);
    OneBit(x, i + 1);
    OneBit(x, i + 2);
    OneBit(x, i + 3);
  }

  lemma OneBit(x: seq<bool>, i: nat)
    ensures Number(x, i) == if i >= |x| then 0 else Bit(x[i]) + 2 * Number(x, i + 1)
  {
  }

  /** Every default map is accepted, and the layout returned is the one listed for its configuration,
      except for 6.1: listed with side speakers, it is returned with back speakers. */
  lemma DefaultLayouts(config: nat, order: seq<Elem>)
    requires HasDefault(config) && Ordered(DefaultMap(config), order)
    ensures Speakers(order, |order|) == if config == 11 then 0x13F else DefaultLayout(config)
    ensures Speakers(order, |order|) == DefaultLayout(config) <==> config != 11
  {
    hide Ordered, Speakers, FrontCount, SideCount, BackCount, LowCount, LayoutBits, Number, DefaultMap;
    DefaultPairable(config);
    LayoutOfCounts(DefaultMap(config), order);
    DefaultCounts(config);
    NumbersAre();
  }
}
