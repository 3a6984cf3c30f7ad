/** How decoded frames reach the inputs of a filter graph: waiting for the formats of all
    inputs, first configuration, reconfiguration and end of stream (ifilter_send_frame and
    ifilter_send_eof of avtools/avconv.c, the end of configure_filtergraph and
    ifilter_parameters_from_frame of avtools/avconv_filter.c). */
module FilterInput {
  import opened Wrappers

  /** What the filter graph depends on; a frame of system memory has no hardware context. */
  datatype Params = Params(format: nat, hw: Option<int>, width: int, height: int, rate: int, layout: int)

  datatype Frame = Frame(params: Params, content: int)

  datatype Media = Audio | Video

  /** What happens to a buffer source: it is created anew, is given a frame, or is told that
      there are no more. */
  datatype Event = Created | Got(f: Frame) | Ended

  /** One input of the graph: its parameters once known, the frames that wait, whether its
      stream has ended, and all that has happened to its buffer sources. */
  datatype Input = Input(media: Media, params: Option<Params>, queue: seq<Frame>, eof: bool, received: seq<Event>)

  /** The graph: finished says that its outputs were marked as finished. */
  datatype Graph = Graph(inputs: seq<Input>, configured: bool, finished: bool)

  /** A frame for input i, or the end of its stream. */
  datatype Action = Send(i: nat, f: Frame) | Eof(i: nat)

  // ---------- the steps ----------

  /** Does a frame with these parameters need another graph? */
  predicate NeedReinit(media: Media, old': Option<Params>, new': Params) {
    match old'
    case None => true
    case Some(p) =>
      || p.format != new'.format || p.hw != new'.hw
      || (if media == Audio then p.rate != new'.rate || p.layout != new'.layout
          else p.width != new'.width || p.height != new'.height)
  }

  /** Is some input's format unknown? */
  predicate Waiting(inputs: seq<Input>) {
    exists j :: 0 <= j < |inputs| && inputs[j].params.None?
  }

  function Gots(fs: seq<Frame>): (es: seq<Event>)
    ensures |es| == |fs| && forall k :: 0 <= k < |fs| ==> es[k] == Got(fs[k])
  {
    seq(|fs|, k requires 0 <= k < |fs| => Got(fs[k]))
  }

  /** configure_filtergraph for one input: a new buffer source, the frames that waited, and the
      end of the stream if it has come. */
  function Configured(input: Input): Input {
    input.(received := input.received + [Created] + Gots(input.queue) + (if input.eof then [Ended] else []),
           queue := [])
  }

  function AllConfigured(inputs: seq<Input>): (r: seq<Input>)
    ensures |r| == |inputs| && forall k :: 0 <= k < |inputs| ==> r[k] == Configured(inputs[k])
  {
    seq(|inputs|, k requires 0 <= k < |inputs| => Configured(inputs[k]))
  }

  function Delivered(inputs: seq<Input>, i: nat, f: Frame): seq<Input>
    requires i < |inputs|
  {
    inputs[i := inputs[i].(received := inputs[i].received + [Got(f)])]
  }

  /** ifilter_send_frame. */
  function Sent(g: Graph, i: nat, f: Frame): Graph
    requires i < |g.inputs|
  {
    var need := NeedReinit(g.inputs[i].media, g.inputs[i].params, f.params);
    var inputs := if need then g.inputs[i := g.inputs[i].(params := Some(f.params))] else g.inputs;
    if !need && g.configured then g.(inputs := Delivered(inputs, i, f))
    else if Waiting(inputs) then g.(inputs := inputs[i := inputs[i].(queue := inputs[i].queue + [f])])
    else g.(inputs := Delivered(AllConfigured(inputs), i, f), configured := true)
  }

  predicate AllEnded(inputs: seq<Input>) {
    forall j :: 0 <= j < |inputs| ==> inputs[j].eof
  }

  /** ifilter_send_eof. */
  function EofSent(g: Graph, i: nat): Graph
    requires i < |g.inputs|
  {
    var input := g.inputs[i].(eof := true);
    if g.configured then g.(inputs := g.inputs[i := input.(received := input.received + [Ended])])
    else
      var inputs := g.inputs[i := input];
      g.(inputs := inputs, finished := g.finished || AllEnded(inputs))
  }

  /** Nothing is sent to an input after its end. */
  predicate Enabled(g: Graph, a: Action) {
    a.i < |g.inputs| && !g.inputs[a.i].eof
  }

  function Step(g: Graph, a: Action): Graph
    requires Enabled(g, a)
  {
    match a
    case Send(i, f) => Sent(g, i, f)
    case Eof(i) => EofSent(g, i)
  }

  function Start(media: seq<Media>): Graph {
    Graph(seq(|media|, k requires 0 <= k < |media| => Input(media[k], None, [], false, [])), false, false)
  }

  // ---------- what every step keeps ----------

  /** The frames among the events, in order. */
  function Frames(es: seq<Event>): seq<Frame> {
    if es == [] then [] else Frames(es[..|es| - 1]) + match es[|es| - 1] case Got(f) => [f] case _ => []
  }

  lemma {:induction false} FramesTogether(a: seq<Event>, b: seq<Event>)
    ensures Frames(a + b) == Frames(a) + Frames(b)
  {
    if b == [] {
      assert a + b == a;
    } else {
      FramesTogether(a, b[..|b| - 1]);
      assert (a + b)[..|a + b| - 1] == a + b[..|b| - 1];
    }
  }

  lemma {:induction false} FramesOfGots(fs: seq<Frame>)
    ensures Frames(Gots(fs)) == fs
  {
    if fs != [] {
      var n := |fs| - 1;
      assert Gots(fs)[..n] == Gots(fs[..n]);
      FramesOfGots(fs[..n]);
      assert fs == fs[..n] + [fs[n]];
    }
  }

  /** No frame comes after an end, and every end is the last event of its buffer source. */
  ghost predicate EndsLast(es: seq<Event>) {
    && (forall k, m :: 0 <= k < m < |es| && es[k].Ended? ==> !es[m].Got?)
    && (forall k :: 0 <= k < |es| - 1 && es[k].Ended? ==> es[k + 1].Created?)
  }

  ghost predicate NoEnd(es: seq<Event>) {
    forall k :: 0 <= k < |es| ==> !es[k].Ended?
  }

  ghost predicate InputOk(input: Input, configured: bool) {
    && EndsLast(input.received)
    && (!input.eof ==> NoEnd(input.received))
    && (configured ==> input.params.Some? && input.queue == [] && input.received != []
                       && (input.eof <==> input.received[|input.received| - 1].Ended?))
    && (!configured ==> input.received == [] && (input.queue != [] ==> input.params.Some?))
  }

  ghost predicate Inv(g: Graph) {
    && (forall k :: 0 <= k < |g.inputs| ==> InputOk(g.inputs[k], g.configured))
    && (g.finished <==> !g.configured && |g.inputs| > 0 && AllEnded(g.inputs))
  }

  /** What an input's frames are: those its buffer sources were given, then those that wait. */
  function AllFrames(input: Input): seq<Frame> {
    Frames(input.received) + input.queue
  }

  lemma FramesOfOne(f: Frame)
    ensures Frames([]) == [] && Frames([Created]) == [] && Frames([Ended]) == [] && Frames([Got(f)]) == [f]
  {
    assert [Created][..0] == [] && [Ended][..0] == [] && [Got(f)][..0] == [];
  }

  lemma ConfiguredKeepsFrames(input: Input, any: Frame)
    ensures AllFrames(Configured(input)) == AllFrames(input)
  {
    hide Frames;
    var gots := Gots(input.queue);
    var ends := if input.eof then [Ended] else [];
    FramesTogether(input.received + [Created] + gots, ends);
    FramesTogether(input.received + [Created], gots);
    FramesTogether(input.received, [Created]);
    FramesOfGots(input.queue);
    FramesOfOne(any);
  }

  /** Adding to a list of events that has not ended, or a new buffer source after the end. */
  lemma EventsFollow(es: seq<Event>, fs: seq<Frame>, eof: bool)
    requires EndsLast(es) && (fs != [] || !eof ==> NoEnd(es))
    ensures var r := es + [Created] + Gots(fs) + (if eof then [Ended] else []);
      && EndsLast(r) && (!eof ==> NoEnd(r)) && r != [] && (eof <==> r[|r| - 1].Ended?)
  {
  }

  lemma ConfiguredIsOk(input: Input)
    requires input.params.Some? && (InputOk(input, false) || InputOk(input, true))
    ensures InputOk(Configured(input), true) && AllFrames(Configured(input)) == AllFrames(input)
  {
    hide EndsLast, AllFrames;
    ConfiguredKeepsFrames(input, Frame(input.params.value, 0));
    NothingEnds();
    EventsFollow(input.received, input.queue, input.eof);
  }

  lemma NothingEnds()
    ensures EndsLast([]) && NoEnd([])
  {
  }

  lemma GotIsOk(input: Input, f: Frame)
    requires InputOk(input, true) && !input.eof
    ensures var r := input.(received := input.received + [Got(f)]);
      InputOk(r, true) && AllFrames(r) == AllFrames(input) + [f]
  {
    FramesTogether(input.received, [Got(f)]);
    FramesOfOne(f);
  }

  lemma EndIsOk(input: Input)
    requires InputOk(input, true) && !input.eof
    ensures var r := input.(eof := true, received := input.received + [Ended]);
      InputOk(r, true) && AllFrames(r) == AllFrames(input)
  {
    FramesTogether(input.received, [Ended]);
    assert Frames([Ended]) == [];
  }

  lemma QueueIsOk(input: Input, f: Frame)
    requires InputOk(input, false) && input.params.Some?
    ensures var r := input.(queue := input.queue + [f]);
      InputOk(r, false) && AllFrames(r) == AllFrames(input) + [f]
  {
  }

  ghost predicate AllOk(inputs: seq<Input>, configured: bool) {
    forall k :: 0 <= k < |inputs| ==> InputOk(inputs[k], configured)
  }

  lemma ReinitIsOk(input: Input, p: Params, configured: bool)
    requires InputOk(input, configured)
    ensures InputOk(input.(params := Some(p)), configured) && AllFrames(input.(params := Some(p))) == AllFrames(input)
  {
  }

  /** What one step does to the frames of input k: a frame sent to it comes last, nothing else
      changes. */
  ghost predicate FramesKept(g: Graph, g': Graph, i: nat, fs: seq<Frame>) {
    && |g'.inputs| == |g.inputs|
    && forall k :: 0 <= k < |g.inputs| ==>
         AllFrames(g'.inputs[k]) == AllFrames(g.inputs[k]) + if k == i then fs else []
  }

  lemma AllConfiguredAreOk(inputs: seq<Input>, configured: bool)
    requires AllOk(inputs, configured) && !Waiting(inputs)
    ensures AllOk(AllConfigured(inputs), true)
    ensures forall k :: 0 <= k < |inputs| ==> AllFrames(AllConfigured(inputs)[k]) == AllFrames(inputs[k])
  {
    hide InputOk, Configured, AllFrames;
    var r := AllConfigured(inputs);
    forall k | 0 <= k < |inputs| ensures InputOk(r[k], true) && AllFrames(r[k]) == AllFrames(inputs[k]) {
      assert InputOk(inputs[k], configured) && inputs[k].params.Some?;
      ConfiguredIsOk(inputs[k]);
    }
  }

  lemma DeliveredIsOk(inputs: seq<Input>, i: nat, f: Frame)
    requires AllOk(inputs, true) && i < |inputs| && !inputs[i].eof
    ensures AllOk(Delivered(inputs, i, f), true) && |Delivered(inputs, i, f)| == |inputs|
    ensures forall k :: 0 <= k < |inputs| ==>
      AllFrames(Delivered(inputs, i, f)[k]) == AllFrames(inputs[k]) + if k == i then [f] else []
  {
    hide InputOk, AllFrames;
    GotIsOk(inputs[i], f);
    var r := Delivered(inputs, i, f);
    forall k | 0 <= k < |inputs| ensures AllFrames(r[k]) == AllFrames(inputs[k]) + if k == i then [f] else [] {
      assert AllFrames(inputs[k]) + [] == AllFrames(inputs[k]);
    }
  }

  lemma SentKeeps(g: Graph, i: nat, f: Frame)
    requires Inv(g) && Enabled(g, Send(i, f))
    ensures Inv(Sent(g, i, f)) && FramesKept(g, Sent(g, i, f), i, [f])
  {
    hide InputOk, AllFrames, NeedReinit;
    var need := NeedReinit(g.inputs[i].media, g.inputs[i].params, f.params);
    ReinitIsOk(g.inputs[i], f.params, g.configured);
    var inputs := if need then g.inputs[i := g.inputs[i].(params := Some(f.params))] else g.inputs;
    KnownAfter(g.inputs[i], f.params);
    assert AllOk(inputs, g.configured);
    if !need && g.configured {
      DeliveredIsOk(inputs, i, f);
    } else if Waiting(inputs) {
      WaitingIsUnconfigured(inputs, g.configured);
      assert !Sent(g, i, f).inputs[i].eof && !g.inputs[i].eof;
      QueueIsOk(inputs[i], f);
      assert forall k :: 0 <= k < |inputs| ==> AllFrames(inputs[k]) + [] == AllFrames(inputs[k]);
    } else {
      AllConfiguredAreOk(inputs, g.configured);
      DeliveredIsOk(AllConfigured(inputs), i, f);
    }
  }

  lemma KnownAfter(input: Input, p: Params)
    ensures !NeedReinit(input.media, input.params, p) ==> input.params.Some?
  {
  }

  lemma WaitingIsUnconfigured(inputs: seq<Input>, configured: bool)
    requires AllOk(inputs, configured) && Waiting(inputs)
    ensures !configured
  {
    var j :| 0 <= j < |inputs| && inputs[j].params.None?;
    assert InputOk(inputs[j], configured);
  }

  lemma EofIsOk(input: Input)
    requires InputOk(input, false)
    ensures InputOk(input.(eof := true), false) && AllFrames(input.(eof := true)) == AllFrames(input)
  {
  }

  lemma EofKeeps(g: Graph, i: nat)
    requires Inv(g) && Enabled(g, Eof(i))
    ensures Inv(EofSent(g, i)) && FramesKept(g, EofSent(g, i), i, [])
  {
    hide InputOk, AllFrames;
    if g.configured {
      EndIsOk(g.inputs[i]);
    } else {
      EofIsOk(g.inputs[i]);
    }
    assert forall k :: 0 <= k < |g.inputs| ==> AllFrames(g.inputs[k]) + [] == AllFrames(g.inputs[k]);
  }

  function FramesFor(a: Action): seq<Frame> {
    match a
    case Send(_, f) => [f]
    case Eof(_) => []
  }

  lemma StepKeeps(g: Graph, a: Action)
    requires Inv(g) && Enabled(g, a)
    ensures Inv(Step(g, a)) && FramesKept(g, Step(g, a), a.i, FramesFor(a))
  {
    match a
    case Send(i, f) => SentKeeps(g, i, f);
    case Eof(i) => EofKeeps(g, i);
  }

  // ---------- runs ----------

  /** The states of a run, one step apart. */
  ghost predicate IsRun(media: seq<Media>, states: seq<Graph>, actions: seq<Action>) {
    && |states| == |actions| + 1 && states[0] == Start(media)
    && forall k :: 0 <= k < |actions| ==> Enabled(states[k], actions[k]) && states[k + 1] == Step(states[k], actions[k])
  }

  /** The frames sent to input i in the first k steps. */
  function SentTo(actions: seq<Action>, i: nat, k: nat): seq<Frame>
    requires k <= |actions|
  {
    if k == 0 then []
    else SentTo(actions, i, k - 1) + if actions[k - 1].i == i then FramesFor(actions[k - 1]) else []
  }

  lemma {:induction false} RunDelivers(media: seq<Media>, states: seq<Graph>, actions: seq<Action>, k: nat)
    requires IsRun(media, states, actions) && k <= |actions|
    ensures Inv(states[k]) && |states[k].inputs| == |media|
    ensures forall i :: 0 <= i < |media| ==> AllFrames(states[k].inputs[i]) == SentTo(actions, i, k)
  {
    hide Inv, Step, Enabled, AllFrames;
    if k == 0 {
      StartIsOk(media);
    } else {
      RunDelivers(media, states, actions, k - 1);
      StepKeeps(states[k - 1], actions[k - 1]);
    }
  }

  lemma StartIsOk(media: seq<Media>)
    ensures Inv(Start(media)) && |Start(media).inputs| == |media|
    ensures forall i :: 0 <= i < |media| ==> AllFrames(Start(media).inputs[i]) == []
  {
    NothingEnds();
    if |media| > 0 {
      assert !Start(media).inputs[0].eof;
    }
  }

  /** For every input: what its buffer sources are given is the first part of what was sent to
      it, in the same order, and all of it once the graph is configured; while frames wait,
      none has been given. */
  lemma FramesInOrder(media: seq<Media>, states: seq<Graph>, actions: seq<Action>, k: nat, i: nat)
    requires IsRun(media, states, actions) && k <= |actions| && i < |media|
    ensures i < |states[k].inputs|
    ensures var input := states[k].inputs[i];
      && Frames(input.received) <= SentTo(actions, i, k)
      && (states[k].configured ==> Frames(input.received) == SentTo(actions, i, k))
      && (!states[k].configured ==> Frames(input.received) == [] && input.queue == SentTo(actions, i, k))
  {
    RunDelivers(media, states, actions, k);
    assert InputOk(states[k].inputs[i], states[k].configured);
  }

  /** Once the graph is configured, an input that has ended has been told so after all its
      frames, even when it ended before there was a graph; one that has not ended never was. */
  lemma EndFollowsFrames(media: seq<Media>, states: seq<Graph>, actions: seq<Action>, k: nat, i: nat)
    requires IsRun(media, states, actions) && k <= |actions| && i < |media| && states[k].configured
    ensures i < |states[k].inputs|
    ensures var input := states[k].inputs[i]; var es := input.received;
      && es != [] && (input.eof <==> es[|es| - 1].Ended?) && (!input.eof ==> NoEnd(es))
      && (forall m, n :: 0 <= m < n < |es| && es[m].Ended? ==> !es[n].Got?)
      && (forall m :: 0 <= m < |es| - 1 && es[m].Ended? ==> es[m + 1].Created?)
  {
    RunDelivers(media, states, actions, k);
    assert InputOk(states[k].inputs[i], states[k].configured);
  }

  /** The outputs are marked as finished exactly when all inputs have ended without the graph
      ever being configured. */
  lemma FinishedWithoutGraph(media: seq<Media>, states: seq<Graph>, actions: seq<Action>, k: nat)
    requires IsRun(media, states, actions) && k <= |actions|
    ensures states[k].finished <==> !states[k].configured && |media| > 0 && AllEnded(states[k].inputs)
  {
    RunDelivers(media, states, actions, k);
  }

  // ---------- when buffer sources are made ----------

  /** What a graph is built for: format and hardware context, with rate and layout of audio or the
      size of video. */
  function Relevant(media: Media, p: Params): (nat, Option<int>, int, int) {
    match media
    case Audio => (p.format, p.hw, p.rate, p.layout)
    case Video => (p.format, p.hw, p.width, p.height)
  }

  /** An input has the parameters that matter of the last frame sent to it. */
  ghost predicate Current(input: Input, media: Media, sent: seq<Frame>) {
    && input.media == media
    && if sent == [] then input.params.None?
       else input.params.Some?
            && Relevant(media, input.params.value) == Relevant(media, sent[|sent| - 1].params)
  }

  /** How often a buffer source was made. */
  function Made(es: seq<Event>): nat {
    if es == [] then 0 else Made(es[..|es| - 1]) + if es[|es| - 1].Created? then 1 else 0
  }

  lemma {:induction false} MadeTogether(a: seq<Event>, b: seq<Event>)
    ensures Made(a + b) == Made(a) + Made(b)
  {
    if b == [] {
      assert a + b == a;
    } else {
      MadeTogether(a, b[..|b| - 1]);
      assert (a + b)[..|a + b| - 1] == a + b[..|b| - 1];
    }
  }

  lemma {:induction false} MadeOfGots(fs: seq<Frame>)
    ensures Made(Gots(fs)) == 0
  {
    if fs != [] {
      assert Gots(fs)[..|fs| - 1] == Gots(fs[..|fs| - 1]);
      MadeOfGots(fs[..|fs| - 1]);
    }
  }

  lemma MadeOfOne(e: Event)
    ensures Made([e]) == (if e.Created? then 1 else 0) && Made([]) == 0
  {
    assert [e][..0] == [];
  }

  lemma ConfiguredMakes(input: Input)
    ensures Made(Configured(input).received) == Made(input.received) + 1
  {
    hide Made;
    var gots, ends := Gots(input.queue), if input.eof then [Ended] else [];
    MadeTogether(input.received + [Created] + gots, ends);
    MadeTogether(input.received + [Created], gots);
    MadeTogether(input.received, [Created]);
    MadeOfGots(input.queue);
    MadeOfOne(Created);
    MadeOfOne(Ended);
  }

  lemma OneMoreMakes(es: seq<Event>, e: Event)
    requires !e.Created?
    ensures Made(es + [e]) == Made(es)
  {
    hide Made;
    MadeTogether(es, [e]);
    MadeOfOne(e);
  }

  /** Every input knows the frames sent to it, and the graph is configured once all have had one. */
  ghost predicate AllCurrent(g: Graph, media: seq<Media>, sent: seq<seq<Frame>>) {
    && |g.inputs| == |media| == |sent|
    && (forall i :: 0 <= i < |media| ==> Current(g.inputs[i], media[i], sent[i]))
    && (g.configured <==> |media| > 0 && forall i :: 0 <= i < |media| ==> sent[i] != [])
  }

  /** All inputs get a new buffer source, or none does. */
  ghost predicate Makes(g: Graph, g': Graph, rebuilt: bool) {
    && |g'.inputs| == |g.inputs|
    && forall i :: 0 <= i < |g.inputs| ==>
         Made(g'.inputs[i].received) == Made(g.inputs[i].received) + if rebuilt then 1 else 0
  }

  /** The graph is made anew for a frame: all inputs have had one by then, and it is the first one of its
      input or differs in what matters from the one before. */
  ghost predicate Rebuilds(media: seq<Media>, sent: seq<seq<Frame>>, i: nat, f: Frame)
    requires i < |media| == |sent|
  {
    && (forall j :: 0 <= j < |sent| && j != i ==> sent[j] != [])
    && (sent[i] == []
        || Relevant(media[i], sent[i][|sent[i]| - 1].params) != Relevant(media[i], f.params))
  }

  lemma ReinitIffChanged(input: Input, media: Media, sent: seq<Frame>, f: Frame)
    requires Current(input, media, sent)
    ensures NeedReinit(input.media, input.params, f.params) <==>
      sent == [] || Relevant(media, sent[|sent| - 1].params) != Relevant(media, f.params)
    ensures Current(if NeedReinit(input.media, input.params, f.params) then input.(params := Some(f.params)) else input,
                    media, sent + [f])
  {
  }

  lemma ConfiguredKeepsParams(inputs: seq<Input>, g: Graph)
    requires g.inputs == inputs
    ensures forall k :: 0 <= k < |inputs| ==>
      AllConfigured(inputs)[k].media == inputs[k].media && AllConfigured(inputs)[k].params == inputs[k].params
      && Made(AllConfigured(inputs)[k].received) == Made(inputs[k].received) + 1
  {
    hide Made;
    forall k | 0 <= k < |inputs|
      ensures Made(AllConfigured(inputs)[k].received) == Made(inputs[k].received) + 1
    {
      ConfiguredMakes(inputs[k]);
    }
  }

  /** The inputs as a frame finds them once the parameters are taken over. */
  function Updated(g: Graph, i: nat, f: Frame): seq<Input>
    requires i < |g.inputs|
  {
    if NeedReinit(g.inputs[i].media, g.inputs[i].params, f.params)
    then g.inputs[i := g.inputs[i].(params := Some(f.params))] else g.inputs
  }

  /** What a frame changes but the events and the waiting frames. */
  lemma SentParams(g: Graph, i: nat, f: Frame)
    requires i < |g.inputs|
    ensures var r, inputs := Sent(g, i, f), Updated(g, i, f);
      && |r.inputs| == |inputs|
      && (forall k :: 0 <= k < |inputs| ==>
            r.inputs[k].media == inputs[k].media && r.inputs[k].params == inputs[k].params)
      && (r.configured <==> g.configured || !Waiting(inputs))
  {
    hide NeedReinit, Configured;
    ConfiguredKeepsParams(Updated(g, i, f), g.(inputs := Updated(g, i, f)));
  }

  /** No input is waited for, if all have been sent a frame. */
  lemma WaitingIffUnsent(g: Graph, media: seq<Media>, sent: seq<seq<Frame>>, i: nat, f: Frame)
    requires AllCurrent(g, media, sent) && i < |media|
    ensures Waiting(Updated(g, i, f)) <==> exists j :: 0 <= j < |sent| && j != i && sent[j] == []
  {
    hide Relevant, NeedReinit;
    KnownAfter(g.inputs[i], f.params);
    var inputs := Updated(g, i, f);
    assert forall j :: 0 <= j < |inputs| ==> (inputs[j].params.None? <==> j != i && sent[j] == []);
  }

  lemma SendIsCurrent(g: Graph, media: seq<Media>, sent: seq<seq<Frame>>, i: nat, f: Frame)
    requires AllCurrent(g, media, sent) && i < |media|
    ensures AllCurrent(Sent(g, i, f), media, sent[i := sent[i] + [f]])
  {
    hide Sent, Waiting, NeedReinit, Relevant;
    SentParams(g, i, f);
    WaitingIffUnsent(g, media, sent, i, f);
    ReinitIffChanged(g.inputs[i], media[i], sent[i], f);
  }

  /** A buffer source for every input, unless the graph stays or some input is waited for. */
  lemma SendMakes(g: Graph, i: nat, f: Frame)
    requires i < |g.inputs|
    ensures var need := NeedReinit(g.inputs[i].media, g.inputs[i].params, f.params);
      Makes(g, Sent(g, i, f), (need || !g.configured) && !Waiting(Updated(g, i, f)))
  {
    hide Made, NeedReinit, Waiting, Configured;
    var inputs := Updated(g, i, f);
    ConfiguredKeepsParams(inputs, g.(inputs := inputs));
    OneMoreMakes(g.inputs[i].received, Got(f));
    OneMoreMakes(AllConfigured(inputs)[i].received, Got(f));
  }

  lemma SendRebuilds(g: Graph, media: seq<Media>, sent: seq<seq<Frame>>, i: nat, f: Frame)
    requires AllCurrent(g, media, sent) && i < |media|
    ensures Makes(g, Sent(g, i, f), Rebuilds(media, sent, i, f))
  {
    hide Sent, Waiting, NeedReinit, Relevant, Makes, Updated;
    SendMakes(g, i, f);
    WaitingIffUnsent(g, media, sent, i, f);
    ReinitIffChanged(g.inputs[i], media[i], sent[i], f);
  }

  lemma EofMakes(g: Graph, media: seq<Media>, sent: seq<seq<Frame>>, i: nat)
    requires AllCurrent(g, media, sent) && i < |media|
    ensures Makes(g, EofSent(g, i), false) && AllCurrent(EofSent(g, i), media, sent)
  {
    hide Made, Relevant;
    OneMoreMakes(g.inputs[i].received, Ended);
  }

  /** What was sent to every input in the first k steps. */
  function AllSent(actions: seq<Action>, n: nat, k: nat): (r: seq<seq<Frame>>)
    requires k <= |actions|
    ensures |r| == n && forall i :: 0 <= i < n ==> r[i] == SentTo(actions, i, k)
  {
    seq(n, i requires 0 <= i < n => SentTo(actions, i, k))
  }

  lemma OneMoreSent(actions: seq<Action>, n: nat, k: nat)
    requires k < |actions| && actions[k].i < n
    ensures var all, i := AllSent(actions, n, k), actions[k].i;
      AllSent(actions, n, k + 1) == match actions[k] case Send(_, f) => all[i := all[i] + [f]] case Eof(_) => all
  {
    var all, more, i := AllSent(actions, n, k), AllSent(actions, n, k + 1), actions[k].i;
    forall j | 0 <= j < n ensures more[j] == if j == i then all[j] + FramesFor(actions[k]) else all[j] {
      assert all[j] + [] == all[j];
    }
    assert all[i] + [] == all[i];
    assert more == all[i := all[i] + FramesFor(actions[k])];
  }

  lemma StartIsCurrent(media: seq<Media>, actions: seq<Action>)
    ensures AllCurrent(Start(media), media, AllSent(actions, |media|, 0))
  {
    if |media| > 0 {
      assert AllSent(actions, |media|, 0)[0] == [];
    }
  }

  lemma StepIsCurrent(g: Graph, media: seq<Media>, actions: seq<Action>, k: nat)
    requires k < |actions| && Enabled(g, actions[k]) && AllCurrent(g, media, AllSent(actions, |media|, k))
    ensures AllCurrent(Step(g, actions[k]), media, AllSent(actions, |media|, k + 1))
  {
    hide AllCurrent, Sent, EofSent, Makes, AllSent;
    var sent := AllSent(actions, |media|, k);
    SameInputs(g, media, sent);
    OneMoreSent(actions, |media|, k);
    match actions[k]
    case Send(i, f) => SendIsCurrent(g, media, sent, i, f);
    case Eof(i) => EofMakes(g, media, sent, i);
  }

  lemma {:induction false} RunIsCurrent(media: seq<Media>, states: seq<Graph>, actions: seq<Action>, k: nat)
    requires IsRun(media, states, actions) && k <= |actions|
    ensures AllCurrent(states[k], media, AllSent(actions, |media|, k))
  {
    hide AllCurrent, Step, Enabled, AllSent, Start;
    if k == 0 {
      StartIsCurrent(media, actions);
    } else {
      RunIsCurrent(media, states, actions, k - 1);
      assert Enabled(states[k - 1], actions[k - 1]) && states[k - 1 + 1] == Step(states[k - 1], actions[k - 1]);
      StepIsCurrent(states[k - 1], media, actions, k - 1);
    }
  }

  lemma SameInputs(g: Graph, media: seq<Media>, sent: seq<seq<Frame>>)
    requires AllCurrent(g, media, sent)
    ensures |g.inputs| == |media|
  {
  }

  /** In every run, a step makes new buffer sources for all inputs if and only if it sends a frame, every
      other input has had one, and it is the first of its input or differs in what matters from the last
      one; else no input gets a new one. */
  lemma RebuiltIffChanged(media: seq<Media>, states: seq<Graph>, actions: seq<Action>, k: nat)
    requires IsRun(media, states, actions) && k < |actions|
    ensures actions[k].i < |media|
    ensures Makes(states[k], states[k + 1],
                  actions[k].Send? && Rebuilds(media, AllSent(actions, |media|, k), actions[k].i, actions[k].f))
  {
    hide AllCurrent, Makes, Rebuilds, Sent, EofSent;
    RunIsCurrent(media, states, actions, k);
    var a, sent := actions[k], AllSent(actions, |media|, k);
    assert Enabled(states[k], a) && states[k + 1] == Step(states[k], a);
    SameInputs(states[k], media, sent);
    match a
    case Send(i, f) => SendRebuilds(states[k], media, sent, i, f);
    case Eof(i) => EofMakes(states[k], media, sent, i);
  }

  // ---------- the graph in place ----------

  class FilterGraph {
    const inputs: array<Input>
    var configured: bool
    var finished: bool

    constructor (media: seq<Media>)
      ensures fresh(inputs) && View() == Start(media)
    {
      inputs := new Input[|media|](k requires 0 <= k < |media| => Input(media[k], None, [], false, []));
      configured, finished := false, false;
      new;
      assert inputs[..] == Start(media).inputs;
    }

    ghost function View(): Graph
      reads this, inputs
    {
      Graph(inputs[..], configured, finished)
    }

    /** av_buffersrc_add_frame. */
    method AddFrame(i: nat, e: Event)
      requires i < inputs.Length
      modifies inputs
      ensures inputs[..] == old(inputs[..])[i := old(inputs[i]).(received := old(inputs[i].received) + [e])]
    {
      inputs[i] := inputs[i].(received := inputs[i].received + [e]);
    }

    /** Gives the frames that wait for input i to its buffer source. */
    method DrainQueue(i: nat)
      requires i < inputs.Length
      modifies inputs
      ensures inputs[..] == old(inputs[..])[i :=
        old(inputs[i]).(received := old(inputs[i].received) + Gots(old(inputs[i].queue)), queue := [])]
    {
      ghost var before, input, n := inputs[..], inputs[i], 0;
      PartlyDrained(input, 0);
      while inputs[i].queue != []
        invariant n <= |input.queue| && inputs[..] == before[i := Partly(input, n)]
        decreases |inputs[i].queue|
      {
        PartlyDrained(input, n);
        var tmp := inputs[i].queue[0];
        inputs[i] := inputs[i].(queue := inputs[i].queue[1..]);
        AddFrame(i, Got(tmp));
        n := n + 1;
      }
      PartlyDrained(input, n);
    }

    /** configure_filtergraph: new buffer sources for all inputs, then the waiting frames of
        all inputs, then the ends. */
    method ConfigureFiltergraph()
      modifies this, inputs
      ensures inputs[..] == AllConfigured(old(inputs[..])) && configured && finished == old(finished)
    {
      ghost var before := inputs[..];
      configured := true;
      for i := 0 to inputs.Length
        modifies inputs
        invariant forall k :: 0 <= k < inputs.Length ==> inputs[k] == if k < i then Renewed(before[k]) else before[k]
      {
        AddFrame(i, Created);
      }
      for i := 0 to inputs.Length
        modifies inputs
        invariant forall k :: 0 <= k < inputs.Length ==>
          inputs[k] == if k < i then Emptied(before[k]) else Renewed(before[k])
      {
        DrainQueue(i);
      }
      for i := 0 to inputs.Length
        modifies inputs
        invariant forall k :: 0 <= k < inputs.Length ==>
          inputs[k] == if k < i then Configured(before[k]) else Emptied(before[k])
      {
        EmptiedThenEnded(before[i]);
        if inputs[i].eof {
          AddFrame(i, Ended);
        }
      }
    }

    /** Whether the format of some input is not known yet. */
    method IsWaiting() returns (waiting: bool)
      ensures waiting == Waiting(inputs[..])
    {
      for i := 0 to inputs.Length
        invariant forall j :: 0 <= j < i ==> inputs[j].params.Some?
      {
        if inputs[i].params.None? {
          assert inputs[..][i].params.None?;
          return true;
        }
      }
      return false;
    }

    /** ifilter_send_frame. */
    method IfilterSendFrame(i: nat, frame: Frame)
      requires i < inputs.Length
      modifies this, inputs
      ensures View() == Sent(old(View()), i, frame)
    {
      hide Waiting, NeedReinit;
      var needReinit := NeedReinit(inputs[i].media, inputs[i].params, frame.params);
      if needReinit {
        inputs[i] := inputs[i].(params := Some(frame.params));
      }
      if needReinit || !configured {
        var waiting := IsWaiting();
        if waiting {
          inputs[i] := inputs[i].(queue := inputs[i].queue + [frame]);
          return;
        }
        ConfigureFiltergraph();
      }
      AddFrame(i, Got(frame));
    }

    /** ifilter_send_eof. */
    method IfilterSendEof(i: nat)
      requires i < inputs.Length
      modifies this, inputs
      ensures View() == EofSent(old(View()), i)
    {
      inputs[i] := inputs[i].(eof := true);
      if configured {
        AddFrame(i, Ended);
      } else {
        var j := 0;
        while j < inputs.Length && inputs[j].eof
          invariant j <= inputs.Length && forall k :: 0 <= k < j ==> inputs[k].eof
        {
          j := j + 1;
        }
        if j == inputs.Length {
          finished := true;
        }
      }
    }
  }

  /** The input when n of its waiting frames have been given to the buffer source. */
  function Partly(input: Input, n: nat): Input
    requires n <= |input.queue|
  {
    input.(received := input.received + Gots(input.queue[..n]), queue := input.queue[n..])
  }

  lemma PartlyDrained(input: Input, n: nat)
    requires n <= |input.queue|
    ensures Partly(input, 0) == input
    ensures n == |input.queue| ==> Partly(input, n)
                                   == input.(received := input.received + Gots(input.queue), queue := [])
    ensures var p := Partly(input, n);
      n < |input.queue| ==>
        p.queue != [] && Partly(input, n + 1) == p.(queue := p.queue[1..], received := p.received + [Got(p.queue[0])])
  {
    var q := input.queue;
    assert q[..0] == [] && q[0..] == q && q[..|q|] == q;
    if n < |q| {
      assert Gots(q[..n + 1]) == Gots(q[..n]) + [Got(q[n])];
    }
  }

  function Renewed(input: Input): Input {
    input.(received := input.received + [Created])
  }

  function Emptied(input: Input): Input {
    input.(received := input.received + [Created] + Gots(input.queue), queue := [])
  }

  lemma EmptiedThenEnded(input: Input)
    ensures Configured(input)
         == if input.eof then Emptied(input).(received := Emptied(input).received + [Ended]) else Emptied(input)
  {
  }
}
