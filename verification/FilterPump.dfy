/** The chain of bitstream filters between an encoder and the muxer (output_packet of
    avtools/avconv.c). A filter is any function from its state and an input, or the end of the
    stream, to finitely many outputs. */
module FilterPump {
  import opened Wrappers

  /** A filter's reaction to an input (None for the end of the stream): its outputs in order,
      where None stands for a failure, and its next state. */
  type Step<!S, !P> = (S, Option<P>) -> (seq<Option<P>>, S)

  /** A filter context: state, outputs not yet received, whether the end of the stream was sent
      to it, and whether it has reported the end of its own output. */
  datatype Filter<S, P> = Filter(state: S, pending: seq<Option<P>>, eof: bool, ended: bool)

  /** av_bsf_send_packet on a filter that accepts the input. */
  function Sent<S, P>(step: Step<S, P>, f: Filter<S, P>, input: Option<P>): (r: Filter<S, P>)
    ensures r.eof == (f.eof || input.None?) && r.ended == f.ended
  {
    var (outs, next) := step(f.state, input);
    Filter(next, f.pending + outs, f.eof || input.None?, f.ended)
  }

  /** Nothing is waiting in the filter, not even its end of stream. */
  predicate Drained<S, P>(f: Filter<S, P>) {
    f.pending == [] && f.eof == f.ended
  }

  // ---------- how long the pump runs ----------

  /** Filters and how many rounds of the pump it took to get there. */
  datatype Run<S, P> = Run(filters: seq<Filter<S, P>>, rounds: nat)

  /** Empties filter k and all after it, packet by packet. */
  ghost function Drain<S, P>(steps: seq<Step<S, P>>, fs: seq<Filter<S, P>>, k: nat): (r: Run<S, P>)
    requires k < |fs| == |steps|
    ensures |r.filters| == |fs| && r.rounds > 0 && forall i :: 0 <= i < k ==> r.filters[i] == fs[i]
    decreases |fs| - k, |fs[k].pending|
  {
    var f := fs[k];
    if f.pending != [] then
      var rest := fs[k := f.(pending := f.pending[1..])];
      var below := if f.pending[0].Some? && k + 1 < |fs|
                   then Drain(steps, rest[k + 1 := Sent(steps[k + 1], rest[k + 1], f.pending[0])], k + 1)
                   else Run(rest, 0);
      assert below.filters[k] == rest[k];
      var after := Drain(steps, below.filters, k);
      Run(after.filters, 1 + below.rounds + after.rounds)
    else if f.eof && !f.ended then
      var rest := fs[k := f.(ended := true)];
      var below := if k + 1 < |fs| then Drain(steps, rest[k + 1 := Sent(steps[k + 1], rest[k + 1], None)], k + 1)
                   else Run(rest, 0);
      Run(below.filters, 2 + below.rounds)
    else Run(fs, 1)
  }

  /** Rounds until every filter before idx has asked for more input. */
  ghost function Rounds<S, P>(steps: seq<Step<S, P>>, fs: seq<Filter<S, P>>, idx: nat): nat
    requires idx <= |fs| == |steps|
    decreases idx
  {
    if idx == 0 then 0
    else
      var r := Drain(steps, fs, idx - 1);
      r.rounds + Rounds(steps, r.filters, idx - 1)
  }

  lemma PacketSent<S, P>(steps: seq<Step<S, P>>, fs: seq<Filter<S, P>>, idx: nat)
    requires 0 < idx < |fs| == |steps| && fs[idx - 1].pending != [] && fs[idx - 1].pending[0].Some?
    ensures var f := fs[idx - 1];
      var rest := fs[idx - 1 := f.(pending := f.pending[1..])];
      Rounds(steps, rest[idx := Sent(steps[idx], rest[idx], f.pending[0])], idx + 1) < Rounds(steps, fs, idx)
  {
  }

  lemma EndSent<S, P>(steps: seq<Step<S, P>>, fs: seq<Filter<S, P>>, idx: nat)
    requires 0 < idx < |fs| == |steps| && fs[idx - 1].pending == [] && fs[idx - 1].eof && !fs[idx - 1].ended
    ensures var rest := fs[idx - 1 := fs[idx - 1].(ended := true)];
      Rounds(steps, rest[idx := Sent(steps[idx], rest[idx], None)], idx + 1) < Rounds(steps, fs, idx)
  {
    var rest := fs[idx - 1 := fs[idx - 1].(ended := true)];
    var next := rest[idx := Sent(steps[idx], rest[idx], None)];
    var below := Drain(steps, next, idx);
    assert below.filters[idx - 1] == rest[idx - 1];
    assert Drain(steps, below.filters, idx - 1) == Run(below.filters, 1);
  }

  lemma PacketMuxed<S, P>(steps: seq<Step<S, P>>, fs: seq<Filter<S, P>>)
    requires 0 < |fs| == |steps| && fs[|fs| - 1].pending != []
    ensures var f := fs[|fs| - 1];
      Rounds(steps, fs[|fs| - 1 := f.(pending := f.pending[1..])], |fs|) < Rounds(steps, fs, |fs|)
  {
  }

  lemma MoreWanted<S, P>(steps: seq<Step<S, P>>, fs: seq<Filter<S, P>>, idx: nat)
    requires 0 < idx <= |fs| == |steps| && Drained(fs[idx - 1])
    ensures Rounds(steps, fs, idx - 1) < Rounds(steps, fs, idx)
  {
    assert Drain(steps, fs, idx - 1) == Run(fs, 1);
  }

  // ---------- what a filter makes of its whole input ----------

  /** Inputs of a filter so far: packets, then perhaps the end of the stream. */
  function Inputs<P>(ps: seq<P>, eof: bool): (r: seq<Option<P>>) {
    Somes(ps) + if eof then [None] else []
  }

  function Somes<P>(ps: seq<P>): (r: seq<Option<P>>)
    ensures |r| == |ps| && forall i :: 0 <= i < |ps| ==> r[i] == Some(ps[i])
  {
    seq(|ps|, i requires 0 <= i < |ps| => Some(ps[i]))
  }

  function StateAfter<S, P>(step: Step<S, P>, s: S, ins: seq<Option<P>>): S {
    if ins == [] then s else step(StateAfter(step, s, ins[..|ins| - 1]), ins[|ins| - 1]).1
  }

  function Outputs<S, P>(step: Step<S, P>, s: S, ins: seq<Option<P>>): seq<Option<P>> {
    if ins == [] then []
    else Outputs(step, s, ins[..|ins| - 1]) + step(StateAfter(step, s, ins[..|ins| - 1]), ins[|ins| - 1]).0
  }

  lemma OneMoreInput<S, P>(step: Step<S, P>, s: S, ins: seq<Option<P>>, input: Option<P>)
    ensures StateAfter(step, s, ins + [input]) == step(StateAfter(step, s, ins), input).1
    ensures Outputs(step, s, ins + [input]) == Outputs(step, s, ins) + step(StateAfter(step, s, ins), input).0
  {
    assert (ins + [input])[..|ins|] == ins;
  }

  /** The first k filters applied to a stream one after the other, each to the whole output of
      the one before; None if one of them fails. */
  function Composed<S, P>(steps: seq<Step<S, P>>, init: seq<S>, source: seq<P>, eof: bool, k: nat): Option<seq<P>>
    requires k <= |steps| == |init|
  {
    if k == 0 then Some(source)
    else
      match Composed(steps, init, source, eof, k - 1)
      case None => None
      case Some(ps) => Packets(Outputs(steps[k - 1], init[k - 1], Inputs(ps, eof)))
  }

  /** The packets of an output without failure. */
  function Packets<P>(outs: seq<Option<P>>): (r: Option<seq<P>>)
  {
    if outs == [] then Some([])
    else
      match Packets(outs[..|outs| - 1])
      case None => None
      case Some(ps) => if outs[|outs| - 1].None? then None else Some(ps + [outs[|outs| - 1].value])
  }

  lemma {:induction false} PacketsOfSomes<P>(ps: seq<P>)
    ensures Packets(Somes(ps)) == Some(ps)
  {
    if ps != [] {
      var n := |ps| - 1;
      assert Somes(ps)[..n] == Somes(ps[..n]);
      PacketsOfSomes(ps[..n]);
      assert ps == ps[..n] + [ps[n]];
    }
  }

  // ---------- the pump ----------

  /** The filter is where its inputs have brought it, and has given out the first of its
      outputs. */
  ghost predicate FilterOk<S, P>(step: Step<S, P>, s0: S, f: Filter<S, P>, fed: seq<P>, taken: seq<P>) {
    var ins := Inputs(fed, f.eof);
    && f.state == StateAfter(step, s0, ins)
    && Somes(taken) + f.pending == Outputs(step, s0, ins)
    && (f.ended ==> f.eof && f.pending == [])
  }

  lemma FilterFed<S, P>(step: Step<S, P>, s0: S, f: Filter<S, P>, fed: seq<P>, taken: seq<P>, input: Option<P>)
    requires FilterOk(step, s0, f, fed, taken) && Drained(f) && !f.eof
    ensures FilterOk(step, s0, Sent(step, f, input), if input.Some? then fed + [input.value] else fed, taken)
  {
    OneMoreInput(step, s0, Inputs(fed, false), input);
    if input.Some? {
      assert Inputs(fed + [input.value], false) == Inputs(fed, false) + [input];
    } else {
      assert Inputs(fed, true) == Inputs(fed, false) + [input];
    }
  }

  lemma FilterTaken<S, P>(step: Step<S, P>, s0: S, f: Filter<S, P>, fed: seq<P>, taken: seq<P>)
    requires FilterOk(step, s0, f, fed, taken) && f.pending != [] && f.pending[0].Some?
    ensures FilterOk(step, s0, f.(pending := f.pending[1..]), fed, taken + [f.pending[0].value])
  {
    assert Somes(taken + [f.pending[0].value]) + f.pending[1..] == Somes(taken) + f.pending;
  }

  lemma FilterEnded<S, P>(step: Step<S, P>, s0: S, f: Filter<S, P>, fed: seq<P>, taken: seq<P>)
    requires FilterOk(step, s0, f, fed, taken) && f.pending == [] && f.eof
    ensures FilterOk(step, s0, f.(ended := true), fed, taken)
  {
  }

  datatype Received<P> = Packet(p: P) | Again | Eof | Failure

  /** Every filter k has been fed what link k carried and has given out what link k + 1
      carried; only filter k0 has given out these packets more, or its end. The end of the
      stream was sent to the first filters only, as many as reached says. */
  ghost predicate EveryOk<S, P>(steps: seq<Step<S, P>>, init: seq<S>, fs: seq<Filter<S, P>>, flow: seq<seq<P>>,
                                reached: nat, k0: nat, owed: seq<P>, end: bool) {
    && |steps| == |init| == |fs| && |flow| == |fs| + 1
    && forall k {:trigger fs[k]} :: 0 <= k < |fs| ==>
         && FilterOk(steps[k], init[k], fs[k], flow[k], if k == k0 then flow[k + 1] + owed else flow[k + 1])
         && fs[k].eof == (k < reached) && fs[k].ended == (k + 1 < reached || (k == k0 && end))
  }

  lemma AfterSending<S, P>(steps: seq<Step<S, P>>, init: seq<S>, fs: seq<Filter<S, P>>, flow: seq<seq<P>>, reached: nat,
                           k: nat, input: Option<P>)
    requires 0 < k < |fs| && EveryOk(steps, init, fs, flow, reached, k - 1,
                                       if input.Some? then [input.value] else [], input.None?)
    requires Drained(fs[k]) && !fs[k].eof && (input.None? ==> reached == k)
    ensures EveryOk(steps, init, fs[k := Sent(steps[k], fs[k], input)],
                    if input.Some? then flow[k := flow[k] + [input.value]] else flow,
                    if input.None? then k + 1 else reached, 0, [], false)
  {
    hide Outputs, StateAfter, Sent, FilterOk;
    FilterFed(steps[k], init[k], fs[k], flow[k], flow[k + 1], input);
    var fs' := fs[k := Sent(steps[k], fs[k], input)];
    var flow' := if input.Some? then flow[k := flow[k] + [input.value]] else flow;
    assert flow[k] + [] == flow[k] && flow'[1] + [] == flow'[1];
    forall j | 0 <= j < |fs| ensures FilterOk(steps[j], init[j], fs'[j], flow'[j], flow'[j + 1]) {
      assert FilterOk(steps[j], init[j], fs[j], flow[j],
                      if j == k - 1 then flow[j + 1] + (if input.Some? then [input.value] else []) else flow[j + 1]);
    }
    forall j | 0 <= j < |fs|
      ensures fs'[j].eof == (j < if input.None? then k + 1 else reached)
      ensures fs'[j].ended == (j + 1 < if input.None? then k + 1 else reached)
    {
      assert fs[j].eof == (j < reached);
    }
  }

  lemma AfterMuxing<S, P>(steps: seq<Step<S, P>>, init: seq<S>, fs: seq<Filter<S, P>>, flow: seq<seq<P>>, reached: nat,
                          p: P)
    requires |fs| > 0 && EveryOk(steps, init, fs, flow, reached, |fs| - 1, [p], false)
    ensures var n := |fs|; EveryOk(steps, init, fs, flow[n := flow[n] + [p]], reached, 0, [], false)
  {
    hide Outputs, StateAfter, FilterOk;
    var n := |fs|;
    var flow' := flow[n := flow[n] + [p]];
    forall j | 0 <= j < n
      ensures FilterOk(steps[j], init[j], fs[j], flow'[j], if j == 0 then flow'[j + 1] + [] else flow'[j + 1])
    {
      assert FilterOk(steps[j], init[j], fs[j], flow[j], if j == n - 1 then flow[j + 1] + [p] else flow[j + 1]);
      assert flow'[j + 1] + [] == flow'[j + 1];
    }
  }

  /** The end of the last filter's output is kept. */
  lemma AfterLastEnd<S, P>(steps: seq<Step<S, P>>, init: seq<S>, fs: seq<Filter<S, P>>, flow: seq<seq<P>>, reached: nat)
    requires |fs| > 0 && EveryOk(steps, init, fs, flow, reached, |fs| - 1, [], true) && reached == |fs|
    ensures EveryOk(steps, init, fs, flow, |fs| + 1, 0, [], false)
    ensures forall k :: 0 <= k < |fs| ==> Drained(fs[k]) && fs[k].ended
  {
    hide Outputs, StateAfter;
    assert flow[|fs|] + [] == flow[|fs|];
    assert flow[1] + [] == flow[1];
  }

  lemma AfterReceiving<S, P>(steps: seq<Step<S, P>>, init: seq<S>, fs: seq<Filter<S, P>>, flow: seq<seq<P>>,
                             reached: nat, k: nat)
    requires k < |fs| && EveryOk(steps, init, fs, flow, reached, 0, [], false)
    ensures var f := fs[k];
      if f.pending != [] && f.pending[0].Some? then
        EveryOk(steps, init, fs[k := f.(pending := f.pending[1..])], flow, reached, k, [f.pending[0].value], false)
      else if f.pending == [] && f.eof then
        EveryOk(steps, init, fs[k := f.(ended := true)], flow, reached, k, [], true)
      else true
  {
    hide Outputs, StateAfter, FilterOk;
    var f := fs[k];
    assert flow[1] + [] == flow[1] && flow[k + 1] + [] == flow[k + 1];
    assert FilterOk(steps[k], init[k], f, flow[k], flow[k + 1]);
    if f.pending != [] && f.pending[0].Some? {
      FilterTaken(steps[k], init[k], f, flow[k], flow[k + 1]);
    } else if f.pending == [] && f.eof {
      FilterEnded(steps[k], init[k], f, flow[k], flow[k + 1]);
    }
  }

  lemma AfterFeeding<S, P>(steps: seq<Step<S, P>>, init: seq<S>, fs: seq<Filter<S, P>>, flow: seq<seq<P>>,
                           input: Option<P>)
    requires |fs| > 0 && EveryOk(steps, init, fs, flow, 0, 0, [], false) && Drained(fs[0])
    ensures EveryOk(steps, init, fs[0 := Sent(steps[0], fs[0], input)],
                    if input.Some? then flow[0 := flow[0] + [input.value]] else flow,
                    if input.None? then 1 else 0, 0, [], false)
  {
    hide Outputs, StateAfter, Sent, FilterOk;
    assert flow[1] + [] == flow[1];
    FilterFed(steps[0], init[0], fs[0], flow[0], flow[1], input);
    var fs' := fs[0 := Sent(steps[0], fs[0], input)];
    var flow' := if input.Some? then flow[0 := flow[0] + [input.value]] else flow;
    forall j | 0 <= j < |fs| ensures FilterOk(steps[j], init[j], fs'[j], flow'[j], flow'[j + 1]) {
      assert FilterOk(steps[j], init[j], fs[j], flow[j], if j == 0 then flow[j + 1] + [] else flow[j + 1]);
    }
    assert flow'[1] + [] == flow'[1];
  }

  /** When all filters are drained, every link has carried the composition of the filters
      before it. */
  lemma {:induction false} FlowIsComposed<S, P>(steps: seq<Step<S, P>>, init: seq<S>, fs: seq<Filter<S, P>>,
                                               flow: seq<seq<P>>, reached: nat, k: nat)
    requires EveryOk(steps, init, fs, flow, reached, 0, [], false) && k <= |fs|
    requires (forall i :: 0 <= i < |fs| ==> Drained(fs[i])) && (reached == 0 || reached == |fs| + 1)
    ensures Composed(steps, init, flow[0], reached > 0, k) == Some(flow[k])
  {
    hide Outputs, EveryOk, Packets, Inputs, Drained;
    if k > 0 {
      FlowIsComposed(steps, init, fs, flow, reached, k - 1);
      DrainedLink(steps, init, fs, flow, reached, k - 1);
      PacketsOfSomes(flow[k]);
    } else {
      LinkCount(steps, init, fs, flow, reached);
    }
  }

  lemma LinkCount<S, P>(steps: seq<Step<S, P>>, init: seq<S>, fs: seq<Filter<S, P>>, flow: seq<seq<P>>, reached: nat)
    requires EveryOk(steps, init, fs, flow, reached, 0, [], false)
    ensures |steps| == |init| == |fs| && |flow| == |fs| + 1
  {
  }

  /** The link after a drained filter has carried all its outputs. */
  lemma DrainedLink<S, P>(steps: seq<Step<S, P>>, init: seq<S>, fs: seq<Filter<S, P>>, flow: seq<seq<P>>, reached: nat,
                          k: nat)
    requires EveryOk(steps, init, fs, flow, reached, 0, [], false) && k < |fs|
    requires Drained(fs[k]) && (reached == 0 || reached == |fs| + 1)
    ensures |steps| == |init| == |fs| && |flow| == |fs| + 1
    ensures Somes(flow[k + 1]) == Outputs(steps[k], init[k], Inputs(flow[k], reached > 0))
  {
    hide Outputs, StateAfter, Inputs, Somes;
    var f := fs[k];
    assert FilterOk(steps[k], init[k], f, flow[k], if k == 0 then flow[k + 1] + [] else flow[k + 1]);
    assert flow[k + 1] + [] == flow[k + 1];
    assert Somes(flow[k + 1]) + f.pending == Somes(flow[k + 1]);
  }

  /** Among the outputs of filter k for what it has been fed, there is a failure. */
  ghost predicate FilterFails<S, P>(steps: seq<Step<S, P>>, init: seq<S>, fs: seq<Filter<S, P>>, flow: seq<seq<P>>,
                                    k: nat) {
    && k < |steps| == |init| == |fs| && |flow| == |fs| + 1
    && None in Outputs(steps[k], init[k], Inputs(flow[k], fs[k].eof))
  }

  /** A failure that is received is one of the filter's outputs. */
  lemma FailureIsOutput<S, P>(steps: seq<Step<S, P>>, init: seq<S>, fs: seq<Filter<S, P>>, flow: seq<seq<P>>,
                              reached: nat, k: nat)
    requires k < |fs| && EveryOk(steps, init, fs, flow, reached, 0, [], false)
    requires fs[k].pending != [] && fs[k].pending[0].None?
    ensures FilterFails(steps, init, fs[k := fs[k].(pending := fs[k].pending[1..])], flow, k)
  {
    hide Outputs, StateAfter;
    var f := fs[k];
    assert flow[1] + [] == flow[1];
    var taken := Somes(flow[k + 1]);
    assert taken + f.pending == Outputs(steps[k], init[k], Inputs(flow[k], f.eof));
    assert (taken + f.pending)[|taken|] == None;
  }

  lemma {:induction false} OutputsGrow<S, P>(step: Step<S, P>, s: S, ins: seq<Option<P>>, more: seq<Option<P>>)
    requires ins <= more
    ensures Outputs(step, s, ins) <= Outputs(step, s, more)
    decreases |more|
  {
    if |ins| < |more| {
      OutputsGrow(step, s, ins, more[..|more| - 1]);
    } else {
      assert ins == more;
    }
  }

  lemma {:induction false} PacketsAreSomes<P>(outs: seq<Option<P>>)
    ensures match Packets(outs) case Some(ps) => outs == Somes(ps) case None => None in outs
  {
    if outs != [] {
      var n := |outs| - 1;
      PacketsAreSomes(outs[..n]);
      assert outs == outs[..n] + [outs[n]];
    }
  }

  lemma SomesPrefix<P>(a: seq<P>, b: seq<P>)
    ensures Somes(a) <= Somes(b) ==> a <= b
  {
    if Somes(a) <= Somes(b) {
      forall i | 0 <= i < |a| ensures a[i] == b[i] {
        assert Somes(a)[i] == Somes(b)[i];
      }
    }
  }

  /** What a filter was fed is the first part of a stream, and all of it once the end was sent. */
  ghost predicate FedPart<P>(fed: seq<P>, fedEnd: bool, whole: seq<P>, eof: bool) {
    if fedEnd then fed == whole && eof else fed <= whole
  }

  lemma FedIsPrefix<P>(fed: seq<P>, fedEnd: bool, whole: seq<P>, eof: bool)
    requires FedPart(fed, fedEnd, whole, eof)
    ensures Inputs(fed, fedEnd) <= Inputs(whole, eof)
  {
    assert Somes(fed) <= Somes(whole);
  }

  /** However far the pump has come, what each link has carried is part of the composition. */
  lemma {:induction false} FlowIsPart<S, P>(steps: seq<Step<S, P>>, init: seq<S>, fs: seq<Filter<S, P>>,
                                           flow: seq<seq<P>>, reached: nat, k: nat)
    requires EveryOk(steps, init, fs, flow, reached, 0, [], false) && k < |fs|
    ensures match Composed(steps, init, flow[0], reached > 0, k)
            case None => true
            case Some(ps) => FedPart(flow[k], fs[k].eof, ps, reached > 0)
  {
    hide Outputs, StateAfter;
    if k > 0 {
      FlowIsPart(steps, init, fs, flow, reached, k - 1);
      assert flow[k] + [] == flow[k];
      match Composed(steps, init, flow[0], reached > 0, k - 1)
      case None =>
      case Some(ps) =>
        var f, eof := fs[k - 1], reached > 0;
        assert FilterOk(steps[k - 1], init[k - 1], f, flow[k - 1], flow[k]);
        PartGoesOn(steps[k - 1], init[k - 1], f, flow[k - 1], flow[k], ps, eof);
    }
  }

  lemma PartGoesOn<S, P>(step: Step<S, P>, s0: S, f: Filter<S, P>, fed: seq<P>, taken: seq<P>, ps: seq<P>, eof: bool)
    requires FilterOk(step, s0, f, fed, taken) && FedPart(fed, f.eof, ps, eof)
    ensures match Packets(Outputs(step, s0, Inputs(ps, eof)))
            case None => true
            case Some(qs) => FedPart(taken, f.ended, qs, eof)
  {
    hide Outputs, StateAfter;
    var all := Outputs(step, s0, Inputs(ps, eof));
    FedIsPrefix(fed, f.eof, ps, eof);
    OutputsGrow(step, s0, Inputs(fed, f.eof), Inputs(ps, eof));
    PacketsAreSomes(all);
    match Packets(all)
    case None =>
    case Some(qs) =>
      assert Somes(taken) <= Somes(taken) + f.pending <= Somes(qs);
      SomesPrefix(taken, qs);
      if f.ended {
        assert Somes(taken) + f.pending == Somes(taken);
        SomesPrefix(qs, taken);
      }
  }

  lemma {:induction false} FailedStays<S, P>(steps: seq<Step<S, P>>, init: seq<S>, source: seq<P>, eof: bool, k: nat,
                                            n: nat)
    requires k <= n <= |steps| == |init| && Composed(steps, init, source, eof, k) == None
    ensures Composed(steps, init, source, eof, n) == None
    decreases n
  {
    if k < n {
      FailedStays(steps, init, source, eof, k, n - 1);
    }
  }

  /** A failure that is received makes the whole composition fail. */
  lemma FailureIsComposed<S, P>(steps: seq<Step<S, P>>, init: seq<S>, fs: seq<Filter<S, P>>, flow: seq<seq<P>>,
                                reached: nat, k: nat)
    requires k < |fs| && EveryOk(steps, init, fs, flow, reached, 0, [], false)
    requires fs[k].pending != [] && fs[k].pending[0].None?
    ensures Composed(steps, init, flow[0], reached > 0, |steps|) == None
  {
    hide Outputs, StateAfter;
    FlowIsPart(steps, init, fs, flow, reached, k);
    assert flow[k + 1] + [] == flow[k + 1];
    match Composed(steps, init, flow[0], reached > 0, k)
    case None =>
      FailedStays(steps, init, flow[0], reached > 0, k, |steps|);
    case Some(ps) =>
      var f, eof := fs[k], reached > 0;
      assert FilterOk(steps[k], init[k], f, flow[k], flow[k + 1]);
      FailsOnWhole(steps[k], init[k], f, flow[k], flow[k + 1], ps, eof);
      assert Composed(steps, init, flow[0], eof, k + 1) == None;
      FailedStays(steps, init, flow[0], eof, k + 1, |steps|);
  }

  lemma FailsOnWhole<S, P>(step: Step<S, P>, s0: S, f: Filter<S, P>, fed: seq<P>, taken: seq<P>, ps: seq<P>, eof: bool)
    requires FilterOk(step, s0, f, fed, taken) && FedPart(fed, f.eof, ps, eof)
    requires f.pending != [] && f.pending[0].None?
    ensures Packets(Outputs(step, s0, Inputs(ps, eof))) == None
  {
    hide Outputs, StateAfter;
    var some, all := Outputs(step, s0, Inputs(fed, f.eof)), Outputs(step, s0, Inputs(ps, eof));
    FedIsPrefix(fed, f.eof, ps, eof);
    OutputsGrow(step, s0, Inputs(fed, f.eof), Inputs(ps, eof));
    PacketsAreSomes(all);
    assert some[|taken|] == None && all[|taken|] == None;
  }

  /** When all filters are drained, none of them has failed. */
  lemma DrainedHaveNotFailed<S, P>(steps: seq<Step<S, P>>, init: seq<S>, fs: seq<Filter<S, P>>, flow: seq<seq<P>>,
                                   reached: nat, k: nat)
    requires EveryOk(steps, init, fs, flow, reached, 0, [], false) && forall i :: 0 <= i < |fs| ==> Drained(fs[i])
    ensures !FilterFails(steps, init, fs, flow, k)
  {
    hide Outputs, StateAfter;
    if k < |fs| {
      var f := fs[k];
      assert flow[1] + [] == flow[1];
      assert Somes(flow[k + 1]) + f.pending == Somes(flow[k + 1]);
    }
  }

  /** A filter that never fails, whatever its state and input. */
  ghost predicate Infallible<S(!new), P(!new)>(step: Step<S, P>) {
    forall s: S, input: Option<P> :: None !in step(s, input).0
  }

  lemma {:induction false} InfallibleOutputs<S(!new), P(!new)>(step: Step<S, P>, s: S, ins: seq<Option<P>>)
    requires Infallible(step)
    ensures None !in Outputs(step, s, ins)
  {
    if ins != [] {
      InfallibleOutputs(step, s, ins[..|ins| - 1]);
    }
  }

  class OutputStream<S(!new), P(!new)> {
    const steps: seq<Step<S, P>>
    const init: seq<S>
    var filters: seq<Filter<S, P>>
    var muxed: seq<P>
    ghost var flow: seq<seq<P>> // what each link carried; the first is fed by the encoder
    ghost var reached: nat // how many filters the end of the stream was sent to

    /** Filters in their first states, with nothing sent yet. */
    constructor (steps: seq<Step<S, P>>, init: seq<S>)
      requires |steps| == |init|
      ensures this.steps == steps && this.init == init && Valid() && DrainedFrom(0) && reached == 0
      ensures muxed == [] && flow == seq(|steps| + 1, _ => [])
    {
      this.steps, this.init := steps, init;
      filters := seq(|init|, k requires 0 <= k < |init| => Filter(init[k], [], false, false));
      muxed, flow, reached := [], seq(|steps| + 1, _ => []), 0;
    }

    /** The links join the filters, and the last one ends at the muxer. */
    ghost predicate Valid()
      reads this
    {
      EveryOk(steps, init, filters, flow, reached, 0, [], false) && flow[|steps|] == muxed
    }

    /** Every filter from idx on is drained. */
    ghost predicate DrainedFrom(idx: nat)
      reads this
    {
      forall k :: idx <= k < |filters| ==> Drained(filters[k])
    }

    /** Some filter has failed on what it was fed. */
    ghost predicate SomeFails()
      reads this
    {
      exists k: nat :: FilterFails(steps, init, filters, flow, k)
    }

    /** The filters' composition fails on all that was sent. */
    ghost predicate FailsComposed(eof: bool)
      reads this
    {
      |steps| == |init| && |flow| > 0 && Composed(steps, init, flow[0], eof, |steps|) == None
    }

    lemma ComposedShape()
      requires EveryOk(steps, init, filters, flow, reached, 0, [], false)
      ensures |steps| == |init| == |filters| && |flow| == |steps| + 1
    {
    }

    /** av_bsf_receive_packet from filter k. */
    method ReceivePacket(k: nat) returns (r: Received<P>)
      requires k < |filters| && EveryOk(steps, init, filters, flow, reached, 0, [], false)
      modifies this`filters
      ensures var f := old(filters[k]);
        if f.pending != [] then
          filters == old(filters)[k := f.(pending := f.pending[1..])]
          && r == (if f.pending[0].Some? then Packet(f.pending[0].value) else Failure)
        else if f.eof then filters == old(filters)[k := f.(ended := true)] && r == Eof
        else filters == old(filters) && r == Again
      ensures match r
              case Packet(p) => EveryOk(steps, init, filters, flow, reached, k, [p], false)
              case Eof => EveryOk(steps, init, filters, flow, reached, k, [], true)
              case Again => EveryOk(steps, init, filters, flow, reached, 0, [], false)
              case Failure => SomeFails() && FailsComposed(reached > 0)
    {
      hide EveryOk, FilterFails, Composed;
      ComposedShape();
      if filters[k].pending != [] && filters[k].pending[0].None? {
        FailureIsComposed(steps, init, filters, flow, reached, k);
        FailureIsOutput(steps, init, filters, flow, reached, k);
      }
      AfterReceiving(steps, init, filters, flow, reached, k);
      var f := filters[k];
      if f.pending != [] {
        filters := filters[k := f.(pending := f.pending[1..])];
        assert f.pending[0].None? ==> FilterFails(steps, init, filters, flow, k);
        r := if f.pending[0].Some? then Packet(f.pending[0].value) else Failure;
      } else if f.eof {
        filters := filters[k := f.(ended := true)];
        r := Eof;
      } else {
        r := Again;
      }
    }

    /** av_bsf_send_packet to filter k of what filter k - 1 gave out. The filter is always
        drained, so it never has to refuse, and its end of stream was never sent before. */
    method SendPacket(k: nat, input: Option<P>)
      requires 0 < k < |filters| == |steps| && |flow| == |steps| + 1 && flow[|steps|] == muxed
      requires EveryOk(steps, init, filters, flow, reached, k - 1,
                       if input.Some? then [input.value] else [], input.None?)
      requires Drained(filters[k]) && !filters[k].eof && (input.None? ==> reached == k)
      modifies this`filters, this`flow, this`reached
      ensures filters == old(filters)[k := Sent(steps[k], old(filters[k]), input)]
      ensures |flow| == |old(flow)| && flow[0] == old(flow[0]) && Valid()
      ensures reached == if input.None? then k + 1 else old(reached)
    {
      hide EveryOk;
      AfterSending(steps, init, filters, flow, reached, k, input);
      filters := filters[k := Sent(steps[k], filters[k], input)];
      if input.Some? {
        flow := flow[k := flow[k] + [input.value]];
      } else {
        reached := k + 1;
      }
    }

    /** Hands a packet of the last filter to the muxer. */
    method Mux(p: P)
      requires 0 < |filters| == |steps| && |flow| == |steps| + 1 && flow[|steps|] == muxed
      requires EveryOk(steps, init, filters, flow, reached, |filters| - 1, [p], false)
      modifies this`muxed, this`flow
      ensures muxed == old(muxed) + [p] && |flow| == |old(flow)| && flow[0] == old(flow[0]) && Valid()
    {
      hide EveryOk;
      AfterMuxing(steps, init, filters, flow, reached, p);
      muxed := muxed + [p];
      flow := flow[|steps| := flow[|steps|] + [p]];
    }

    lemma ValidFacts(k: nat)
      requires Valid() && k < |filters|
      ensures |steps| == |filters| && |flow| == |steps| + 1
      ensures filters[k].eof == (k < reached) && filters[k].ended == (k + 1 < reached)
    {
    }

    /** One round: the filter before idx is asked for output, which goes to filter idx or to
        the muxer. The end of the stream has come no further than filter idx. */
    method Round(idx: nat) returns (next: nat, ok: bool, done: bool)
      requires Valid() && 0 < idx <= |filters| && DrainedFrom(idx) && reached <= idx
      modifies this`filters, this`flow, this`reached, this`muxed
      ensures |flow| == |old(flow)| && flow[0] == old(flow[0]) && |filters| == |old(filters)|
      ensures ok ==> Valid() && next <= |filters| && DrainedFrom(next) && (old(reached) > 0 <==> reached > 0)
      ensures ok && !done ==> reached <= next
      ensures ok && !done ==> Rounds(steps, filters, next) < old(Rounds(steps, filters, idx))
      ensures ok && done ==> DrainedFrom(0) && reached == |filters| + 1
      ensures !ok ==> SomeFails() && FailsComposed(old(reached) > 0)
    {
      hide EveryOk, Rounds, Sent, FilterFails, Composed;
      next, ok, done := idx, true, false;
      ghost var fs := filters;
      ValidFacts(idx - 1);
      if idx < |steps| {
        ValidFacts(idx);
      }
      var r := ReceivePacket(idx - 1);
      match r
      case Failure =>
        ok := false;
      case Again =>
        MoreWanted(steps, fs, idx);
        next := idx - 1;
      case Packet(p) =>
        if idx < |steps| {
          PacketSent(steps, fs, idx);
          SendPacket(idx, Some(p));
          next := idx + 1;
        } else {
          PacketMuxed(steps, fs);
          Mux(p);
        }
      case Eof =>
        if idx < |steps| {
          EndSent(steps, fs, idx);
          SendPacket(idx, None);
          next := idx + 1;
        } else {
          AfterLastEnd(steps, init, filters, flow, reached);
          reached := |filters| + 1;
          done := true;
          next := 0;
        }
    }

    /** output_packet: a packet, or the end of the stream, goes through all filters. It is given
        up exactly when the filters' composition fails on all that the encoder has sent. Otherwise
        the muxer has then received just what the composition gives, and the end of the stream has
        reached every filter. */
    method OutputPacket(pkt: P, eof: bool) returns (ok: bool)
      requires Valid() && DrainedFrom(0) && reached == 0
      modifies this
      ensures |flow| == |steps| + 1 && |steps| == |init|
      ensures flow[0] == old(flow[0]) + if eof then [] else [pkt]
      ensures ok <==> Composed(steps, init, flow[0], eof, |steps|).Some?
      ensures ok ==> Valid() && DrainedFrom(0)
      ensures ok ==> reached == if eof && |steps| > 0 then |steps| + 1 else 0
      ensures ok ==> Composed(steps, init, flow[0], eof, |steps|) == Some(muxed)
      ensures ok <==> !SomeFails()
      ensures (forall k :: 0 <= k < |steps| ==> Infallible(steps[k])) ==> ok
    {
      hide EveryOk, Rounds, Sent, Composed, Infallible, FilterFails;
      ok := true;
      ValidShape();
      if |steps| == 0 {
        if !eof {
          muxed := muxed + [pkt];
          flow := [muxed];
        }
        NoFilters();
        return;
      }
      var input := if eof then None else Some(pkt);
      AfterFeeding(steps, init, filters, flow, input);
      filters := filters[0 := Sent(steps[0], filters[0], input)];
      if eof {
        reached := 1;
      } else {
        flow := flow[0 := flow[0] + [pkt]];
      }
      ghost var start, sent := flow[0], reached;
      var idx: nat, done: bool := 1, false;
      while idx != 0 && !done
        invariant |flow| == |steps| + 1 && flow[0] == start && |filters| == |steps|
        invariant Valid() && idx <= |filters|
        invariant (sent > 0 <==> eof) && |steps| == |init|
        invariant !done ==> DrainedFrom(idx) && reached <= idx && (reached > 0 <==> sent > 0)
        invariant done ==> DrainedFrom(0) && reached == |filters| + 1 && sent > 0
        decreases !done, if done then 0 else Rounds(steps, filters, idx)
      {
        idx, ok, done := Round(idx);
        if !ok {
          SomeFallible();
          return;
        }
      }
      FlowIsComposed(steps, init, filters, flow, reached, |steps|);
      forall k: nat ensures !FilterFails(steps, init, filters, flow, k) {
        DrainedHaveNotFailed(steps, init, filters, flow, reached, k);
      }
    }

    /** Then not all filters are infallible. */
    lemma SomeFallible()
      requires SomeFails()
      ensures exists k :: 0 <= k < |steps| && !Infallible(steps[k])
    {
      hide Infallible;
      var k: nat :| FilterFails(steps, init, filters, flow, k);
      if Infallible(steps[k]) {
        InfallibleOutputs(steps[k], init[k], Inputs(flow[k], filters[k].eof));
      }
    }

    lemma ValidShape()
      requires Valid()
      ensures |steps| == |filters| && |flow| == |steps| + 1 && |init| == |steps|
    {
    }

    lemma NoFilters()
      requires |steps| == |init| == |filters| == 0 && |flow| == 1 && flow[0] == muxed
      ensures Valid() && !SomeFails() && forall eof :: Composed(steps, init, flow[0], eof, 0) == Some(muxed)
    {
    }
  }
}
