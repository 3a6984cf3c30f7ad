/** The queues in front of a muxer that has not written its header yet, and the packets' way to
    the muxer (write_packet and check_init_output_file of avtools/avconv.c). */
module MuxQueue {
  import opened Wrappers

  /** A packet: its payload and its time stamps, if it has any. */
  datatype Packet = Packet(data: int, dts: Option<int>, pts: Option<int>)

  /** What write_packet keeps for a stream. Packets are counted against maxFrames unless they
      are encoded video; times are rescaled to the stream's time base. */
  datatype Mux = Mux(counted: bool, maxFrames: nat, rescale: int -> int, frameNumber: nat, lastDts: Option<int>,
                     written: seq<Packet>)

  /** An output stream with the queue of packets that wait for the header. */
  datatype Stream = Stream(mux: Mux, maxQueue: nat, initialized: bool, queue: seq<Packet>, capacity: nat)

  /** What the container format asks for, and whether errors end the program. */
  datatype Format = Format(timestamps: bool, strict: bool, exitOnError: bool)

  /** What the muxer is given. */
  datatype Event = Header | Written(i: nat, p: Packet)

  datatype File = File(format: Format, streams: seq<Stream>, headerWritten: bool, log: seq<Event>)

  /** The program goes on, or has been ended. */
  datatype Outcome<T> = Running(value: T) | Exited

  // ---------- one packet on its way to the muxer ----------

  function Rescaled(p: Packet, rescale: int -> int): Packet {
    p.(dts := if p.dts.Some? then Some(rescale(p.dts.value)) else None,
       pts := if p.pts.Some? then Some(rescale(p.pts.value)) else None)
  }

  /** The time stamp does not follow the one before it; a missing one never does. */
  predicate Backwards(format: Format, last: Option<int>, dts: Option<int>) {
    format.timestamps && last.Some? && (dts.None? || dts.value < last.value + if format.strict then 1 else 0)
  }

  /** Such a time stamp is replaced by the next one that follows. */
  function Corrected(format: Format, last: Option<int>, p: Packet): Packet {
    if Backwards(format, last, p.dts) then
      var dts := last.value + 1;
      p.(dts := Some(dts), pts := if p.pts.Some? then Some(if p.pts.value > dts then p.pts.value else dts) else None)
    else p
  }

  /** The packet is over the limit of the stream. */
  predicate OverLimit(m: Mux) {
    m.counted && m.frameNumber >= m.maxFrames
  }

  /** write_packet once the header is written. */
  function Muxed(format: Format, m: Mux, p: Packet): Outcome<Mux> {
    if OverLimit(m) then Running(m)
    else
      var q := Rescaled(p, m.rescale);
      if Backwards(format, m.lastDts, q.dts) && format.exitOnError then Exited
      else
        var r := Corrected(format, m.lastDts, q);
        Running(m.(frameNumber := if m.counted then m.frameNumber + 1 else m.frameNumber,
                    lastDts := r.dts, written := m.written + [r]))
  }

  /** The first k packets of a list, one after the other. */
  function AllMuxed(format: Format, m: Mux, ps: seq<Packet>, k: nat): Outcome<Mux>
    requires k <= |ps|
  {
    if k == 0 then Running(m)
    else
      match AllMuxed(format, m, ps, k - 1)
      case Exited => Exited
      case Running(before) => Muxed(format, before, ps[k - 1])
  }

  /** write_packet before the header: the queue grows up to its limit. */
  function Buffered(st: Stream, p: Packet): Outcome<Stream> {
    if |st.queue| < st.capacity then Running(st.(queue := st.queue + [p]))
    else
      var size := if 2 * |st.queue| < st.maxQueue then 2 * |st.queue| else st.maxQueue;
      if size <= |st.queue| then Exited else Running(st.(queue := st.queue + [p], capacity := size))
  }

  // ---------- the file ----------

  /** The events of the packets written last. */
  function News(i: nat, before: seq<Packet>, after: seq<Packet>): (es: seq<Event>)
    requires |before| <= |after|
    ensures |es| == |after| - |before| && forall k :: 0 <= k < |es| ==> es[k] == Written(i, after[|before| + k])
  {
    seq(|after| - |before|, k requires 0 <= k < |after| - |before| => Written(i, after[|before| + k]))
  }

  lemma {:induction false} WrittenGrows(format: Format, m: Mux, ps: seq<Packet>, k: nat)
    requires k <= |ps| && AllMuxed(format, m, ps, k).Running?
    ensures m.written <= AllMuxed(format, m, ps, k).value.written
  {
    if k > 0 {
      WrittenGrows(format, m, ps, k - 1);
    }
  }

  /** Packets of stream i go to the muxer, one after the other. */
  function SendAll(f: File, i: nat, ps: seq<Packet>): (r: Outcome<File>)
    requires i < |f.streams|
    ensures r.Running? ==> |r.value.streams| == |f.streams|
  {
    var st := f.streams[i];
    match AllMuxed(f.format, st.mux, ps, |ps|)
    case Exited => Exited
    case Running(m) =>
      WrittenGrows(f.format, st.mux, ps, |ps|);
      Running(f.(streams := f.streams[i := st.(mux := m)], log := f.log + News(i, st.mux.written, m.written)))
  }

  function PacketStep(f: File, i: nat, p: Packet): Outcome<File>
    requires i < |f.streams|
  {
    if f.headerWritten then SendAll(f, i, [p])
    else
      match Buffered(f.streams[i], p)
      case Exited => Exited
      case Running(st) => Running(f.(streams := f.streams[i := st]))
  }

  /** The queues of the first k streams written, one stream after the other. */
  function Flushed(f: File, k: nat): (r: Outcome<File>)
    requires k <= |f.streams|
    ensures r.Running? ==> |r.value.streams| == |f.streams|
  {
    if k == 0 then Running(f)
    else
      match Flushed(f, k - 1)
      case Exited => Exited
      case Running(g) =>
        var st := g.streams[k - 1];
        SendAll(g.(streams := g.streams[k - 1 := st.(queue := [])]), k - 1, st.queue)
  }

  predicate AllInitialized(streams: seq<Stream>) {
    forall i :: 0 <= i < |streams| ==> streams[i].initialized
  }

  function Initialized(f: File, i: nat): File
    requires i < |f.streams|
  {
    f.(streams := f.streams[i := f.streams[i].(initialized := true)])
  }

  /** A stream is initialized; the last one makes the header and all queues be written. */
  function InitStep(f: File, i: nat): Outcome<File>
    requires i < |f.streams|
  {
    var g := Initialized(f, i);
    if !AllInitialized(g.streams) then Running(g)
    else Flushed(g.(headerWritten := true, log := g.log + [Header]), |g.streams|)
  }

  datatype Action = Write(i: nat, p: Packet) | Init(i: nat)

  /** Every stream is initialized once. */
  predicate Enabled(f: File, a: Action) {
    a.i < |f.streams| && (a.Init? ==> !f.streams[a.i].initialized)
  }

  function Step(f: File, a: Action): Outcome<File>
    requires Enabled(f, a)
  {
    match a
    case Write(i, p) => PacketStep(f, i, p)
    case Init(i) => InitStep(f, i)
  }

  // ---------- time stamps and limits of one stream ----------

  /** In a format with strict time stamps, once a packet has one, all later ones have, and they
      increase; in other formats with time stamps they do not decrease. */
  ghost predicate Increasing(format: Format, ps: seq<Packet>) {
    forall m, n :: 0 <= m < n < |ps| && ps[m].dts.Some? ==>
      ps[n].dts.Some?
      && (if format.strict then ps[m].dts.value < ps[n].dts.value else ps[m].dts.value <= ps[n].dts.value)
  }

  /** A stream nothing was written to yet. */
  predicate Unused(m: Mux) {
    m.written == [] && m.frameNumber == 0 && m.lastDts.None?
  }

  lemma OnePacketMore(format: Format, m: Mux, p: Packet)
    requires format.timestamps && Increasing(format, m.written) && Muxed(format, m, p).Running?
    requires m.lastDts == if m.written == [] then None else m.written[|m.written| - 1].dts
    ensures var r := Muxed(format, m, p).value;
      Increasing(format, r.written) && r.lastDts == if r.written == [] then None else r.written[|r.written| - 1].dts
  {
    var r := Muxed(format, m, p).value;
    if r.written != m.written {
      var n := |m.written|;
      forall j | 0 <= j < n && r.written[j].dts.Some?
        ensures r.written[n].dts.Some?
        ensures if format.strict then r.written[j].dts.value < r.written[n].dts.value
                else r.written[j].dts.value <= r.written[n].dts.value
      {
        if j < n - 1 {
          assert m.written[n - 1].dts.Some?;
        }
      }
    }
  }

  /** The time stamps a stream is given increase, whatever the packets say. */
  lemma {:induction false} TimestampsIncrease(format: Format, m: Mux, ps: seq<Packet>, k: nat)
    requires format.timestamps && Unused(m) && k <= |ps| && AllMuxed(format, m, ps, k).Running?
    ensures var r := AllMuxed(format, m, ps, k).value;
      Increasing(format, r.written) && r.lastDts == if r.written == [] then None else r.written[|r.written| - 1].dts
  {
    hide Muxed, Increasing;
    if k == 0 {
      NothingIncreases(format);
    } else {
      TimestampsIncrease(format, m, ps, k - 1);
      OnePacketMore(format, AllMuxed(format, m, ps, k - 1).value, ps[k - 1]);
    }
  }

  lemma NothingIncreases(format: Format)
    ensures Increasing(format, [])
  {
  }

  function Min(a: nat, b: nat): nat {
    if a < b then a else b
  }

  /** The first packets are written, in order; only packets over the limit are dropped. */
  lemma {:induction false} OnlyOverLimitDropped(format: Format, m: Mux, ps: seq<Packet>, k: nat)
    requires Unused(m) && k <= |ps| && AllMuxed(format, m, ps, k).Running?
    ensures var r := AllMuxed(format, m, ps, k).value;
      && |r.written| == (if m.counted then Min(k, m.maxFrames) else k)
      && (m.counted ==> r.frameNumber == |r.written|)
      && r.counted == m.counted && r.maxFrames == m.maxFrames && r.rescale == m.rescale
      && forall j :: 0 <= j < |r.written| ==> r.written[j].data == ps[j].data
  {
    if k > 0 {
      OnlyOverLimitDropped(format, m, ps, k - 1);
    }
  }

  // ---------- what every step keeps ----------

  lemma {:induction false} MuxedPrefix(format: Format, m: Mux, a: seq<Packet>, b: seq<Packet>, k: nat)
    requires k <= |a| && k <= |b| && forall j :: 0 <= j < k ==> a[j] == b[j]
    ensures AllMuxed(format, m, a, k) == AllMuxed(format, m, b, k)
  {
    if k > 0 {
      MuxedPrefix(format, m, a, b, k - 1);
    }
  }

  /** Packets sent in two lots are as packets sent in one. */
  lemma {:induction false} MuxedTogether(format: Format, m: Mux, a: seq<Packet>, b: seq<Packet>, k: nat)
    requires k <= |b| && AllMuxed(format, m, a, |a|).Running?
    ensures AllMuxed(format, m, a + b, |a| + k) == AllMuxed(format, AllMuxed(format, m, a, |a|).value, b, k)
  {
    hide Muxed;
    if k > 0 {
      MuxedTogether(format, m, a, b, k - 1);
    } else {
      MuxedPrefix(format, m, a + b, a, |a|);
    }
  }

  /** The packets of stream i among the events. */
  function WrittenTo(log: seq<Event>, i: nat): seq<Packet> {
    if log == [] then []
    else
      var e := log[|log| - 1];
      WrittenTo(log[..|log| - 1], i) + if e.Written? && e.i == i then [e.p] else []
  }

  lemma {:induction false} WrittenTogether(a: seq<Event>, b: seq<Event>, i: nat)
    ensures WrittenTo(a + b, i) == WrittenTo(a, i) + WrittenTo(b, i)
  {
    if b == [] {
      assert a + b == a;
    } else {
      WrittenTogether(a, b[..|b| - 1], i);
      assert (a + b)[..|a + b| - 1] == a + b[..|b| - 1];
    }
  }

  lemma {:induction false} NewsWritten(i: nat, before: seq<Packet>, after: seq<Packet>, j: nat)
    requires before <= after
    ensures before + WrittenTo(News(i, before, after), i) == after
    ensures j != i ==> WrittenTo(News(i, before, after), j) == []
  {
    if |before| < |after| {
      var n := |after| - 1;
      var es := News(i, before, after);
      assert es[..|es| - 1] == News(i, before, after[..n]);
      NewsWritten(i, before, after[..n], j);
      assert after == after[..n] + [after[n]];
    }
  }

  /** A stream whose queue has been written: what the muxer got for it is what write_packet
      makes of all its packets, in the order of the calls. */
  ghost predicate Live(format: Format, st: Stream, m0: Mux, offered: seq<Packet>) {
    st.queue == [] && AllMuxed(format, m0, offered, |offered|) == Running(st.mux)
  }

  /** A stream before the header: all its packets wait. */
  ghost predicate Held(st: Stream, m0: Mux, offered: seq<Packet>) {
    st.mux == m0 && st.queue == offered
  }

  ghost predicate LogOk(f: File) {
    && (forall k :: 0 <= k < |f.log| ==> (f.log[k].Header? <==> k == 0))
    && (!f.headerWritten ==> f.log == []) && (f.headerWritten ==> f.log != [])
    && forall i :: 0 <= i < |f.streams| ==> WrittenTo(f.log, i) == f.streams[i].mux.written
  }

  /** The first k streams are live, the others hold their packets. */
  ghost predicate StreamsOk(f: File, start: seq<Mux>, offered: seq<seq<Packet>>, k: nat) {
    && |f.streams| == |start| == |offered|
    && forall i :: 0 <= i < |f.streams| ==>
         if i < k then Live(f.format, f.streams[i], start[i], offered[i]) else Held(f.streams[i], start[i], offered[i])
  }

  ghost predicate Inv(f: File, start: seq<Mux>, offered: seq<seq<Packet>>) {
    && StreamsOk(f, start, offered, if f.headerWritten then |f.streams| else 0) && LogOk(f)
    && |f.streams| > 0 && (f.headerWritten <==> AllInitialized(f.streams))
  }

  /** Sending packets of a live stream. */
  lemma SendKeeps(f: File, start: seq<Mux>, offered: seq<seq<Packet>>, k: nat, i: nat, ps: seq<Packet>)
    requires i < k <= |f.streams| && f.headerWritten && LogOk(f) && StreamsOk(f, start, offered, k)
    requires SendAll(f, i, ps).Running?
    ensures var g := SendAll(f, i, ps).value;
      && LogOk(g) && StreamsOk(g, start, offered[i := offered[i] + ps], k)
      && g.headerWritten && |g.streams| == |f.streams| && g.format == f.format
      && (forall j :: 0 <= j < |f.streams| ==> g.streams[j].initialized == f.streams[j].initialized)
  {
    hide AllMuxed;
    var g, st := SendAll(f, i, ps).value, f.streams[i];
    assert Live(f.format, st, start[i], offered[i]);
    MuxedTogether(f.format, start[i], offered[i], ps, |ps|);
    WrittenGrows(f.format, st.mux, ps, |ps|);
    SentLog(f, i, g.streams[i].mux.written);
  }

  lemma SentLog(f: File, i: nat, written: seq<Packet>)
    requires i < |f.streams| && f.headerWritten && LogOk(f) && f.streams[i].mux.written <= written
    ensures var log := f.log + News(i, f.streams[i].mux.written, written);
      && log != [] && (forall k :: 0 <= k < |log| ==> (log[k].Header? <==> k == 0))
      && WrittenTo(log, i) == written
      && forall j :: 0 <= j < |f.streams| && j != i ==> WrittenTo(log, j) == f.streams[j].mux.written
  {
    hide WrittenTo;
    var news := News(i, f.streams[i].mux.written, written);
    forall j | 0 <= j < |f.streams|
      ensures WrittenTo(f.log + news, j) == if j == i then written else f.streams[j].mux.written
    {
      WrittenTogether(f.log, news, j);
      NewsWritten(i, f.streams[i].mux.written, written, j);
      assert j != i ==> f.streams[j].mux.written + [] == f.streams[j].mux.written;
    }
  }

  /** The flush makes one stream after the other live. */
  lemma {:induction false} FlushKeeps(f: File, start: seq<Mux>, offered: seq<seq<Packet>>, k: nat)
    requires k <= |f.streams| && f.headerWritten && LogOk(f) && StreamsOk(f, start, offered, 0)
    requires Flushed(f, k).Running?
    ensures var g := Flushed(f, k).value;
      && LogOk(g) && StreamsOk(g, start, offered, k)
      && g.headerWritten && |g.streams| == |f.streams| && g.format == f.format
      && (forall j :: 0 <= j < |f.streams| ==> g.streams[j].initialized == f.streams[j].initialized)
  {
    hide LogOk, SendAll, AllMuxed;
    if k > 0 {
      FlushKeeps(f, start, offered, k - 1);
      var g := Flushed(f, k - 1).value;
      var i, st := k - 1, g.streams[k - 1];
      assert Held(st, start[i], offered[i]);
      var emptied := g.(streams := g.streams[i := st.(queue := [])]);
      NothingOffered(g.format, start[i]);
      assert StreamsOk(emptied, start, offered[i := []], k);
      EmptiedLog(g, i);
      SendKeeps(emptied, start, offered[i := []], k, i, st.queue);
      assert [] + st.queue == offered[i] && offered[i := []][i := [] + st.queue] == offered;
    }
  }

  lemma NothingOffered(format: Format, m: Mux)
    ensures AllMuxed(format, m, [], 0) == Running(m)
  {
  }

  lemma EmptiedLog(g: File, i: nat)
    requires LogOk(g) && i < |g.streams|
    ensures LogOk(g.(streams := g.streams[i := g.streams[i].(queue := [])]))
  {
  }

  /** What was offered to the streams after one more step. */
  function Offered(offered: seq<seq<Packet>>, a: Action): seq<seq<Packet>>
    requires a.i < |offered|
  {
    match a
    case Write(i, p) => offered[i := offered[i] + [p]]
    case Init(_) => offered
  }

  lemma WriteKeeps(f: File, start: seq<Mux>, offered: seq<seq<Packet>>, i: nat, p: Packet)
    requires Inv(f, start, offered) && i < |f.streams| && PacketStep(f, i, p).Running?
    ensures Inv(PacketStep(f, i, p).value, start, offered[i := offered[i] + [p]])
  {
    hide LogOk, StreamsOk, SendAll, Buffered;
    if f.headerWritten {
      SendKeeps(f, start, offered, |f.streams|, i, [p]);
    } else {
      HoldKeeps(f, start, offered, i, p);
    }
  }

  /** A packet more waits for the header. */
  lemma HoldKeeps(f: File, start: seq<Mux>, offered: seq<seq<Packet>>, i: nat, p: Packet)
    requires !f.headerWritten && i < |f.streams| && Buffered(f.streams[i], p).Running?
    requires LogOk(f) && StreamsOk(f, start, offered, 0)
    ensures |f.streams| == |offered|
    ensures var st := Buffered(f.streams[i], p).value; var g := f.(streams := f.streams[i := st]);
      && LogOk(g) && StreamsOk(g, start, offered[i := offered[i] + [p]], 0)
      && (AllInitialized(g.streams) <==> AllInitialized(f.streams))
  {
    hide AllMuxed, WrittenTo, Live;
    var st := Buffered(f.streams[i], p).value;
    var g, more := f.(streams := f.streams[i := st]), offered[i := offered[i] + [p]];
    assert Held(f.streams[i], start[i], offered[i]);
    forall j | 0 <= j < |g.streams| ensures Held(g.streams[j], start[j], more[j]) {
      assert Held(f.streams[j], start[j], offered[j]);
    }
    assert forall j :: 0 <= j < |g.streams| ==> g.streams[j].initialized == f.streams[j].initialized;
  }

  lemma InitKeeps(f: File, start: seq<Mux>, offered: seq<seq<Packet>>, i: nat)
    requires Inv(f, start, offered) && Enabled(f, Init(i)) && InitStep(f, i).Running?
    requires forall j :: 0 <= j < |start| ==> start[j].written == []
    ensures Inv(InitStep(f, i).value, start, offered)
  {
    hide AllMuxed, Flushed, StreamsOk, LogOk, Initialized;
    BeforeFlush(f, start, offered, i);
    var g := Initialized(f, i);
    if AllInitialized(g.streams) {
      FlushKeeps(g.(headerWritten := true, log := g.log + [Header]), start, offered, |g.streams|);
    }
  }

  /** A stream more is initialized, and if it is the last one, the header is written. */
  lemma BeforeFlush(f: File, start: seq<Mux>, offered: seq<seq<Packet>>, i: nat)
    requires Inv(f, start, offered) && Enabled(f, Init(i))
    requires forall j :: 0 <= j < |start| ==> start[j].written == []
    ensures var g := Initialized(f, i); var h := g.(headerWritten := true, log := g.log + [Header]);
      && !f.headerWritten && !g.headerWritten && |g.streams| == |f.streams|
      && StreamsOk(g, start, offered, 0) && LogOk(g) && StreamsOk(h, start, offered, 0) && LogOk(h)
  {
    hide AllMuxed, Live, WrittenTo;
    var g := Initialized(f, i);
    var h := g.(headerWritten := true, log := g.log + [Header]);
    forall j | 0 <= j < |g.streams| ensures Held(g.streams[j], start[j], offered[j]) {
      assert Held(f.streams[j], start[j], offered[j]);
    }
    HeaderLog(h);
  }

  lemma HeaderLog(h: File)
    requires h.headerWritten && h.log == [Header]
    requires forall i :: 0 <= i < |h.streams| ==> h.streams[i].mux.written == []
    ensures LogOk(h)
  {
    assert [Header][..0] == [];
  }

  /** Every step keeps the invariant. */
  lemma StepKeeps(f: File, start: seq<Mux>, offered: seq<seq<Packet>>, a: Action)
    requires Inv(f, start, offered) && Enabled(f, a) && Step(f, a).Running?
    requires forall j :: 0 <= j < |start| ==> start[j].written == []
    ensures Inv(Step(f, a).value, start, Offered(offered, a))
  {
    match a
    case Write(i, p) => WriteKeeps(f, start, offered, i, p);
    case Init(i) => InitKeeps(f, start, offered, i);
  }

  // ---------- runs ----------

  /** A file whose streams are set up: nothing written, queues with room for eight packets. */
  ghost predicate IsStart(f: File) {
    && |f.streams| > 0 && !f.headerWritten && f.log == []
    && forall i :: 0 <= i < |f.streams| ==>
         var st := f.streams[i];
         Unused(st.mux) && st.queue == [] && st.capacity == 8 && !st.initialized
  }

  /** The states of a run up to where the program may have been ended. */
  ghost predicate IsRun(states: seq<File>, actions: seq<Action>) {
    && |states| == |actions| + 1 && IsStart(states[0])
    && forall k :: 0 <= k < |actions| ==>
         Enabled(states[k], actions[k]) && Step(states[k], actions[k]) == Running(states[k + 1])
  }

  /** The packets given to write_packet for stream i in the first k steps. */
  function OfferedTo(actions: seq<Action>, i: nat, k: nat): seq<Packet>
    requires k <= |actions|
  {
    if k == 0 then []
    else
      OfferedTo(actions, i, k - 1)
        + match actions[k - 1] case Write(j, p) => (if j == i then [p] else []) case Init(_) => []
  }

  function AllOffered(actions: seq<Action>, n: nat, k: nat): (r: seq<seq<Packet>>)
    requires k <= |actions|
    ensures |r| == n && forall i :: 0 <= i < n ==> r[i] == OfferedTo(actions, i, k)
  {
    seq(n, i requires 0 <= i < n => OfferedTo(actions, i, k))
  }

  function Muxes(streams: seq<Stream>): (r: seq<Mux>)
    ensures |r| == |streams| && forall i :: 0 <= i < |streams| ==> r[i] == streams[i].mux
  {
    seq(|streams|, i requires 0 <= i < |streams| => streams[i].mux)
  }

  lemma StartIsOk(f: File)
    requires IsStart(f)
    ensures Inv(f, Muxes(f.streams), seq(|f.streams|, _ => []))
  {
    assert !f.streams[0].initialized;
  }

  lemma OneMoreOffered(actions: seq<Action>, n: nat, k: nat)
    requires 0 < k <= |actions| && actions[k - 1].i < n
    ensures Offered(AllOffered(actions, n, k - 1), actions[k - 1]) == AllOffered(actions, n, k)
  {
    var r := Offered(AllOffered(actions, n, k - 1), actions[k - 1]);
    forall i | 0 <= i < n ensures r[i] == AllOffered(actions, n, k)[i] {
      assert OfferedTo(actions, i, k - 1) + [] == OfferedTo(actions, i, k - 1);
    }
  }

  lemma {:induction false} RunKeepsInv(states: seq<File>, actions: seq<Action>, k: nat)
    requires IsRun(states, actions) && k <= |actions|
    ensures var start := Muxes(states[0].streams);
      |states[k].streams| == |start| && Inv(states[k], start, AllOffered(actions, |start|, k))
  {
    hide Inv, Step, Enabled;
    var start := Muxes(states[0].streams);
    if k == 0 {
      StartIsOk(states[0]);
      assert seq(|start|, _ => []) == AllOffered(actions, |start|, 0);
    } else {
      RunKeepsInv(states, actions, k - 1);
      var a, before := actions[k - 1], AllOffered(actions, |start|, k - 1);
      assert Enabled(states[k - 1], a) && Step(states[k - 1], a) == Running(states[k - 1 + 1]);
      StepInRange(states[k - 1], a);
      StepKeeps(states[k - 1], start, before, a);
      OneMoreOffered(actions, |start|, k);
      SameStreams(states[k], start, AllOffered(actions, |start|, k));
    }
  }

  lemma StepInRange(f: File, a: Action)
    requires Enabled(f, a)
    ensures a.i < |f.streams|
  {
  }

  lemma SameStreams(f: File, start: seq<Mux>, offered: seq<seq<Packet>>)
    requires Inv(f, start, offered)
    ensures |f.streams| == |start|
  {
  }

  /** No packet reaches the muxer before its header, which is written once, when all streams
      are initialized. */
  lemma HeaderComesFirst(states: seq<File>, actions: seq<Action>, k: nat)
    requires IsRun(states, actions) && k <= |actions|
    ensures var f := states[k];
      && (f.log != [] ==> f.log[0].Header? && forall j :: 0 < j < |f.log| ==> f.log[j].Written?)
      && (f.log == [] <==> !AllInitialized(f.streams))
  {
    RunKeepsInv(states, actions, k);
  }

  /** Whether its packets had to wait or not, a stream's packets reach the muxer in the order of
      the calls, each as write_packet makes it when nothing has to wait. */
  lemma PacketsInOrder(states: seq<File>, actions: seq<Action>, k: nat, i: nat)
    requires IsRun(states, actions) && k <= |actions| && i < |states[k].streams|
    ensures i < |states[0].streams|
    ensures var offered := OfferedTo(actions, i, k); var f := states[k];
      if f.headerWritten then
        var r := AllMuxed(f.format, states[0].streams[i].mux, offered, |offered|);
        r.Running? && WrittenTo(f.log, i) == r.value.written && f.streams[i].queue == []
      else WrittenTo(f.log, i) == [] && f.streams[i].queue == offered
  {
    RunKeepsInv(states, actions, k);
    var start := Muxes(states[0].streams);
    var all := AllOffered(actions, |start|, k);
    assert StreamsOk(states[k], start, all, if states[k].headerWritten then |states[k].streams| else 0);
    assert if states[k].headerWritten then Live(states[k].format, states[k].streams[i], start[i], all[i])
           else Held(states[k].streams[i], start[i], all[i]);
  }

  /** In every run: the muxer gets increasing time stamps, and only packets over the limit of
      their stream are dropped, the first ones staying. */
  lemma MuxedStreamIsSound(states: seq<File>, actions: seq<Action>, k: nat, i: nat)
    requires IsRun(states, actions) && k <= |actions| && i < |states[k].streams| && states[k].headerWritten
    ensures i < |states[0].streams|
    ensures var f := states[k]; var m := states[0].streams[i].mux;
      var offered, written := OfferedTo(actions, i, k), WrittenTo(f.log, i);
      && (f.format.timestamps ==> Increasing(f.format, written))
      && |written| == (if m.counted then Min(|offered|, m.maxFrames) else |offered|)
      && forall j :: 0 <= j < |written| ==> written[j].data == offered[j].data
  {
    PacketsInOrder(states, actions, k, i);
    var f, m, offered := states[k], states[0].streams[i].mux, OfferedTo(actions, i, k);
    OnlyOverLimitDropped(f.format, m, offered, |offered|);
    if f.format.timestamps {
      TimestampsIncrease(f.format, m, offered, |offered|);
    }
  }

  // ---------- what becomes of a packet ----------

  /** A time stamp in the stream's time base, if there is one. */
  function InStreamTime(t: Option<int>, rescale: int -> int): Option<int> {
    match t
    case None => None
    case Some(v) => Some(rescale(v))
  }

  /** The time stamp may follow the one before it, in a format that asks for order. */
  predicate Follows(format: Format, before: Option<int>, dts: Option<int>) {
    || !format.timestamps || before.None?
    || (dts.Some? && before.value <= dts.value && (format.strict ==> before.value != dts.value))
  }

  /** The packet that is written for an offered one, the last time stamp written being before. A time
      stamp that may follow stays; else the next number is taken, and a presentation time that would
      come before it is moved to it. */
  ghost predicate IsWritten(format: Format, rescale: int -> int, before: Option<int>, p: Packet, w: Packet) {
    var dts, pts := InStreamTime(p.dts, rescale), InStreamTime(p.pts, rescale);
    && w.data == p.data
    && if Follows(format, before, dts) then w.dts == dts && w.pts == pts
       else
         && !format.exitOnError && w.dts == Some(before.value + 1)
         && match pts
            case None => w.pts == None
            case Some(t) => w.pts.Some? && w.pts.value >= t && w.pts.value >= before.value + 1
                            && (w.pts.value == t || w.pts.value == before.value + 1)
  }

  function DtsBefore(written: seq<Packet>, j: nat): Option<int>
    requires j <= |written|
  {
    if j == 0 then None else written[j - 1].dts
  }

  /** The time stamp is kept as that of the last packet written. */
  ghost predicate KeepsLast(m: Mux) {
    m.lastDts == DtsBefore(m.written, |m.written|)
  }

  lemma PacketIsWritten(format: Format, m: Mux, p: Packet)
    requires KeepsLast(m) && Muxed(format, m, p).Running?
    ensures var r := Muxed(format, m, p).value;
      && KeepsLast(r) && r.rescale == m.rescale
      && (if m.counted && m.frameNumber >= m.maxFrames then r == m
          else |r.written| == |m.written| + 1 && m.written <= r.written
               && IsWritten(format, m.rescale, DtsBefore(m.written, |m.written|), p, r.written[|m.written|]))
  {
  }

  /** Every packet that is written is the offered one of the same number, changed only as its time
      stamp and the one before it ask for. */
  lemma {:induction false} AllAreWritten(format: Format, m: Mux, ps: seq<Packet>, k: nat)
    requires Unused(m) && k <= |ps| && AllMuxed(format, m, ps, k).Running?
    ensures var r := AllMuxed(format, m, ps, k).value;
      && KeepsLast(r) && r.rescale == m.rescale && |r.written| <= k
      && forall j :: 0 <= j < |r.written| ==>
           IsWritten(format, m.rescale, DtsBefore(r.written, j), ps[j], r.written[j])
  {
    hide Muxed, IsWritten;
    if k > 0 {
      AllAreWritten(format, m, ps, k - 1);
      OnlyOverLimitDropped(format, m, ps, k - 1);
      OnlyOverLimitDropped(format, m, ps, k);
      var before := AllMuxed(format, m, ps, k - 1).value;
      PacketIsWritten(format, before, ps[k - 1]);
      var r := AllMuxed(format, m, ps, k).value;
      forall j | 0 <= j < |r.written|
        ensures IsWritten(format, m.rescale, DtsBefore(r.written, j), ps[j], r.written[j])
      {
        if j < |before.written| {
          assert IsWritten(format, m.rescale, DtsBefore(before.written, j), ps[j], before.written[j]);
        }
      }
    }
  }

  /** In every run: what the muxer gets for a stream is its packets in turn, with repaired time
      stamps only where they have to be. */
  lemma PacketsAreRepaired(states: seq<File>, actions: seq<Action>, k: nat, i: nat)
    requires IsRun(states, actions) && k <= |actions| && i < |states[k].streams| && states[k].headerWritten
    ensures i < |states[0].streams|
    ensures var f := states[k];
      var offered, written := OfferedTo(actions, i, k), WrittenTo(f.log, i);
      && |written| <= |offered|
      && forall j :: 0 <= j < |written| ==>
           IsWritten(f.format, states[0].streams[i].mux.rescale, DtsBefore(written, j), offered[j], written[j])
  {
    hide IsWritten, Inv, Muxed;
    PacketsInOrder(states, actions, k, i);
    var offered := OfferedTo(actions, i, k);
    AllAreWritten(states[k].format, states[0].streams[i].mux, offered, |offered|);
  }

  // ---------- when the program ends ----------

  /** Before the header: the settings of a stream stay, and its queue has room for eight packets
      or has grown within its limit. */
  ghost predicate Roomy(st: Stream, st0: Stream) {
    && st.maxQueue == st0.maxQueue && |st.queue| <= st.capacity
    && (st.capacity == 8 || 8 < st.capacity <= st.maxQueue)
  }

  ghost predicate AllRoomy(f: File, f0: File) {
    |f.streams| == |f0.streams| && forall i :: 0 <= i < |f.streams| ==> Roomy(f.streams[i], f0.streams[i])
  }

  lemma BufferedRoomy(st: Stream, st0: Stream, p: Packet)
    requires Roomy(st, st0)
    ensures Buffered(st, p).Running? ==> Roomy(Buffered(st, p).value, st0)
    ensures Buffered(st, p).Exited? <==> |st.queue| == if st0.maxQueue > 8 then st0.maxQueue else 8
  {
  }

  /** The header, once written, stays so. */
  lemma HeaderStays(f: File, a: Action)
    requires Enabled(f, a) && f.headerWritten && Step(f, a).Running?
    ensures Step(f, a).value.headerWritten
  {
    hide AllMuxed;
    if a.Init? && AllInitialized(Initialized(f, a.i).streams) {
      var g := Initialized(f, a.i);
      FlushedHeader(g.(headerWritten := true, log := g.log + [Header]), |g.streams|);
    }
  }

  lemma {:induction false} FlushedHeader(f: File, k: nat)
    requires k <= |f.streams| && f.headerWritten && Flushed(f, k).Running?
    ensures Flushed(f, k).value.headerWritten
  {
    hide AllMuxed;
    if k > 0 {
      FlushedHeader(f, k - 1);
    }
  }

  lemma StepRoomy(f: File, f0: File, a: Action)
    requires Enabled(f, a) && AllRoomy(f, f0) && !f.headerWritten && Step(f, a).Running?
    requires !Step(f, a).value.headerWritten
    ensures AllRoomy(Step(f, a).value, f0)
  {
    hide Flushed, AllMuxed, Buffered;
    match a
    case Write(i, p) => BufferedRoomy(f.streams[i], f0.streams[i], p);
    case Init(i) =>
      var g := Initialized(f, i);
      if AllInitialized(g.streams) {
        FlushedHeader(g.(headerWritten := true, log := g.log + [Header]), |g.streams|);
      }
  }

  lemma StartRoomy(f: File)
    requires IsStart(f)
    ensures AllRoomy(f, f)
  {
  }

  lemma {:induction false} RunRoomy(states: seq<File>, actions: seq<Action>, k: nat)
    requires IsRun(states, actions) && k <= |actions| && !states[k].headerWritten
    ensures AllRoomy(states[k], states[0])
  {
    hide Step, Enabled, AllRoomy, IsStart;
    if k == 0 {
      StartRoomy(states[0]);
    } else {
      assert Enabled(states[k - 1], actions[k - 1])
          && Step(states[k - 1], actions[k - 1]) == Running(states[k - 1 + 1]);
      if states[k - 1].headerWritten {
        HeaderStays(states[k - 1], actions[k - 1]);
      }
      RunRoomy(states, actions, k - 1);
      StepRoomy(states[k - 1], states[0], actions[k - 1]);
    }
  }

  /** Before the header, a packet ends the program if and only if the stream has been given as many as
      its queue may hold; a limit below eight counts as eight. */
  lemma FullQueueEnds(states: seq<File>, actions: seq<Action>, k: nat, i: nat, p: Packet)
    requires IsRun(states, actions) && k <= |actions| && i < |states[k].streams| && !states[k].headerWritten
    ensures i < |states[0].streams| && Enabled(states[k], Write(i, p))
    ensures var limit := states[0].streams[i].maxQueue;
      Step(states[k], Write(i, p)).Exited? <==> |OfferedTo(actions, i, k)| == if limit > 8 then limit else 8
  {
    hide Inv, Buffered, IsStart, AllMuxed, InitStep;
    RunRoomy(states, actions, k);
    PacketsInOrder(states, actions, k, i);
    assert Roomy(states[k].streams[i], states[0].streams[i]);
    BufferedRoomy(states[k].streams[i], states[0].streams[i], p);
  }

  /** After the header, a packet ends the program if and only if errors are to end it, the packet is
      within the limit of its stream, and its time stamp may not follow the last one written. */
  lemma LateStampEnds(states: seq<File>, actions: seq<Action>, k: nat, i: nat, p: Packet)
    requires IsRun(states, actions) && k <= |actions| && i < |states[k].streams| && states[k].headerWritten
    ensures i < |states[0].streams| && Enabled(states[k], Write(i, p))
    ensures var f, m := states[k], states[0].streams[i].mux; var written := WrittenTo(f.log, i);
      Step(f, Write(i, p)).Exited? <==>
        && f.format.exitOnError && (m.counted ==> |written| < m.maxFrames)
        && !Follows(f.format, DtsBefore(written, |written|), InStreamTime(p.dts, m.rescale))
  {
    hide Inv, IsStart, IsWritten, AllMuxed, InitStep;
    PacketsInOrder(states, actions, k, i);
    LiveStream(states, actions, k, i);
    var f, m, offered := states[k], states[0].streams[i].mux, OfferedTo(actions, i, k);
    AllAreWritten(f.format, m, offered, |offered|);
    OnlyOverLimitDropped(f.format, m, offered, |offered|);
    OnePacket(f.format, f.streams[i].mux, p);
  }

  /** A stream after the header: what write_packet makes of all it was given. */
  lemma LiveStream(states: seq<File>, actions: seq<Action>, k: nat, i: nat)
    requires IsRun(states, actions) && k <= |actions| && i < |states[k].streams| && states[k].headerWritten
    ensures i < |states[0].streams|
    ensures var m, offered := states[0].streams[i].mux, OfferedTo(actions, i, k);
      AllMuxed(states[k].format, m, offered, |offered|) == Running(states[k].streams[i].mux)
    ensures Unused(states[0].streams[i].mux)
  {
    RunKeepsInv(states, actions, k);
    var start := Muxes(states[0].streams);
    var all := AllOffered(actions, |start|, k);
    assert StreamsOk(states[k], start, all, |states[k].streams|);
    assert Live(states[k].format, states[k].streams[i], start[i], all[i]);
  }

  // ---------- the file in place ----------

  lemma OnePacket(format: Format, m: Mux, p: Packet)
    ensures AllMuxed(format, m, [p], 1) == Muxed(format, m, p)
  {
    assert AllMuxed(format, m, [p], 0) == Running(m);
  }

  /** From f, the first n packets of a queue of stream i have been sent. */
  ghost predicate Sending(f: File, i: nat, q: seq<Packet>, n: nat, g: File)
    requires i < |f.streams| && n <= |q|
  {
    && i < |g.streams| && f.streams[i].mux.written <= g.streams[i].mux.written
    && AllMuxed(f.format, f.streams[i].mux, q[..n], n) == Running(g.streams[i].mux)
    && g == f.(streams := f.streams[i := f.streams[i].(mux := g.streams[i].mux, queue := q[n..])],
               log := f.log + News(i, f.streams[i].mux.written, g.streams[i].mux.written))
  }

  lemma SendingStarts(f: File, i: nat, q: seq<Packet>, g: File)
    requires i < |f.streams| && g == f.(streams := f.streams[i := f.streams[i].(queue := q)])
    ensures Sending(f, i, q, 0, g)
  {
    var st := f.streams[i];
    assert q[..0] == [] && q[0..] == q && AllMuxed(f.format, st.mux, [], 0) == Running(st.mux);
    assert f.log + News(i, st.mux.written, st.mux.written) == f.log;
  }

  lemma SendingQueue(f: File, i: nat, q: seq<Packet>, n: nat, g: File)
    requires i < |f.streams| && n <= |q| && Sending(f, i, q, n, g)
    ensures i < |g.streams| && g.streams[i].queue == q[n..]
  {
  }

  lemma SendingEnds(f: File, i: nat, q: seq<Packet>, g: File)
    requires i < |f.streams| && f.streams[i].queue == [] && Sending(f, i, q, |q|, g)
    ensures SendAll(f, i, q) == Running(g)
  {
    assert q[..|q|] == q && q[|q|..] == [];
  }

  /** One packet more, when it has been read from the queue and is sent. */
  lemma SendingMore(f: File, i: nat, q: seq<Packet>, n: nat, g: File)
    requires i < |f.streams| && n < |q| && Sending(f, i, q, n, g)
    ensures var h := g.(streams := g.streams[i := g.streams[i].(queue := q[n + 1..])]);
      match SendAll(h, i, [q[n]])
      case Exited => SendAll(f, i, q) == Exited
      case Running(h') => Sending(f, i, q, n + 1, h')
  {
    hide Muxed;
    var m0, m := f.streams[i].mux, g.streams[i].mux;
    assert q[..n + 1] == q[..n] + [q[n]];
    MuxedTogether(f.format, m0, q[..n], [q[n]], 1);
    var r := AllMuxed(f.format, m, [q[n]], 1);
    if r.Running? {
      WrittenGrows(f.format, m, [q[n]], 1);
      LogTogether(f.log, i, m0.written, m.written, r.value.written);
    } else {
      ExitStays(f.format, m0, q[..n + 1], q, |q|);
    }
  }

  lemma LogTogether(log: seq<Event>, i: nat, a: seq<Packet>, b: seq<Packet>, c: seq<Packet>)
    requires a <= b <= c
    ensures (log + News(i, a, b)) + News(i, b, c) == log + News(i, a, c)
  {
    NewsTogether(i, a, b, c);
  }

  lemma NewsTogether(i: nat, a: seq<Packet>, b: seq<Packet>, c: seq<Packet>)
    requires a <= b <= c
    ensures News(i, a, b) + News(i, b, c) == News(i, a, c)
  {
  }

  lemma {:induction false} ExitStays(format: Format, m: Mux, a: seq<Packet>, b: seq<Packet>, k: nat)
    requires a <= b && |a| <= k <= |b| && AllMuxed(format, m, a, |a|).Exited?
    ensures AllMuxed(format, m, b, k).Exited?
  {
    if k == |a| {
      MuxedPrefix(format, m, a, b, |a|);
    } else {
      ExitStays(format, m, a, b, k - 1);
    }
  }

  class OutputFile {
    const format: Format
    const streams: array<Stream>
    var headerWritten: bool
    ghost var log: seq<Event>

    /** Streams with these settings, their queues empty with room for eight packets. */
    constructor (format: Format, muxes: seq<Mux>, maxQueues: seq<nat>)
      requires |muxes| == |maxQueues| > 0 && forall i :: 0 <= i < |muxes| ==> Unused(muxes[i])
      ensures fresh(streams) && IsStart(View()) && this.format == format && streams.Length == |muxes|
      ensures forall i :: 0 <= i < |muxes| ==> streams[i].mux == muxes[i] && streams[i].maxQueue == maxQueues[i]
    {
      this.format := format;
      streams := new Stream[|muxes|](i requires 0 <= i < |muxes| => Stream(muxes[i], maxQueues[i], false, [], 8));
      headerWritten, log := false, [];
    }

    ghost function View(): File
      reads this, streams
    {
      File(format, streams[..], headerWritten, log)
    }

    /** write_packet once the header is written. */
    method MuxPacket(i: nat, p: Packet) returns (ok: bool)
      requires i < streams.Length
      modifies this`log, streams
      ensures Outcome(ok) == SendAll(old(View()), i, [p])
    {
      var st := streams[i];
      OnePacket(format, st.mux, p);
      var m := st.mux;
      if OverLimit(m) {
        assert log + News(i, m.written, m.written) == log;
        assert streams[..] == old(streams[..])[i := st.(mux := m)];
        return true;
      }
      var q := Rescaled(p, m.rescale);
      if Backwards(format, m.lastDts, q.dts) && format.exitOnError {
        return false;
      }
      var r := Corrected(format, m.lastDts, q);
      if m.counted {
        m := m.(frameNumber := m.frameNumber + 1);
      }
      m := m.(lastDts := r.dts, written := m.written + [r]);
      log := log + News(i, st.mux.written, m.written);
      streams[i] := st.(mux := m);
      return true;
    }

    ghost function Outcome(ok: bool): Outcome<File>
      reads this, streams
    {
      if ok then Running(View()) else Exited
    }

    /** write_packet: before the header the packet waits; a full queue grows up to its limit. */
    method WritePacket(i: nat, p: Packet) returns (ok: bool)
      requires i < streams.Length
      modifies this`log, streams
      ensures Outcome(ok) == PacketStep(old(View()), i, p)
    {
      if headerWritten {
        ok := MuxPacket(i, p);
        return;
      }
      var st := streams[i];
      if |st.queue| >= st.capacity {
        var newSize := if 2 * |st.queue| < st.maxQueue then 2 * |st.queue| else st.maxQueue;
        if newSize <= |st.queue| {
          return false;
        }
        st := st.(capacity := newSize);
      }
      streams[i] := st.(queue := st.queue + [p]);
      return true;
    }

    /** Writes the packets that waited for stream i. */
    method FlushQueue(i: nat) returns (ok: bool)
      requires i < streams.Length && headerWritten
      modifies this`log, streams
      ensures var f, st := old(View()), old(streams[i]);
        Outcome(ok) == SendAll(f.(streams := f.streams[i := st.(queue := [])]), i, st.queue)
    {
      hide SendAll, Sending;
      ghost var q, n := streams[i].queue, 0;
      ghost var f := View().(streams := streams[..][i := streams[i].(queue := [])]);
      SendingStarts(f, i, q, View());
      SendingQueue(f, i, q, n, View());
      while streams[i].queue != []
        invariant headerWritten && n <= |q| && Sending(f, i, q, n, View()) && streams[i].queue == q[n..]
        decreases |streams[i].queue|
      {
        ok := SendFront(i, f, q, n);
        if !ok {
          return;
        }
        n := n + 1;
        SendingQueue(f, i, q, n, View());
      }
      SendingEnds(f, i, q, View());
      return true;
    }

    /** Reads one packet from the queue and sends it. */
    method SendFront(i: nat, ghost f: File, ghost q: seq<Packet>, ghost n: nat) returns (ok: bool)
      requires i < streams.Length && i < |f.streams| && n < |q| && streams[i].queue == q[n..]
      requires Sending(f, i, q, n, View())
      modifies this`log, streams
      ensures if ok then Sending(f, i, q, n + 1, View()) else SendAll(f, i, q) == Exited
    {
      hide SendAll, Sending;
      SendingMore(f, i, q, n, View());
      ghost var g := View();
      var pkt := streams[i].queue[0];
      streams[i] := streams[i].(queue := streams[i].queue[1..]);
      assert View() == g.(streams := g.streams[i := g.streams[i].(queue := q[n + 1..])]);
      ok := MuxPacket(i, pkt);
    }

    /** A stream has been initialized; check_init_output_file: with the last one, the header,
        then all that waited. */
    method CheckInitOutputFile(i: nat) returns (ok: bool)
      requires i < streams.Length && !headerWritten
      modifies this, streams
      ensures Outcome(ok) == InitStep(old(View()), i)
    {
      hide SendAll;
      streams[i] := streams[i].(initialized := true);
      for j := 0 to streams.Length
        invariant forall k :: 0 <= k < j ==> streams[k].initialized
      {
        if !streams[j].initialized {
          assert !streams[..][j].initialized;
          return true;
        }
      }
      headerWritten := true;
      log := log + [Header];
      ghost var h := View();
      var j := 0;
      while j < streams.Length
        invariant j <= streams.Length && headerWritten && Flushed(h, j) == Running(View())
        decreases streams.Length - j
      {
        ok := FlushQueue(j);
        j := j + 1;
        FlushStops(h, j, streams.Length);
        if !ok {
          return;
        }
      }
      return true;
    }
  }

  lemma {:induction false} FlushStops(f: File, k: nat, n: nat)
    requires k <= n <= |f.streams|
    ensures Flushed(f, k).Exited? ==> Flushed(f, n).Exited?
    decreases n
  {
    hide SendAll;
    if k < n {
      FlushStops(f, k, n - 1);
    }
  }
}
