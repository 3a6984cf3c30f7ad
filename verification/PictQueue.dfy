/** The picture ring of avplay between the video thread and the display (queue_picture,
    compute_target_time, video_refresh_timer, stream_pause and the flush branch of
    get_video_frame in avtools/avplay.c). Each section under the lock and each refresh is one
    step; the clock never goes back. */
module PictQueue {

  const RING: nat := 2 // VIDEO_PICTURE_QUEUE_SIZE
  const SYNC_THRESHOLD: real := 0.01
  const NOSYNC_THRESHOLD: real := 10.0
  const NOPTS: real := -9223372036854775808.0
  const SKIP_FACTOR: real := 0.05

  /** A slot of the ring: a picture, its time stamp and when it should be shown. */
  datatype Slot = Slot(id: int, pts: real, target: real)

  /** Where the video thread is. */
  datatype Pc =
    | Outside
    | WantSpace(id: int, pts: real) // in queue_picture, before there is space
    | Filling(id: int, pts: real)   // writing the slot at windex
    | Filled                        // windex advanced, the size not yet
    | Flushing                      // has zeroed the targets, waits for an empty queue
    | Flushed                       // about to reset the timer

  datatype State = State(slots: seq<Slot>, rindex: nat, windex: nat, size: nat, pc: Pc,
                         frameTimer: real, lastPts: real, lastDelay: real,
                         currentPts: real, drift: real, videoClock: real, skip: real,
                         paused: bool, abort: bool, clock: real,
                         queued: seq<int>, taken: seq<int>, shown: seq<int>)

  datatype Action =
    | Tick(now: real)
    | Submit(id: int, pts: real, frameDelay: real) // output_picture2 calls queue_picture
    | FindSpace
    | GiveUp                                       // abort_request while waiting
    | WriteSlot                                    // copies the picture and advances windex
    | SkipPicture                                  // no bitmap
    | Enqueue(slave: bool, diff: real)             // compute_target_time, pictq_size++
    | FlushStart
    | FlushWaited
    | FlushReset
    | Refresh(times: nat -> real, frameDrop: bool) // its readings of the clock
    | Pause(t1: real, t2: real, t3: real, noPause: bool)
    | Abort

  // ---------- the steps ----------

  function Max(a: real, b: real): real {
    if a > b then a else b
  }

  function Abs(a: real): real {
    if a < 0.0 then -a else a
  }

  /** The nominal delay of a picture: the difference to the time stamp before it, unless that
      makes no sense. */
  function Nominal(pts: real, lastPts: real, lastDelay: real): real {
    var delay := pts - lastPts;
    if delay <= 0.0 || delay >= 10.0 then lastDelay else delay
  }

  /** The delay after correction towards the master clock. */
  function Corrected(delay: real, slave: bool, diff: real): real {
    var threshold := Max(SYNC_THRESHOLD, delay);
    if slave && Abs(diff) < NOSYNC_THRESHOLD then
      if diff <= -threshold then 0.0 else if diff >= threshold then 2.0 * delay else delay
    else delay
  }

  /** compute_target_time: the target is the advanced frame timer. */
  function TargetTime(s: State, pts: real, slave: bool, diff: real): State {
    var delay := Nominal(pts, s.lastPts, s.lastDelay);
    s.(lastDelay := delay, lastPts := pts, frameTimer := s.frameTimer + Corrected(delay, slave, diff))
  }

  /** pictq_rindex and pictq_size after the first picture has been taken. */
  function Dequeued(s: State): State
    requires |s.slots| == RING && s.rindex < RING && s.size > 0
  {
    s.(rindex := if s.rindex + 1 == RING then 0 else s.rindex + 1, size := s.size - 1,
       taken := s.taken + [s.slots[s.rindex].id])
  }

  /** The time at which the picture after the first is due. */
  function NextTarget(s: State): real
    requires |s.slots| == RING && s.rindex < RING
  {
    var vp := s.slots[s.rindex];
    if s.size > 1 then s.slots[(s.rindex + 1) % RING].target else vp.target + s.videoClock - vp.pts
  }

  /** The first picture becomes the current one. */
  function Shown(s: State, time: real): (r: State)
    requires |s.slots| == RING && s.rindex < RING
    ensures r.slots == s.slots && r.rindex == s.rindex && r.windex == s.windex && r.size == s.size
  {
    var vp := s.slots[s.rindex];
    s.(clock := time, currentPts := vp.pts, drift := vp.pts - time)
  }

  /** A late display makes the decoder skip more frames. */
  function Slowed(s: State, late: bool): (r: State)
    ensures r.slots == s.slots && r.rindex == s.rindex && r.windex == s.windex && r.size == s.size
    ensures !late ==> r == s
  {
    if late then s.(skip := s.skip * (1.0 + SKIP_FACTOR)) else s
  }

  /** One look at the first picture, and whether to look again: a late picture with another
      one behind it, or much too late, is dropped. */
  function Looked(s: State, time: real, frameDrop: bool): (r: (State, bool))
    requires |s.slots| == RING && s.rindex < RING && s.size > 0
    ensures r.1 ==> |r.0.slots| == RING && r.0.rindex < RING && r.0.size == s.size - 1
  {
    if time < s.slots[s.rindex].target then (s.(clock := time), false)
    else
      var s2 := Shown(s, time);
      var next := NextTarget(s2);
      var late := frameDrop && time > next;
      var again := late && (s.size > 1 || time > next + 0.5);
      var s3 := Dequeued(Slowed(s2, late));
      (if again then s3 else s3.(shown := s3.shown + [s.slots[s.rindex].id]), again)
  }

  /** video_refresh_timer from its reading number k of the clock on. */
  function Refreshed(s: State, times: nat -> real, frameDrop: bool, k: nat): State
    requires |s.slots| == RING && s.rindex < RING && s.size <= RING
    decreases s.size
  {
    if s.size == 0 then s
    else
      var (s1, again) := Looked(s, times(k), frameDrop);
      if again then Refreshed(s1, times, frameDrop, k + 1) else s1
  }

  /** stream_pause, with its three readings of the clock. */
  function Toggled(s: State, t1: real, t2: real, t3: real, noPause: bool): State {
    if !s.paused then s.(paused := true)
    else
      var pts := if noPause then s.currentPts else s.drift + t2;
      s.(frameTimer := s.frameTimer + t1 + s.drift - s.currentPts, currentPts := pts, drift := pts - t3,
         clock := t3, paused := false)
  }

  function Next(i: nat): nat {
    if i + 1 == RING then 0 else i + 1
  }

  predicate Enabled(s: State, a: Action) {
    match a
    case Tick(now) => now >= s.clock
    case Submit(_, _, frameDelay) => s.pc.Outside? && frameDelay >= 0.0
    case FindSpace => s.pc.WantSpace? && s.size < RING && !s.abort
    case GiveUp => s.pc.WantSpace? && s.abort
    case WriteSlot => s.pc.Filling?
    case SkipPicture => s.pc.Filling?
    case Enqueue(_, _) => s.pc.Filled?
    case FlushStart => s.pc.Outside?
    case FlushWaited => s.pc.Flushing? && (s.size == 0 || s.abort)
    case FlushReset => s.pc.Flushed?
    case Refresh(_, _) => true
    case Pause(t1, t2, t3, _) => s.clock <= t1 <= t2 <= t3
    case Abort => true
  }

  /** The readings of the clock never go back. */
  ghost predicate Rising(times: nat -> real, from: real) {
    times(0) >= from && forall k: nat :: times(k) <= times(k + 1)
  }

  ghost predicate Timely(s: State, a: Action) {
    a.Refresh? ==> Rising(a.times, s.clock)
  }

  ghost predicate Shaped(s: State) {
    |s.slots| == RING && s.rindex < RING && s.windex < RING && s.size <= RING
  }

  function Zeroed(slots: seq<Slot>): (r: seq<Slot>)
    ensures |r| == |slots| && forall i :: 0 <= i < |slots| ==> r[i] == slots[i].(target := 0.0)
  {
    seq(|slots|, i requires 0 <= i < |slots| => slots[i].(target := 0.0))
  }

  function Step(s: State, a: Action): State
    requires |s.slots| == RING && s.rindex < RING && s.windex < RING && s.size <= RING && Enabled(s, a)
  {
    match a
    case Tick(now) => s.(clock := now)
    case Submit(id, pts, frameDelay) =>
      var p := if pts != 0.0 then pts else s.videoClock;
      s.(videoClock := p + frameDelay, pc := WantSpace(id, p))
    case FindSpace => s.(pc := Filling(s.pc.id, s.pc.pts))
    case GiveUp => s.(pc := Outside)
    case WriteSlot =>
      s.(slots := s.slots[s.windex := s.slots[s.windex].(id := s.pc.id, pts := s.pc.pts)], windex := Next(s.windex),
         pc := Filled)
    case SkipPicture => s.(pc := Outside)
    case Enqueue(slave, diff) =>
      var i := Next(s.windex); // the slot before windex, in a ring of two
      var t := TargetTime(s, s.slots[i].pts, slave, diff);
      t.(slots := t.slots[i := t.slots[i].(target := t.frameTimer)], size := t.size + 1, pc := Outside,
         queued := t.queued + [t.slots[i].id])
    case FlushStart => s.(slots := Zeroed(s.slots), pc := Flushing)
    case FlushWaited => s.(pc := Flushed)
    case FlushReset => s.(lastPts := NOPTS, lastDelay := 0.0, frameTimer := s.clock, skip := 1.0, pc := Outside)
    case Refresh(times, frameDrop) => Refreshed(s, times, frameDrop, 0)
    case Pause(t1, t2, t3, noPause) => Toggled(s, t1, t2, t3, noPause)
    case Abort => s.(abort := true)
  }

  // ---------- what every step keeps ----------

  /** The slot of queued picture number k. */
  function Queued(s: State, k: nat): nat {
    (s.rindex + k) % RING
  }

  /** The pictures in the queue, in order. */
  function Contents(s: State): seq<int>
    requires |s.slots| == RING && s.rindex < RING && s.size <= RING
  {
    if s.size == 0 then []
    else if s.size == 1 then [s.slots[s.rindex].id]
    else [s.slots[s.rindex].id, s.slots[Queued(s, 1)].id]
  }

  /** The pictures in the queue are due in order, none later than the frame timer; while the
      queue is being flushed they are all due at once. */
  ghost predicate InOrder(s: State)
    requires Shaped(s)
  {
    && (s.size > 0 ==> s.slots[s.rindex].target <= s.frameTimer)
    && (s.size > 1 ==> s.slots[s.rindex].target <= s.slots[Queued(s, 1)].target <= s.frameTimer)
    && (s.pc.Flushing? || s.pc.Flushed? ==> forall i :: 0 <= i < RING ==> s.slots[i].target == 0.0)
  }

  ghost predicate Inv(s: State) {
    && Shaped(s)
    && s.windex == (s.rindex + s.size + if s.pc.Filled? then 1 else 0) % RING
    && (s.pc.Filling? || s.pc.Filled? ==> s.size < RING)
    && 0.0 <= s.clock && 0.0 <= s.frameTimer && 0.0 <= s.lastDelay
    && s.currentPts - s.drift <= s.clock
    && InOrder(s)
    && s.queued == s.taken + Contents(s)
  }

  /** The state after the player structure is cleared. */
  function Start(clock: real): State {
    State([Slot(0, 0.0, 0.0), Slot(0, 0.0, 0.0)], 0, 0, 0, Outside, 0.0, 0.0, 0.0, 0.0, 0.0, 0.0, 0.0, false, false,
          clock, [], [], [])
  }

  lemma DelayNotNegative(s: State, pts: real, slave: bool, diff: real)
    requires s.lastDelay >= 0.0
    ensures var t := TargetTime(s, pts, slave, diff); t.frameTimer >= s.frameTimer && t.lastDelay >= 0.0
  {
  }

  /** Taking a picture keeps the invariant. */
  lemma DequeueKeeps(s: State)
    requires Inv(s) && s.size > 0
    ensures Inv(Dequeued(s))
  {
  }

  lemma ShownKeeps(s: State, time: real, late: bool)
    requires Inv(s) && s.size > 0 && time >= s.clock
    ensures Inv(s.(clock := time)) && Inv(Shown(s, time)) && Inv(Slowed(Shown(s, time), late))
    ensures Slowed(Shown(s, time), late).size == s.size && Slowed(Shown(s, time), late).clock == time
  {
    hide Inv;
    InvShapes(s);
    LaterKeeps(s, time);
    ClockKeeps(s.(clock := time), s.slots[s.rindex].pts, s.slots[s.rindex].pts - time, s.skip);
    ClockKeeps(s.(clock := time), s.slots[s.rindex].pts, s.slots[s.rindex].pts - time, s.skip * (1.0 + SKIP_FACTOR));
  }

  lemma LaterKeeps(s: State, time: real)
    requires Inv(s) && time >= s.clock
    ensures Inv(s.(clock := time))
  {
  }

  /** The video clock may show any time that has come, and skipping is free. */
  lemma ClockKeeps(s: State, pts: real, drift: real, skip: real)
    requires Inv(s) && pts - drift <= s.clock
    ensures Inv(s.(currentPts := pts, drift := drift)) && Inv(s.(currentPts := pts, drift := drift, skip := skip))
  {
  }

  lemma InvShapes(s: State)
    requires Inv(s)
    ensures Shaped(s)
  {
  }

  lemma LookKeeps(s: State, time: real, frameDrop: bool)
    requires Inv(s) && s.size > 0 && time >= s.clock
    ensures var s1 := Looked(s, time, frameDrop).0; Inv(s1) && s1.clock == time
  {
    hide Inv, InOrder, Shown, Slowed, NextTarget;
    InvShapes(s);
    var late := frameDrop && time > NextTarget(Shown(s, time));
    ShownKeeps(s, time, late);
    DequeueKeeps(Slowed(Shown(s, time), late));
    DisplayKeeps(Dequeued(Slowed(Shown(s, time), late)), s.slots[s.rindex].id);
  }

  lemma DisplayKeeps(s: State, id: int)
    requires Inv(s)
    ensures Inv(s.(shown := s.shown + [id]))
  {
  }

  lemma {:induction false} RefreshKeeps(s: State, times: nat -> real, frameDrop: bool, k: nat)
    requires Inv(s) && (forall j: nat :: times(j) <= times(j + 1)) && times(k) >= s.clock
    ensures Shaped(s) && Inv(Refreshed(s, times, frameDrop, k))
    decreases s.size
  {
    hide Inv, Looked;
    InvShapes(s);
    if s.size > 0 {
      LookKeeps(s, times(k), frameDrop);
      var (s1, again) := Looked(s, times(k), frameDrop);
      assert times(k) <= times(k + 1);
      if again {
        RefreshKeeps(s1, times, frameDrop, k + 1);
      }
    }
  }

  lemma EnqueueKeeps(s: State, slave: bool, diff: real)
    requires Inv(s) && s.pc.Filled?
    ensures Inv(Step(s, Enqueue(slave, diff)))
  {
    hide Nominal, Corrected;
    DelayNotNegative(s, s.slots[Next(s.windex)].pts, slave, diff);
  }

  lemma WriteKeeps(s: State)
    requires Inv(s) && s.pc.Filling?
    ensures Inv(Step(s, WriteSlot))
  {
  }

  lemma PauseKeeps(s: State, t1: real, t2: real, t3: real, noPause: bool)
    requires Inv(s) && s.clock <= t1 <= t2 <= t3
    ensures Inv(Toggled(s, t1, t2, t3, noPause))
  {
  }

  lemma FlushKeeps(s: State, a: Action)
    requires Inv(s) && Enabled(s, a) && (a.FlushStart? || a.FlushWaited? || a.FlushReset?)
    ensures Inv(Step(s, a))
  {
    hide Refreshed, Toggled, TargetTime;
  }

  lemma OtherStepKeeps(s: State, a: Action)
    requires Inv(s) && Enabled(s, a) && !a.Refresh? && !a.Enqueue? && !a.Pause? && !a.WriteSlot?
    requires !a.FlushStart? && !a.FlushWaited? && !a.FlushReset?
    ensures Inv(Step(s, a))
  {
    hide Refreshed, Toggled, TargetTime;
  }

  /** Every step keeps the invariant. */
  lemma StepKeeps(s: State, a: Action)
    requires Inv(s) && Enabled(s, a) && Timely(s, a)
    ensures Shaped(s) && Inv(Step(s, a))
  {
    hide Inv, Refreshed, Toggled;
    InvShapes(s);
    match a
    case Refresh(times, frameDrop) => RefreshKeeps(s, times, frameDrop, 0);
    case Enqueue(slave, diff) => EnqueueKeeps(s, slave, diff);
    case WriteSlot => WriteKeeps(s);
    case Pause(t1, t2, t3, noPause) => PauseKeeps(s, t1, t2, t3, noPause);
    case FlushStart => FlushKeeps(s, a);
    case FlushWaited => FlushKeeps(s, a);
    case FlushReset => FlushKeeps(s, a);
    case _ => OtherStepKeeps(s, a);
  }

  // ---------- runs ----------

  /** The states of a run, one step apart. */
  ghost predicate IsRun(clock: real, states: seq<State>, actions: seq<Action>) {
    && |states| == |actions| + 1 && clock >= 0.0 && states[0] == Start(clock)
    && forall k :: 0 <= k < |actions| ==>
         Shaped(states[k]) && Enabled(states[k], actions[k]) && Timely(states[k], actions[k])
         && states[k + 1] == Step(states[k], actions[k])
  }

  lemma StartIsOk(clock: real)
    requires clock >= 0.0
    ensures Inv(Start(clock))
  {
  }

  lemma {:induction false} RunKeepsInv(clock: real, states: seq<State>, actions: seq<Action>, k: nat)
    requires IsRun(clock, states, actions) && k <= |actions|
    ensures Inv(states[k])
  {
    hide Inv, Step, Enabled, Timely;
    if k == 0 {
      StartIsOk(clock);
    } else {
      RunKeepsInv(clock, states, actions, k - 1);
      StepKeeps(states[k - 1], actions[k - 1]);
    }
  }

  /** Outside the update of the indices, the write index is just behind the queued pictures. */
  lemma WriteIndexFollows(clock: real, states: seq<State>, actions: seq<Action>, k: nat)
    requires IsRun(clock, states, actions) && k <= |actions| && !states[k].pc.Filled?
    ensures states[k].windex == (states[k].rindex + states[k].size) % RING
  {
    RunKeepsInv(clock, states, actions, k);
  }

  /** The video thread never writes a slot that is queued for display. */
  lemma WrittenSlotIsFree(clock: real, states: seq<State>, actions: seq<Action>, k: nat, i: nat)
    requires IsRun(clock, states, actions) && k < |actions| && actions[k].WriteSlot? && i < states[k].size
    ensures states[k].windex != Queued(states[k], i)
    ensures Shaped(states[k + 1]) && Contents(states[k + 1]) == Contents(states[k])
  {
    RunKeepsInv(clock, states, actions, k);
  }

  /** When two pictures are queued, the second is never due before the first, across pauses and
      seeks; this is what the refresh asserts. */
  lemma NextPictureIsLater(clock: real, states: seq<State>, actions: seq<Action>, k: nat)
    requires IsRun(clock, states, actions) && k <= |actions| && states[k].size > 1
    ensures Shaped(states[k])
    ensures states[k].slots[(states[k].rindex + 1) % RING].target >= states[k].slots[states[k].rindex].target
  {
    RunKeepsInv(clock, states, actions, k);
  }

  /** Pictures leave the ring in the order in which they were queued, each at most once. */
  lemma TakenInOrder(clock: real, states: seq<State>, actions: seq<Action>, k: nat)
    requires IsRun(clock, states, actions) && k <= |actions|
    ensures states[k].taken <= states[k].queued
  {
    RunKeepsInv(clock, states, actions, k);
  }

  // ---------- what a refresh shows and drops ----------

  /** When a picture without another one behind it is over: the picture that is decoded next is due. */
  function Over(s: State, p: Slot): real {
    p.target + (s.videoClock - p.pts)
  }

  /** What becomes of the queue at a refresh whose first two readings of the clock are t0 and t1. */
  ghost predicate Refreshes(s: State, t0: real, t1: real, frameDrop: bool, r: State)
    requires Shaped(s)
  {
    var first, second := s.slots[Queued(s, 0)], s.slots[Queued(s, 1)];
    if s.size == 0 || t0 < first.target then r.taken == s.taken && r.shown == s.shown
    else if s.size == 2 && frameDrop && t0 > second.target then
      && r.taken == s.taken + [first.id, second.id]
      && r.shown == s.shown + (if t1 > Over(s, second) + 0.5 then [] else [second.id])
      && r.currentPts == second.pts && r.drift == second.pts - t1
    else
      && r.taken == s.taken + [first.id]
      && r.shown == s.shown + (if s.size == 1 && frameDrop && t0 > Over(s, first) + 0.5 then [] else [first.id])
      && r.currentPts == first.pts && r.drift == first.pts - t0
  }

  /** A refresh takes the first picture if and only if it is due; it goes on to the second if and only if
      frames may be dropped and the second is overdue too, and shows the last one it takes unless
      that is more than half a second over. */
  lemma RefreshTakesDue(clock: real, states: seq<State>, actions: seq<Action>, k: nat)
    requires IsRun(clock, states, actions) && k < |actions| && actions[k].Refresh?
    ensures Shaped(states[k])
    ensures Refreshes(states[k], actions[k].times(0), actions[k].times(1), actions[k].frameDrop, states[k + 1])
  {
    hide Inv, Refreshed, Looked;
    RunKeepsInv(clock, states, actions, k);
    InvShapes(states[k]);
    var s, times, frameDrop := states[k], actions[k].times, actions[k].frameDrop;
    assert states[k + 1] == Refreshed(s, times, frameDrop, 0);
    RefreshTwice(s, times, frameDrop);
    if s.size > 0 {
      LookIs(s, times(0), frameDrop);
      var (s1, again) := Looked(s, times(0), frameDrop);
      if again && s.size > 1 {
        assert times(0) <= times(1);
        LookIs(s1, times(1), frameDrop);
      }
    }
  }

  /** A refresh looks at most once at each picture. */
  lemma RefreshTwice(s: State, times: nat -> real, frameDrop: bool)
    requires Shaped(s)
    ensures Refreshed(s, times, frameDrop, 0)
         == if s.size == 0 then s
            else
              var (s1, again) := Looked(s, times(0), frameDrop);
              if again && s.size > 1 then Looked(s1, times(1), frameDrop).0 else s1
  {
    hide Looked;
    if s.size > 0 {
      var (s1, again) := Looked(s, times(0), frameDrop);
      if again {
        RefreshOnce(s1, times, frameDrop, 1);
      }
    }
  }

  lemma RefreshOnce(s: State, times: nat -> real, frameDrop: bool, k: nat)
    requires |s.slots| == RING && s.rindex < RING && s.size <= 1
    ensures Refreshed(s, times, frameDrop, k) == if s.size == 0 then s else Looked(s, times(k), frameDrop).0
  {
    hide Looked;
    if s.size == 1 {
      var (s1, again) := Looked(s, times(k), frameDrop);
      if again {
        assert Refreshed(s1, times, frameDrop, k + 1) == s1;
      }
    }
  }

  /** One look, when there is a picture. */
  lemma LookIs(s: State, time: real, frameDrop: bool)
    requires Shaped(s) && s.size > 0
    ensures var first, second := s.slots[Queued(s, 0)], s.slots[Queued(s, 1)];
      var (r, again) := Looked(s, time, frameDrop);
      var over := if s.size == 2 then second.target else Over(s, first);
      && (again <==> time >= first.target && frameDrop && time > over && (s.size == 2 || time > over + 0.5))
      && (time < first.target ==> r == s.(clock := time))
      && (time >= first.target ==>
            && r.taken == s.taken + [first.id] && r.currentPts == first.pts && r.drift == first.pts - time
            && r.shown == (if again then s.shown else s.shown + [first.id])
            && r.slots == s.slots && r.rindex == Queued(s, 1) && r.size == s.size - 1
            && r.windex == s.windex && r.videoClock == s.videoClock)
  {
  }

  /** If no refresh may drop frames, every picture that is taken is shown, in its order. */
  lemma {:induction false} NothingDropped(clock: real, states: seq<State>, actions: seq<Action>, k: nat)
    requires IsRun(clock, states, actions) && k <= |actions|
    requires forall i :: 0 <= i < k && actions[i].Refresh? ==> !actions[i].frameDrop
    ensures states[k].shown == states[k].taken
  {
    hide Refreshed, Inv, Enabled, Timely;
    if k > 0 {
      NothingDropped(clock, states, actions, k - 1);
      assert states[k - 1 + 1] == Step(states[k - 1], actions[k - 1]);
      if actions[k - 1].Refresh? {
        RefreshTakesDue(clock, states, actions, k - 1);
      }
    }
  }

  /** When the picture that is queued becomes due: as long after the frame timer as its time stamp is
      after the one before it, as long as that is between 0 and 10 seconds. If the video follows another
      clock, which is less than 10 seconds away, it is due at once when the video is behind by the
      delay and by 10 ms, and after twice the delay when it is ahead by as much. */
  lemma QueuedTarget(clock: real, states: seq<State>, actions: seq<Action>, k: nat)
    requires IsRun(clock, states, actions) && k < |actions| && actions[k].Enqueue?
    ensures Shaped(states[k]) && DueAfter(states[k], actions[k].slave, actions[k].diff, states[k + 1])
  {
    hide Inv, DueAfter, Step, TargetTime;
    RunKeepsInv(clock, states, actions, k);
    FillingRoom(states[k]);
    var a := actions[k];
    assert states[k + 1] == Step(states[k], a);
    assert a == Enqueue(a.slave, a.diff);
    EnqueueIs(states[k], a.slave, a.diff);
  }

  lemma FillingRoom(s: State)
    requires Inv(s)
    ensures Shaped(s) && (s.pc.Filled? ==> s.size < RING) && s.lastDelay >= 0.0
  {
  }

  ghost predicate DueAfter(s: State, slave: bool, diff: real, r: State)
    requires Shaped(s)
  {
    var i := if s.windex == 0 then 1 else 0;
    var gap := s.slots[i].pts - s.lastPts;
    var delay := if 0.0 < gap < 10.0 then gap else s.lastDelay;
    && Shaped(r) && r.queued == s.queued + [s.slots[i].id]
    && r.slots[i].target == r.frameTimer && r.lastPts == s.slots[i].pts && r.lastDelay == delay
    && r.frameTimer == s.frameTimer + Synchronized(delay, slave, diff)
  }

  /** The delay until the next picture, diff being how much the video is ahead of the other clock. */
  function Synchronized(delay: real, slave: bool, diff: real): real {
    if !slave || diff <= -10.0 || diff >= 10.0 then delay
    else if -delay < diff < delay || -0.01 < diff < 0.01 then delay
    else if diff < 0.0 then 0.0
    else delay + delay
  }

  lemma EnqueueIs(s: State, slave: bool, diff: real)
    requires Shaped(s) && s.pc.Filled? && s.size < RING && s.lastDelay >= 0.0
    ensures DueAfter(s, slave, diff, Step(s, Enqueue(slave, diff)))
  {
    hide Nominal, Corrected;
    var i := if s.windex == 0 then 1 else 0;
    var delay := Nominal(s.slots[i].pts, s.lastPts, s.lastDelay);
    NominalIs(s.slots[i].pts, s.lastPts, s.lastDelay);
    CorrectedIs(delay, slave, diff);
  }

  lemma NominalIs(pts: real, lastPts: real, lastDelay: real)
    ensures Nominal(pts, lastPts, lastDelay) == if 0.0 < pts - lastPts < 10.0 then pts - lastPts else lastDelay
    ensures lastDelay >= 0.0 ==> Nominal(pts, lastPts, lastDelay) >= 0.0
  {
  }

  lemma CorrectedIs(delay: real, slave: bool, diff: real)
    requires delay >= 0.0
    ensures Corrected(delay, slave, diff) == Synchronized(delay, slave, diff)
  {
  }

  // ---------- the sections in place ----------

  class PlayerState {
    const pictq: array<Slot>
    var pictqRindex: nat
    var pictqWindex: nat
    var pictqSize: nat
    var frameTimer: real
    var frameLastPts: real
    var frameLastDelay: real
    var videoCurrentPts: real
    var videoCurrentPtsDrift: real
    var videoClock: real
    var skipFrames: real
    var paused: bool
    var abortRequest: bool
    var pc: Pc
    ghost var clock: real
    ghost var queued: seq<int>
    ghost var taken: seq<int>
    ghost var shown: seq<int>

    constructor (now: real)
      ensures fresh(pictq) && View() == Start(now)
    {
      pictq := new Slot[RING](_ => Slot(0, 0.0, 0.0));
      pictqRindex, pictqWindex, pictqSize := 0, 0, 0;
      frameTimer, frameLastPts, frameLastDelay := 0.0, 0.0, 0.0;
      videoCurrentPts, videoCurrentPtsDrift, videoClock, skipFrames := 0.0, 0.0, 0.0, 0.0;
      paused, abortRequest, pc := false, false, Outside;
      clock, queued, taken, shown := now, [], [], [];
      new;
      assert pictq[..] == Start(now).slots;
    }

    ghost function View(): State
      reads this, pictq
    {
      State(pictq[..], pictqRindex, pictqWindex, pictqSize, pc, frameTimer, frameLastPts, frameLastDelay,
            videoCurrentPts, videoCurrentPtsDrift, videoClock, skipFrames, paused, abortRequest, clock, queued, taken,
            shown)
    }

    /** queue_picture after the wait: the picture goes into the slot at windex. */
    method CopyPicture(id: int, pts: real)
      requires Inv(View()) && pc == Filling(id, pts)
      modifies this, pictq
      ensures View() == Step(old(View()), WriteSlot) && Inv(View())
    {
      WriteKeeps(View());
      pictq[pictqWindex] := pictq[pictqWindex].(id := id, pts := pts);
      pictqWindex := pictqWindex + 1;
      if pictqWindex == RING {
        pictqWindex := 0;
      }
      pc := Filled;
    }

    /** compute_target_time. */
    method ComputeTargetTime(pts: real, slave: bool, diff: real) returns (target: real)
      modifies this`frameLastDelay, this`frameLastPts, this`frameTimer
      ensures View() == TargetTime(old(View()), pts, slave, diff) && target == frameTimer
    {
      var delay := pts - frameLastPts;
      if delay <= 0.0 || delay >= 10.0 {
        delay := frameLastDelay;
      } else {
        frameLastDelay := delay;
      }
      frameLastPts := pts;
      if slave {
        var syncThreshold := Max(SYNC_THRESHOLD, delay);
        if Abs(diff) < NOSYNC_THRESHOLD {
          if diff <= -syncThreshold {
            delay := 0.0;
          } else if diff >= syncThreshold {
            delay := 2.0 * delay;
          }
        }
      }
      frameTimer := frameTimer + delay;
      return frameTimer;
    }

    /** queue_picture's last section: the target time, then the size. */
    method FinishPicture(slave: bool, diff: real)
      requires Inv(View()) && pc.Filled?
      modifies this, pictq
      ensures View() == Step(old(View()), Enqueue(slave, diff)) && Inv(View())
    {
      EnqueueKeeps(View(), slave, diff);
      hide Inv, Nominal, Corrected;
      InvShapes(View());
      var i := if pictqWindex == 0 then RING - 1 else pictqWindex - 1;
      var target := ComputeTargetTime(pictq[i].pts, slave, diff);
      pictq[i] := pictq[i].(target := target);
      pictqSize := pictqSize + 1;
      queued := queued + [pictq[i].id];
      pc := Outside;
    }

    /** The flush branch up to its wait: no picture in the queue is to be waited for. */
    method ZeroTargets()
      requires Inv(View()) && pc.Outside?
      modifies this, pictq
      ensures View() == Step(old(View()), FlushStart) && Inv(View())
    {
      FlushKeeps(View(), FlushStart);
      hide Inv;
      for i := 0 to pictq.Length
        modifies pictq
        invariant forall k :: 0 <= k < pictq.Length ==>
          pictq[k] == if k < i then old(pictq[k]).(target := 0.0) else old(pictq[k])
      {
        pictq[i] := pictq[i].(target := 0.0);
      }
      assert pictq[..] == Zeroed(old(pictq[..]));
      pc := Flushing;
    }

    /** pictq_rindex and pictq_size, once a picture was shown or dropped. */
    method TakePicture()
      requires Shaped(View()) && pictqSize > 0
      modifies this
      ensures View() == Dequeued(old(View()))
    {
      taken := taken + [pictq[pictqRindex].id];
      pictqRindex := pictqRindex + 1;
      if pictqRindex == RING {
        pictqRindex := 0;
      }
      pictqSize := pictqSize - 1;
    }

    /** video_refresh_timer: its assertion on the order of the pictures never fails. */
    method VideoRefreshTimer(times: nat -> real, frameDrop: bool)
      requires Inv(View()) && Rising(times, clock)
      modifies this
      ensures View() == Step(old(View()), Refresh(times, frameDrop)) && Inv(View())
    {
      hide Inv, Looked;
      InvShapes(View());
      ghost var s0 := View();
      var k, again := 0, true;
      while again && pictqSize > 0
        invariant Inv(View()) && Shaped(View()) && (again ==> clock <= times(k))
        invariant Refreshed(s0, times, frameDrop, 0) == if again then Refreshed(View(), times, frameDrop, k) else View()
        decreases if again then pictqSize + 1 else 0
      {
        assert times(k) <= times(k + 1);
        again := LookAtPicture(times(k), frameDrop);
        k := k + 1;
        InvShapes(View());
      }
    }

    /** The first picture becomes the current one. */
    method ShowFirst(time: real)
      requires Shaped(View())
      modifies this
      ensures Shaped(old(View())) && View() == Shown(old(View()), time)
    {
      clock := time;
      videoCurrentPts := pictq[pictqRindex].pts;
      videoCurrentPtsDrift := videoCurrentPts - time;
    }

    /** The decoder is made to skip more frames. */
    method SkipMore()
      modifies this
      ensures View() == Slowed(old(View()), true)
    {
      skipFrames := skipFrames * (1.0 + SKIP_FACTOR);
    }

    /** Shows the first picture if it is due, or drops it. */
    method LookAtPicture(time: real, frameDrop: bool) returns (again: bool)
      requires Inv(View()) && pictqSize > 0 && time >= clock
      modifies this
      ensures Shaped(old(View())) && (View(), again) == Looked(old(View()), time, frameDrop) && Inv(View())
      ensures clock == time && (again ==> pictqSize == old(pictqSize) - 1)
    {
      hide Inv, NextTarget, Shown, Slowed, Dequeued;
      InvShapes(View());
      LookKeeps(View(), time, frameDrop);
      var vp := pictq[pictqRindex];
      ShownKeeps(View(), time, false);
      if time < vp.target {
        clock := time;
        return false;
      }
      ghost var s := View();
      ShowFirst(time);
      var nextTarget := DueNext();
      var late := frameDrop && time > nextTarget;
      again := late && (pictqSize > 1 || time > nextTarget + 0.5);
      if late {
        SkipMore();
      }
      TakePicture();
      if !again {
        shown := shown + [vp.id];
      }
    }

    /** When the picture after the first is due. */
    method DueNext() returns (nextTarget: real)
      requires Inv(View()) && pictqSize > 0
      ensures Shaped(View()) && nextTarget == NextTarget(View())
    {
      var vp := pictq[pictqRindex];
      if pictqSize > 1 {
        var nextvp := pictq[(pictqRindex + 1) % RING];
        assert nextvp.target >= vp.target;
        nextTarget := nextvp.target;
      } else {
        nextTarget := vp.target + videoClock - vp.pts;
      }
    }

    /** stream_pause, reading the clock three times. */
    method StreamPause(t1: real, t2: real, t3: real, noPause: bool)
      requires Inv(View()) && clock <= t1 <= t2 <= t3
      modifies this
      ensures View() == Toggled(old(View()), t1, t2, t3, noPause) && Inv(View())
    {
      PauseKeeps(View(), t1, t2, t3, noPause);
      hide Inv;
      if paused {
        frameTimer := frameTimer + t1 + videoCurrentPtsDrift - videoCurrentPts;
        if !noPause {
          videoCurrentPts := videoCurrentPtsDrift + t2;
        }
        videoCurrentPtsDrift := videoCurrentPts - t3;
        clock := t3;
      }
      paused := !paused;
    }
  }
}
