/** The reader threads of avconv, one an input file, and the main thread that takes their packets
    and finally stops them (input_thread, get_input_packet_mt and free_input_threads of
    avtools/avconv.c), as a machine over all interleavings. */
module InputThread {

  const FIFO_SIZE: nat := 8

  /** Where a reader thread is. It holds a packet from reading it until writing it. */
  datatype Pc =
    | Check                            // at the loop condition
    | Read                             // in av_read_frame
    | Want(p: int)                     // about to take the lock, for the first time or after a wait
    | Test(p: int)                     // holds the lock, looks for space
    | Waiting(p: int, woken: bool)     // in pthread_cond_wait, the lock released
    | Write(p: int)                    // holds the lock, there is space
    | Unlock                           // has written, still holds the lock
    | Exit                             // has left the loop
    | Done                             // has set finished and returned

  datatype Owner = Free | Reader | Main

  /** One input file. The log holds all packets its thread has read. */
  datatype File = File(pc: Pc, lock: Owner, fifo: seq<int>, finished: bool, joined: bool,
                       log: seq<int>, delivered: seq<int>, freed: seq<int>, joins: nat)

  /** Where the main thread is: outside, in get_input_packet_mt for a file, or in
      free_input_threads at a file. */
  datatype MainPc =
    | Outside
    | Getting(i: nat)    // holds the lock of file i
    | Stopping(i: nat)   // at the loop over the files
    | Draining(i: nat)   // holds the lock, empties the queue
    | Joining(i: nat)    // in pthread_join
    | Cleaning(i: nat)   // empties the queue after the join
    | Stopped            // free_input_threads has returned

  datatype State = State(files: seq<File>, transcodingFinished: bool, main: MainPc)

  datatype Action =
    | CheckLoop(i: nat)
    | GetPacket(i: nat, p: int)   // av_read_frame returns a packet
    | TryAgain(i: nat)            // av_read_frame returns EAGAIN
    | EndOfFile(i: nat)           // av_read_frame returns an error
    | TakeLock(i: nat)
    | TestSpace(i: nat)
    | Wake(i: nat)                // returns from the wait after a signal
    | WakeSpuriously(i: nat)      // returns from the wait without one
    | WriteFifo(i: nat)
    | ReleaseLock(i: nat)
    | Finish(i: nat)
    | MainLock(i: nat)            // get_input_packet_mt takes the lock
    | MainGet(i: nat)             // reads a packet, or reports EOF or EAGAIN; then unlocks
    | MainStop                    // sets transcoding_finished
    | MainLockDrain(i: nat)
    | MainDrain(i: nat)           // frees one packet
    | MainSignal(i: nat)          // queue empty: signals and unlocks
    | MainJoin(i: nat)
    | MainClean(i: nat)
    | MainNext(i: nat)            // queue empty, or the file was joined before: on to the next
    | MainReturn

  /** What get_input_packet_mt returns. */
  datatype Got = Packet(p: int) | Eof | Again

  function Signalled(pc: Pc): Pc {
    if pc.Waiting? then Waiting(pc.p, true) else pc
  }

  // ---------- the steps ----------

  /** A step of the reader thread of one file. */
  function ReaderStep(f: File, flag: bool, a: Action): (r: File)
    requires ReaderEnabled(f, a)
  {
    match a
    case CheckLoop(_) => f.(pc := if flag then Exit else Read)
    case GetPacket(_, p) => f.(pc := Want(p), log := f.log + [p])
    case TryAgain(_) => f.(pc := Check)
    case EndOfFile(_) => f.(pc := Exit)
    case TakeLock(_) => f.(pc := Test(f.pc.p), lock := Reader)
    case TestSpace(_) => if |f.fifo| < FIFO_SIZE then f.(pc := Write(f.pc.p))
        else f.(pc := Waiting(f.pc.p, false), lock := Free)
    case Wake(_) => f.(pc := Want(f.pc.p))
    case WakeSpuriously(_) => f.(pc := Want(f.pc.p))
    case WriteFifo(_) => f.(pc := Unlock, fifo := f.fifo + [f.pc.p])
    case ReleaseLock(_) => f.(pc := Check, lock := Free)
    case Finish(_) => f.(pc := Done, finished := true)
    case _ => f
  }

  predicate ReaderEnabled(f: File, a: Action) {
    match a
    case CheckLoop(_) => f.pc.Check?
    case GetPacket(_, _) => f.pc.Read?
    case TryAgain(_) => f.pc.Read?
    case EndOfFile(_) => f.pc.Read?
    case TakeLock(_) => f.pc.Want? && f.lock.Free?
    case TestSpace(_) => f.pc.Test?
    case Wake(_) => f.pc.Waiting? && f.pc.woken
    case WakeSpuriously(_) => f.pc.Waiting?
    case WriteFifo(_) => f.pc.Write?
    case ReleaseLock(_) => f.pc.Unlock?
    case Finish(_) => f.pc.Exit?
    case _ => false
  }

  predicate IsReader(a: Action) {
    a.CheckLoop? || a.GetPacket? || a.TryAgain? || a.EndOfFile? || a.TakeLock? || a.TestSpace? || a.Wake?
    || a.WakeSpuriously? || a.WriteFifo? || a.ReleaseLock? || a.Finish?
  }

  /** What get_input_packet_mt finds, and the file after it has unlocked. */
  function GetResult(f: File): (Got, File) {
    if f.fifo != [] then
      (Packet(f.fifo[0]),
       f.(fifo := f.fifo[1..], delivered := f.delivered + [f.fifo[0]], pc := Signalled(f.pc), lock := Free))
    else (if f.finished then Eof else Again, f.(lock := Free))
  }

  /** Frees the first packet of the queue. */
  function FreeOne(f: File): File
    requires f.fifo != []
  {
    f.(fifo := f.fifo[1..], freed := f.freed + [f.fifo[0]])
  }

  predicate MainEnabled(s: State, a: Action) {
    match a
    case MainLock(i) => s.main == Outside && i < |s.files| && s.files[i].lock.Free?
    case MainGet(i) => s.main == Getting(i) && i < |s.files|
    case MainStop => s.main == Outside || s.main == Stopped
    case MainLockDrain(i) => s.main == Stopping(i) && i < |s.files| && !s.files[i].joined && s.files[i].lock.Free?
    case MainDrain(i) => s.main == Draining(i) && i < |s.files| && s.files[i].fifo != []
    case MainSignal(i) => s.main == Draining(i) && i < |s.files| && s.files[i].fifo == []
    case MainJoin(i) => s.main == Joining(i) && i < |s.files| && s.files[i].pc.Done?
    case MainClean(i) => s.main == Cleaning(i) && i < |s.files| && s.files[i].fifo != []
    case MainNext(i) =>
      i < |s.files| && ((s.main == Stopping(i) && s.files[i].joined)
          || (s.main == Cleaning(i) && s.files[i].fifo == []))
    case MainReturn => s.main == Stopping(|s.files|)
    case _ => false
  }

  function MainStep(s: State, a: Action): State
    requires MainEnabled(s, a)
  {
    match a
    case MainLock(i) => s.(files := s.files[i := s.files[i].(lock := Main)], main := Getting(i))
    case MainGet(i) => s.(files := s.files[i := GetResult(s.files[i]).1], main := Outside)
    case MainStop => s.(transcodingFinished := true, main := Stopping(0))
    case MainLockDrain(i) => s.(files := s.files[i := s.files[i].(lock := Main)], main := Draining(i))
    case MainDrain(i) => s.(files := s.files[i := FreeOne(s.files[i])])
    case MainSignal(i) =>
      s.(files := s.files[i := s.files[i].(pc := Signalled(s.files[i].pc), lock := Free)], main := Joining(i))
    case MainJoin(i) => s.(files := s.files[i := s.files[i].(joined := true, joins := s.files[i].joins + 1)],
                           main := Cleaning(i))
    case MainClean(i) => s.(files := s.files[i := FreeOne(s.files[i])])
    case MainNext(i) => s.(main := Stopping(i + 1))
    case MainReturn => s.(main := Stopped)
    case _ => s
  }

  predicate Enabled(s: State, a: Action) {
    if IsReader(a) then a.i < |s.files| && ReaderEnabled(s.files[a.i], a) else MainEnabled(s, a)
  }

  function Step(s: State, a: Action): State
    requires Enabled(s, a)
  {
    if IsReader(a) then s.(files := s.files[a.i := ReaderStep(s.files[a.i], s.transcodingFinished, a)])
    else MainStep(s, a)
  }

  /** The state after init_input_threads, for n files. */
  function Start(n: nat): State {
    State(seq(n, _ => File(Check, Free, [], false, false, [], [], [], 0)), false, Outside)
  }

  // ---------- what every step keeps ----------

  /** The packet a reader holds. */
  function InHand(pc: Pc): seq<int> {
    match pc
    case Want(p) => [p]
    case Test(p) => [p]
    case Waiting(p, _) => [p]
    case Write(p) => [p]
    case _ => []
  }

  predicate HoldsLock(pc: Pc) {
    pc.Test? || pc.Write? || pc.Unlock?
  }

  /** Between reading a packet and having written it, or before the next loop condition. */
  predicate InLoopBody(pc: Pc) {
    pc.Read? || InHand(pc) != []
  }

  /** Has the main thread emptied the file's queue and not joined its thread yet? */
  predicate Emptied(main: MainPc, i: nat) {
    main == Joining(i)
  }

  /** What holds of one file at all times. */
  ghost predicate FileOk(f: File, i: nat, main: MainPc) {
    // every packet read is delivered, freed, queued or in the reader's hands, in order
    && f.log == f.delivered + f.freed + f.fifo + InHand(f.pc)
    && |f.fifo| <= FIFO_SIZE && (f.pc.Write? ==> |f.fifo| < FIFO_SIZE)
    && (f.lock == Reader <==> HoldsLock(f.pc))
    && (f.lock == Main <==> main == Getting(i) || main == Draining(i))
    && (f.finished <==> f.pc.Done?)
    // no wake-up is lost
    && (f.pc.Waiting? && !f.pc.woken ==> |f.fifo| == FIFO_SIZE || main == Draining(i))
    && (f.joined ==> f.pc.Done?) && f.joins == (if f.joined then 1 else 0)
    && (f.freed != [] ==> f.joined || main == Draining(i) || main == Joining(i))
    // after the queue was emptied the reader writes at most once more
    && (Emptied(main, i) ==> !(f.pc.Waiting? && !f.pc.woken) && |f.fifo| <= 1 && (f.fifo != [] ==> !InLoopBody(f.pc)))
  }

  /** Which files are joined. */
  ghost predicate JoinedOk(f: File, i: nat, main: MainPc) {
    && (main == Draining(i) || main == Joining(i) ==> !f.joined)
    && (main == Cleaning(i) ==> f.joined)
    && (f.joined && main != Cleaning(i) ==> f.fifo == [])
    && (match main
        case Stopping(k) => i < k ==> f.joined
        case Draining(k) => i < k ==> f.joined
        case Joining(k) => i < k ==> f.joined
        case Cleaning(k) => i < k ==> f.joined
        case Stopped => f.joined
        case Outside => !f.joined
        case Getting(_) => !f.joined)
  }

  predicate MainInRange(main: MainPc, n: nat) {
    match main
    case Outside => true
    case Stopped => true
    case Stopping(i) => i <= n
    case Getting(i) => i < n
    case Draining(i) => i < n
    case Joining(i) => i < n
    case Cleaning(i) => i < n
  }

  ghost predicate Inv(s: State) {
    && (s.transcodingFinished <==> !s.main.Outside? && !s.main.Getting?)
    && (forall i :: 0 <= i < |s.files| ==> FileOk(s.files[i], i, s.main) && JoinedOk(s.files[i], i, s.main))
    && MainInRange(s.main, |s.files|)
  }

  lemma StartIsOk(n: nat)
    ensures Inv(Start(n))
  {
  }

  ghost predicate Fine(f: File, i: nat, main: MainPc) {
    FileOk(f, i, main) && JoinedOk(f, i, main)
  }

  lemma ReaderKeepsFine(f: File, flag: bool, a: Action, i: nat, main: MainPc)
    requires Fine(f, i, main) && ReaderEnabled(f, a) && (flag <==> !main.Outside? && !main.Getting?)
    ensures Fine(ReaderStep(f, flag, a), i, main)
  {
  }

  lemma ReaderStepKeeps(s: State, a: Action)
    requires Inv(s) && IsReader(a) && Enabled(s, a)
    ensures Inv(Step(s, a))
  {
    hide FileOk, JoinedOk, ReaderStep, ReaderEnabled;
    var t := Step(s, a);
    forall i | 0 <= i < |t.files| ensures Fine(t.files[i], i, t.main) {
      assert Fine(s.files[i], i, s.main);
      if i == a.i {
        ReaderKeepsFine(s.files[i], s.transcodingFinished, a, i, s.main);
      }
    }
    forall i | 0 <= i < |t.files| ensures FileOk(t.files[i], i, t.main) && JoinedOk(t.files[i], i, t.main) {
      assert Fine(t.files[i], i, t.main);
    }
  }

  predicate IsAt(a: Action, i: nat) {
    match a
    case MainStop => false
    case MainReturn => false
    case _ => a.i == i
  }

  lemma MainKeepsOwn(s: State, a: Action, i: nat)
    requires Inv(s) && MainEnabled(s, a) && i < |s.files| && IsAt(a, i)
    ensures Fine(MainStep(s, a).files[i], i, MainStep(s, a).main)
  {
    hide FileOk, JoinedOk, MainStep;
    assert Fine(s.files[i], i, s.main);
    OwnFileOk(s, a, i);
    OwnJoinedOk(s, a, i);
  }

  lemma OwnFileOk(s: State, a: Action, i: nat)
    requires Inv(s) && MainEnabled(s, a) && i < |s.files| && IsAt(a, i)
    ensures FileOk(MainStep(s, a).files[i], i, MainStep(s, a).main)
  {
    assert Fine(s.files[i], i, s.main);
  }

  lemma OwnJoinedOk(s: State, a: Action, i: nat)
    requires Inv(s) && MainEnabled(s, a) && i < |s.files| && IsAt(a, i)
    ensures JoinedOk(MainStep(s, a).files[i], i, MainStep(s, a).main)
  {
    hide FileOk;
    assert JoinedOk(s.files[i], i, s.main);
  }

  lemma MainKeepsOthers(s: State, a: Action, i: nat)
    requires Inv(s) && MainEnabled(s, a) && i < |s.files| && !IsAt(a, i)
    ensures Fine(MainStep(s, a).files[i], i, MainStep(s, a).main)
  {
    assert Fine(s.files[i], i, s.main);
    assert MainStep(s, a).files[i] == s.files[i];
    OtherMain(s.files[i], i, s, a);
  }

  lemma OtherMain(f: File, i: nat, s: State, a: Action)
    requires Fine(f, i, s.main) && MainEnabled(s, a) && !IsAt(a, i) && i < |s.files|
    ensures Fine(f, i, MainStep(s, a).main)
  {
  }

  lemma MainStepKeeps(s: State, a: Action)
    requires Inv(s) && !IsReader(a) && Enabled(s, a)
    ensures Inv(Step(s, a))
  {
    hide FileOk, JoinedOk;
    var t := Step(s, a);
    forall i | 0 <= i < |t.files| ensures FileOk(t.files[i], i, t.main) && JoinedOk(t.files[i], i, t.main) {
      if IsAt(a, i) {
        MainKeepsOwn(s, a, i);
      } else {
        MainKeepsOthers(s, a, i);
      }
      assert Fine(t.files[i], i, t.main);
    }
  }

  /** Every step of every thread keeps the invariant. */
  lemma StepKeeps(s: State, a: Action)
    requires Inv(s) && Enabled(s, a)
    ensures Inv(Step(s, a))
  {
    if IsReader(a) {
      ReaderStepKeeps(s, a);
    } else {
      MainStepKeeps(s, a);
    }
  }

  // ---------- runs ----------

  /** The states of a run, one step apart. */
  ghost predicate IsRun(n: nat, states: seq<State>, actions: seq<Action>) {
    && |states| == |actions| + 1 && states[0] == Start(n)
    && forall k :: 0 <= k < |actions| ==> Enabled(states[k], actions[k]) && states[k + 1] == Step(states[k], actions[k])
  }

  lemma {:induction false} RunKeepsInv(n: nat, states: seq<State>, actions: seq<Action>, k: nat)
    requires IsRun(n, states, actions) && k <= |actions|
    ensures Inv(states[k]) && |states[k].files| == n
  {
    hide Inv, Step, Enabled;
    if k == 0 {
      StartIsOk(n);
      StartHasFiles(n);
    } else {
      RunKeepsInv(n, states, actions, k - 1);
      StepKeeps(states[k - 1], actions[k - 1]);
      FilesStay(states[k - 1], actions[k - 1]);
    }
  }

  lemma StartHasFiles(n: nat)
    ensures |Start(n).files| == n
  {
  }

  lemma FilesStay(s: State, a: Action)
    requires Enabled(s, a)
    ensures |Step(s, a).files| == |s.files|
  {
  }

  /** Packets reach the main thread in the order in which they were read. */
  lemma DeliveredInOrder(n: nat, states: seq<State>, actions: seq<Action>, k: nat, i: nat)
    requires IsRun(n, states, actions) && k <= |actions| && i < n
    ensures i < |states[k].files| && states[k].files[i].delivered <= states[k].files[i].log
  {
    RunKeepsInv(n, states, actions, k);
    assert FileOk(states[k].files[i], i, states[k].main);
  }

  /** A thread that has returned stays so, and reads nothing more. */
  lemma DoneStays(s: State, a: Action, i: nat)
    requires Enabled(s, a) && i < |s.files| && s.files[i].pc.Done?
    ensures i < |Step(s, a).files| && Step(s, a).files[i].pc.Done? && Step(s, a).files[i].log == s.files[i].log
  {
  }

  lemma {:induction false} DoneForever(n: nat, states: seq<State>, actions: seq<Action>, k: nat, m: nat, i: nat)
    requires IsRun(n, states, actions) && k <= m <= |actions| && i < |states[k].files| && states[k].files[i].pc.Done?
    ensures i < |states[m].files| && states[m].files[i].pc.Done? && states[m].files[i].log == states[k].files[i].log
    decreases m
  {
    hide Step, Enabled;
    if k < m {
      DoneForever(n, states, actions, k, m - 1, i);
      DoneStays(states[m - 1], actions[m - 1], i);
    }
  }

  /** The end of a file is reported only when its thread has returned and all its packets have
      been delivered; none comes later. */
  lemma EofIsLast(n: nat, states: seq<State>, actions: seq<Action>, k: nat, m: nat, i: nat)
    requires IsRun(n, states, actions) && k < |actions| && k <= m <= |actions| && actions[k] == MainGet(i)
    requires i < |states[k].files| && GetResult(states[k].files[i]).0 == Eof
    ensures i < |states[m].files| && states[k].files[i].pc.Done?
    ensures states[m].files[i].log == states[k].files[i].log == states[k].files[i].delivered
  {
    RunKeepsInv(n, states, actions, k);
    assert FileOk(states[k].files[i], i, states[k].main) && JoinedOk(states[k].files[i], i, states[k].main);
    DoneForever(n, states, actions, k, m, i);
  }

  /** When free_input_threads has returned, every thread was joined exactly once, and every
      packet that was read was either delivered or freed, each once. */
  lemma StoppedIsClean(n: nat, states: seq<State>, actions: seq<Action>, k: nat, i: nat)
    requires IsRun(n, states, actions) && k <= |actions| && states[k].main == Stopped && i < n
    ensures i < |states[k].files|
    ensures var f := states[k].files[i];
      f.pc.Done? && f.joined && f.joins == 1 && f.fifo == [] && f.log == f.delivered + f.freed
  {
    RunKeepsInv(n, states, actions, k);
    assert FileOk(states[k].files[i], i, states[k].main) && JoinedOk(states[k].files[i], i, states[k].main);
  }

  // ---------- shutdown ----------

  /** How many steps a reader can still take once the loop is to end. */
  function StepsLeft(pc: Pc): nat {
    match pc
    case Done => 0
    case Exit => 1
    case Check => 2
    case Unlock => 3
    case Write(_) => 4
    case Test(_) => 5
    case Want(_) => 6
    case Waiting(_, _) => 7
    case Read => 7
  }

  /** Whether the reader will still write a packet. */
  function WritesLeft(pc: Pc): nat {
    if InLoopBody(pc) then 1 else 0
  }

  /** While main waits to join a thread, each step of that thread brings it closer to its end,
      and no other step sends it back. */
  lemma JoiningProgress(s: State, a: Action, i: nat)
    requires Inv(s) && Enabled(s, a) && s.main == Joining(i) && i < |s.files| && Step(s, a).main == Joining(i)
    ensures var f, g := s.files[i], Step(s, a).files[i];
      && (IsReader(a) && a.i == i ==> StepsLeft(g.pc) < StepsLeft(f.pc))
      && (!(IsReader(a) && a.i == i) ==> g == f)
      && WritesLeft(g.pc) + (if a == WriteFifo(i) then 1 else 0) <= WritesLeft(f.pc)
  {
    assert FileOk(s.files[i], i, s.main);
  }

  /** A step that the thread takes by itself: nothing is owed to a spurious wake-up, or to a
      particular answer of av_read_frame. */
  predicate IsOwn(a: Action) {
    IsReader(a) && !a.WakeSpuriously?
  }

  /** Shutdown cannot deadlock: a thread that main waits for has returned or can take a step,
      without any spurious wake-up: if it waits, it has been signalled, and there is space. */
  lemma JoinIsReached(s: State, i: nat)
    requires Inv(s) && s.main == Joining(i) && i < |s.files| && !s.files[i].pc.Done?
    ensures exists a :: IsOwn(a) && a.i == i && Enabled(s, a)
    ensures s.files[i].pc.Waiting? ==> s.files[i].pc.woken
    ensures InHand(s.files[i].pc) != [] ==> |s.files[i].fifo| < FIFO_SIZE
  {
    var f := s.files[i];
    assert FileOk(f, i, s.main);
    var a := match f.pc
      case Check => CheckLoop(i)
      case Read => TryAgain(i)
      case Want(_) => TakeLock(i)
      case Test(_) => TestSpace(i)
      case Waiting(_, _) => Wake(i)
      case Write(_) => WriteFifo(i)
      case Unlock => ReleaseLock(i)
      case Exit => Finish(i)
      case Done => Finish(i);
    assert IsOwn(a) && a.i == i && Enabled(s, a);
  }

  /** No wake-up is lost while packets are wanted: a thread waits without having been signalled
      only while its queue is full or being emptied, so that main's next read finds a packet and
      signals, and there is space when the thread looks again. */
  lemma NoLostWakeup(s: State, i: nat)
    requires Inv(s) && i < |s.files| && s.files[i].pc.Waiting? && !s.files[i].pc.woken
    ensures |s.files[i].fifo| == FIFO_SIZE || s.main == Draining(i)
    ensures s.main == Getting(i) ==>
      var (got, f) := GetResult(s.files[i]);
      got.Packet? && f.pc == Waiting(s.files[i].pc.p, true) && |f.fifo| < FIFO_SIZE
    ensures s.main == Draining(i) && Enabled(s, MainSignal(i)) ==>
      Step(s, MainSignal(i)).files[i].pc == Waiting(s.files[i].pc.p, true) && Step(s, MainSignal(i)).files[i].fifo == []
  {
    assert FileOk(s.files[i], i, s.main);
  }

  ghost function ReaderSteps(actions: seq<Action>, i: nat, k: nat, m: nat): nat
    requires k <= m <= |actions|
  {
    if k == m then 0 else ReaderSteps(actions, i, k, m - 1)
                          + if IsReader(actions[m - 1]) && actions[m - 1].i == i then 1 else 0
  }

  ghost function Writes(actions: seq<Action>, i: nat, k: nat, m: nat): nat
    requires k <= m <= |actions|
  {
    if k == m then 0 else Writes(actions, i, k, m - 1) + if actions[m - 1] == WriteFifo(i) then 1 else 0
  }

  /** While main waits in the join, the thread takes at most seven steps and writes at most one
      packet, however the threads interleave. */
  lemma {:induction false} AtMostOneWriteAfterDrain(n: nat, states: seq<State>, actions: seq<Action>, k: nat, m: nat,
                                                    i: nat)
    requires IsRun(n, states, actions) && k <= m <= |actions| && i < n
    requires forall j :: k <= j <= m ==> states[j].main == Joining(i)
    ensures i < |states[k].files| && i < |states[m].files|
    ensures ReaderSteps(actions, i, k, m) + StepsLeft(states[m].files[i].pc) <= StepsLeft(states[k].files[i].pc) <= 7
    ensures Writes(actions, i, k, m) + WritesLeft(states[m].files[i].pc) <= WritesLeft(states[k].files[i].pc) <= 1
    decreases m
  {
    hide Inv, Step, Enabled;
    RunKeepsInv(n, states, actions, k);
    RunKeepsInv(n, states, actions, m);
    if k < m {
      RunKeepsInv(n, states, actions, m - 1);
      AtMostOneWriteAfterDrain(n, states, actions, k, m - 1, i);
      JoiningProgress(states[m - 1], actions[m - 1], i);
    }
  }

  /** Outside of the join, main is never stuck either: it can step, or the thread that holds
      the lock it wants can. */
  lemma MainNeverStuck(s: State)
    requires Inv(s) && !s.main.Joining?
    ensures exists a :: Enabled(s, a)
                        && (!IsReader(a) || (s.main.Stopping? && s.main.i == a.i && s.files[a.i].lock == Reader))
  {
    var i := if s.main.Outside? || s.main.Stopped? then 0 else s.main.i;
    if i < |s.files| {
      assert FileOk(s.files[i], i, s.main) && JoinedOk(s.files[i], i, s.main);
    }
    var a := match s.main
      case Outside => MainStop
      case Getting(_) => MainGet(i)
      case Stopping(_) =>
        if i == |s.files| then MainReturn
        else if s.files[i].joined then MainNext(i)
        else if s.files[i].lock.Free? then MainLockDrain(i)
        else if s.files[i].pc.Test? then TestSpace(i)
        else if s.files[i].pc.Write? then WriteFifo(i)
        else ReleaseLock(i)
      case Draining(_) => if s.files[i].fifo == [] then MainSignal(i) else MainDrain(i)
      case Joining(_) => MainStop
      case Cleaning(_) => if s.files[i].fifo == [] then MainNext(i) else MainClean(i)
      case Stopped => MainStop;
    assert Enabled(s, a);
  }
}
