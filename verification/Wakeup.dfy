/**
 The wakeup handshake between an event loop and the threads (or signal handlers) that
 call ev_async_send and ev_feed_signal: ev_async_send / ev_feed_signal mark a source,
 evpipe_write publishes the mark through a flag and, when the loop asked for it, through
 the wakeup pipe; ev_run parks in backend_poll; pipecb collects the marks.

 Every shared-memory access is one step; steps of any number of senders and of the loop
 interleave in any order (sequential consistency).
 */
module Wakeup {

  // EV_NSIG; the signal table has EV_NSIG - 1 slots
  const EV_NSIG: nat := 65

  /** What a sender marks: an async watcher's `sent`, or a signal's `pending`. */
  datatype Source = Async(id: nat) | Signal(slot: nat)

  /** The flag that goes with a source: async_pending or sig_pending. */
  datatype Flag = AsyncPending | SigPending

  function FlagOf(src: Source): Flag {
    if src.Async? then AsyncPending else SigPending
  }

  /** Where a sender stands in ev_async_send / ev_feed_signal and evpipe_write. */
  datatype Sender =
    | Idle
    | AtTestFlag(src: Source)      // source marked, about to read *flag
    | AtSetFlag(src: Source)       // read 0, about to store *flag = 1
    | AtSetSkipped(src: Source)    // about to store pipe_write_skipped = 1
    | AtTestWanted(src: Source)    // about to read pipe_write_wanted
    | AtClearSkipped(src: Source)  // read 1, about to store pipe_write_skipped = 0
    | AtWrite(src: Source)         // about to write to the pipe

  /** Where the loop stands in ev_run and pipecb. */
  datatype Loop =
    | Running                      // anywhere outside the regions below, in callbacks too
    | BeforeWait                   // ev_run has drained the pending queues
    | AtTestSkipped                // pipe_write_wanted is 1, about to read pipe_write_skipped
    | Polling(positive: bool)      // inside backend_poll, with a positive wait or not
    | AtClearWanted                // backend_poll has returned
    | AtRetestSkipped              // pipe_write_wanted is 0 again
    | CbRead(readable: bool)       // pipecb entered, with or without EV_READ
    | CbClearSkipped
    | CbTestFlag(flag: Flag)
    | CbClearFlag(flag: Flag)
    | CbScan(flag: Flag, i: nat)   // slots below i still have to be looked at
    | CbUnmark(flag: Flag, i: nat) // slot i was found marked, about to be unmarked and fed

  datatype State = State(
    senders: seq<Sender>,
    loop: Loop,
    marked: set<Source>,           // sent == 1 or pending == 1
    flags: set<Flag>,              // flags that are 1
    skipped: bool,                 // pipe_write_skipped
    wanted: bool,                  // pipe_write_wanted
    pipe: nat,                     // unread bytes in the pipe
    asyncs: seq<nat>,              // the started async watchers
    cbPending: bool,               // pipe_w is in a pending queue
    cbReadable: bool,              // ... and its pending events include EV_READ
    fed: seq<Source>)              // history: the sources pipecb has unmarked and fed

  /** The number of slots that pipecb scans for a flag: asyncs, or the signal table. */
  function SlotCount(asyncs: seq<nat>, flag: Flag): nat {
    if flag == AsyncPending then |asyncs| else EV_NSIG - 1
  }

  function Slot(asyncs: seq<nat>, flag: Flag, i: nat): Source
    requires i < SlotCount(asyncs, flag)
  {
    if flag == AsyncPending then Async(asyncs[i]) else Signal(i)
  }

  /** src occupies one of the first n slots of its table. */
  predicate AmongFirst(asyncs: seq<nat>, src: Source, n: nat)
    requires n <= SlotCount(asyncs, FlagOf(src))
  {
    match src
    case Async(id) => id in asyncs[..n]
    case Signal(slot) => slot < n
  }

  /** A source the loop watches. */
  predicate Watched(asyncs: seq<nat>, src: Source) {
    match src
    case Async(id) => id in asyncs
    case Signal(slot) => slot < EV_NSIG - 1
  }

  ghost predicate Init(s: State) {
    && (forall i | 0 <= i < |s.senders| :: s.senders[i] == Idle)
    && s.loop == Running
    && s.marked == {} && s.flags == {}
    && !s.skipped && !s.wanted && s.pipe == 0
    && s.asyncs == [] && !s.cbPending && !s.cbReadable && s.fed == []
  }

  // ----- the steps -----

  datatype Action =
    | Mark(t: nat, src: Source)         // the first store of ev_async_send / ev_feed_signal
    | SenderStep(t: nat, stored: bool)  // the next access of evpipe_write
    | AsyncStart(id: nat)
    | AsyncStop(pos: nat)
    | Drained                           // EV_INVOKE_PENDING returned
    | Fork                              // loop_fork replaces the pipe
    | Leave                             // ev_run breaks off before waiting
    | WantWakeup
    | Park(mayBlock: bool)              // mayBlock: no other reason not to wait
    | Return(seen: bool)                // backend_poll returns, having seen the pipe readable or not
    | Invoke                            // ev_invoke_pending reaches pipe_w
    | Drain(left: nat)                  // pipecb reads the pipe
    | LoopStep                          // the next access of ev_run or pipecb

  ghost predicate Enabled(s: State, a: Action) {
    match a
    case Mark(t, src) => t < |s.senders| && s.senders[t] == Idle
                         && (src.Signal? ==> src.slot < EV_NSIG - 1)
    case SenderStep(t, stored) => t < |s.senders| && s.senders[t] != Idle
                                  // the pipe is non-blocking: a write fails only when the pipe is full
                                  && (stored || s.pipe > 0)
    case AsyncStart(id) => s.loop == Running && id !in s.asyncs
    case AsyncStop(pos) => s.loop == Running && pos < |s.asyncs|
    case Drained => s.loop == Running && !s.cbPending
    case Fork => s.loop == BeforeWait
    case Leave => s.loop == BeforeWait
    case WantWakeup => s.loop == BeforeWait
    case Park(mayBlock) => s.loop == AtTestSkipped
    case Return(seen) => s.loop.Polling? && (seen ==> s.pipe > 0)
    case Invoke => s.loop == Running && s.cbPending
    case Drain(left) => s.loop.CbRead? && left in Leftovers(s.pipe, s.loop.readable)
    case LoopStep => s.loop.AtClearWanted? || s.loop.AtRetestSkipped? || s.loop.CbClearSkipped?
                     || s.loop.CbTestFlag? || s.loop.CbClearFlag?
                     || (s.loop.CbScan? && s.loop.i <= SlotCount(s.asyncs, s.loop.flag))
                     || (s.loop.CbUnmark? && s.loop.i < SlotCount(s.asyncs, s.loop.flag))
  }

  /** Bytes left by pipecb's read: an eventfd is emptied, a pipe loses up to four bytes. */
  function Leftovers(pipe: nat, readable: bool): set<nat> {
    if readable then {0, if pipe > 4 then pipe - 4 else 0} else {pipe}
  }

  function Step(s: State, a: Action): State
    requires Enabled(s, a)
  {
    match a
    case Mark(t, src) => s.(senders := s.senders[t := AtTestFlag(src)], marked := s.marked + {src})
    case SenderStep(t, stored) => StepSender(s, t, stored)
    case AsyncStart(id) => s.(asyncs := s.asyncs + [id], marked := s.marked - {Async(id)})
    case AsyncStop(pos) =>
      var last := |s.asyncs| - 1;
      s.(asyncs := s.asyncs[pos := s.asyncs[last]][..last])
    case Drained => s.(loop := BeforeWait)
    case Fork => s.(pipe := 0, cbPending := true, cbReadable := false)
    case Leave => s.(loop := Running)
    case WantWakeup => s.(loop := AtTestSkipped, wanted := true)
    case Park(mayBlock) => s.(loop := Polling(mayBlock && !s.skipped))
    case Return(seen) =>
      s.(loop := AtClearWanted, cbPending := s.cbPending || seen, cbReadable := s.cbReadable || seen)
    case Invoke => s.(loop := CbRead(s.cbReadable), cbPending := false, cbReadable := false)
    case Drain(left) => s.(loop := CbClearSkipped, pipe := left)
    case LoopStep => StepLoop(s)
  }

  function StepSender(s: State, t: nat, stored: bool): State
    requires t < |s.senders| && s.senders[t] != Idle
  {
    match s.senders[t]
    case AtTestFlag(src) =>
      s.(senders := s.senders[t := if FlagOf(src) in s.flags then Idle else AtSetFlag(src)])
    case AtSetFlag(src) =>
      s.(senders := s.senders[t := AtSetSkipped(src)], flags := s.flags + {FlagOf(src)})
    case AtSetSkipped(src) =>
      s.(senders := s.senders[t := AtTestWanted(src)], skipped := true)
    case AtTestWanted(src) =>
      s.(senders := s.senders[t := if s.wanted then AtClearSkipped(src) else Idle])
    case AtClearSkipped(src) =>
      s.(senders := s.senders[t := AtWrite(src)], skipped := false)
    case AtWrite(src) =>
      s.(senders := s.senders[t := Idle], pipe := if stored then s.pipe + 1 else s.pipe)
  }

  /** Where pipecb goes once it is done with a flag. */
  function AfterFlag(flag: Flag): Loop {
    if flag == SigPending then CbTestFlag(AsyncPending) else Running
  }

  function StepLoop(s: State): State
    requires Enabled(s, LoopStep)
  {
    match s.loop
    case AtClearWanted => s.(loop := AtRetestSkipped, wanted := false)
    case AtRetestSkipped => s.(loop := Running, cbPending := s.cbPending || s.skipped)
    case CbClearSkipped => s.(loop := CbTestFlag(SigPending), skipped := false)
    case CbTestFlag(flag) =>
      s.(loop := if flag in s.flags then CbClearFlag(flag) else AfterFlag(flag))
    case CbClearFlag(flag) =>
      s.(loop := CbScan(flag, SlotCount(s.asyncs, flag)), flags := s.flags - {flag})
    case CbScan(flag, i) =>
      s.(loop := if i == 0 then AfterFlag(flag)
                 else if Slot(s.asyncs, flag, i - 1) in s.marked then CbUnmark(flag, i - 1)
                 else CbScan(flag, i - 1))
    case CbUnmark(flag, i) =>
      var src := Slot(s.asyncs, flag, i);
      s.(loop := CbScan(flag, i), marked := s.marked - {src}, fed := s.fed + [src])
  }

  // ----- runs -----

  /** A finite run: an initial state and the actions taken since. */
  datatype Run = Start(state: State) | Then(before: Run, action: Action)

  ghost predicate Legal(r: Run)
    decreases r, 0
  {
    match r
    case Start(s) => Init(s)
    case Then(before, a) => Legal(before) && Enabled(Last(before), a)
  }

  ghost function Last(r: Run): State
    requires Legal(r)
    decreases r, 1
  {
    match r
    case Start(s) => s
    case Then(before, a) => Step(Last(before), a)
  }

  ghost predicate Quiet(s: State) {
    forall t | 0 <= t < |s.senders| :: s.senders[t] == Idle
  }

  // ----- the invariant -----

  /** A sender has marked src and not yet made sure of its flag. */
  ghost predicate Publishing(senders: seq<Sender>, src: Source) {
    exists t | 0 <= t < |senders| :: senders[t] == AtTestFlag(src) || senders[t] == AtSetFlag(src)
  }

  /** A sender is bound to raise pipe_write_skipped or to write to the pipe. */
  ghost predicate Waking(senders: seq<Sender>) {
    exists t | 0 <= t < |senders| ::
      senders[t].AtSetSkipped? || senders[t].AtClearSkipped? || senders[t].AtWrite?
  }

  /** A sender that raised pipe_write_skipped has not finished its handshake. */
  ghost predicate Offering(senders: seq<Sender>) {
    exists t | 0 <= t < |senders| :: senders[t].AtTestWanted? || senders[t].AtClearSkipped?
  }

  /** The scan in progress has yet to look at src. */
  ghost predicate ScanReaches(loop: Loop, asyncs: seq<nat>, src: Source) {
    match loop
    case CbScan(flag, i) => flag == FlagOf(src) && i <= SlotCount(asyncs, flag) && AmongFirst(asyncs, src, i)
    case CbUnmark(flag, i) => flag == FlagOf(src) && i < SlotCount(asyncs, flag) && AmongFirst(asyncs, src, i + 1)
    case _ => false
  }

  /** pipecb is running and has yet to test the flag. */
  ghost predicate CallbackReaches(loop: Loop, flag: Flag) {
    match loop
    case CbRead(_) => true
    case CbClearSkipped => true
    case CbTestFlag(g) => g == SigPending || flag == AsyncPending
    case CbClearFlag(g) => g == SigPending || flag == AsyncPending
    case CbScan(g, _) => g == SigPending && flag == AsyncPending
    case CbUnmark(g, _) => g == SigPending && flag == AsyncPending
    case _ => false
  }

  /** A marked source is covered by its flag, by the sender that will set the flag, or by the scan. */
  ghost predicate MarkInv(s: State) {
    forall src | src in s.marked && Watched(s.asyncs, src) ::
      || FlagOf(src) in s.flags
      || Publishing(s.senders, src)
      || ScanReaches(s.loop, s.asyncs, src)
  }

  /** A flag that is set is going to be looked at. */
  ghost predicate FlagInv(s: State) {
    forall flag | flag in s.flags ::
      || s.skipped || s.pipe > 0 || s.cbPending
      || CallbackReaches(s.loop, flag)
      || Waking(s.senders)
  }

  /** While the loop blocks, pipe_write_skipped is only up on behalf of a sender that will see wanted. */
  ghost predicate ParkInv(s: State) {
    && (s.loop.AtTestSkipped? || s.loop.Polling? ==> s.wanted)
    && (s.loop == Polling(true) && s.skipped ==> Offering(s.senders))
  }

  ghost predicate BoundsInv(s: State) {
    && (s.loop.CbScan? ==> s.loop.i <= SlotCount(s.asyncs, s.loop.flag))
    && (s.loop.CbUnmark? ==> s.loop.i < SlotCount(s.asyncs, s.loop.flag))
  }

  ghost predicate Inv(s: State) {
    MarkInv(s) && FlagInv(s) && ParkInv(s) && BoundsInv(s)
  }

  /** A step of the loop leaves the senders alone. */
  predicate LoopAction(a: Action) { !a.Mark? && !a.SenderStep? }

  lemma LoopKeepsSenders(s: State, a: Action)
    requires Enabled(s, a) && LoopAction(a)
    ensures Step(s, a).senders == s.senders
  {
  }

  lemma MarkInvStep(s: State, a: Action)
    requires MarkInv(s) && Enabled(s, a)
    ensures MarkInv(Step(s, a))
  {
    var s' := Step(s, a);
    forall src | src in s'.marked && Watched(s'.asyncs, src)
      ensures FlagOf(src) in s'.flags || Publishing(s'.senders, src) || ScanReaches(s'.loop, s'.asyncs, src)
    {
      match a
      case Mark(t, other) =>
        MarkKeepsCover(s, t, other, src);
      case SenderStep(t, stored) =>
        SenderKeepsCover(s, t, stored, src);
      case LoopStep =>
        LoopStepKeepsCover(s, src);
      case _ =>
        OtherKeepsCover(s, a, src);
    }
  }

  lemma OtherKeepsCover(s: State, a: Action, src: Source)
    requires MarkInv(s) && Enabled(s, a) && LoopAction(a) && a != LoopStep
    requires src in Step(s, a).marked && Watched(Step(s, a).asyncs, src)
    ensures
      var s' := Step(s, a);
      FlagOf(src) in s'.flags || Publishing(s'.senders, src) || ScanReaches(s'.loop, s'.asyncs, src)
  {
    WatchedBefore(s, a, src);
    LoopKeepsSenders(s, a);
  }

  lemma MarkKeepsCover(s: State, t: nat, other: Source, src: Source)
    requires MarkInv(s) && t < |s.senders| && s.senders[t] == Idle
    requires src in s.marked + {other} && Watched(s.asyncs, src)
    ensures
      var s' := s.(senders := s.senders[t := AtTestFlag(other)], marked := s.marked + {other});
      FlagOf(src) in s'.flags || Publishing(s'.senders, src) || ScanReaches(s'.loop, s'.asyncs, src)
  {
    var senders' := s.senders[t := AtTestFlag(other)];
    if src == other {
      assert senders'[t] == AtTestFlag(src);
    } else if Publishing(s.senders, src) {
      var u :| 0 <= u < |s.senders| && (s.senders[u] == AtTestFlag(src) || s.senders[u] == AtSetFlag(src));
      assert senders'[u] == s.senders[u];
    }
  }

  lemma SenderKeepsCover(s: State, t: nat, stored: bool, src: Source)
    requires MarkInv(s) && t < |s.senders| && s.senders[t] != Idle
    requires src in s.marked && Watched(s.asyncs, src)
    ensures
      var s' := StepSender(s, t, stored);
      FlagOf(src) in s'.flags || Publishing(s'.senders, src) || ScanReaches(s'.loop, s'.asyncs, src)
  {
    var s' := StepSender(s, t, stored);
    if Publishing(s.senders, src) {
      var u :| 0 <= u < |s.senders| && (s.senders[u] == AtTestFlag(src) || s.senders[u] == AtSetFlag(src));
      assert u != t ==> s'.senders[u] == s.senders[u];
      assert u == t ==> FlagOf(src) in s'.flags || s'.senders[u] == AtSetFlag(src);
    }
  }

  lemma WatchedBefore(s: State, a: Action, src: Source)
    requires Enabled(s, a) && LoopAction(a) && a != LoopStep
    requires src in Step(s, a).marked && Watched(Step(s, a).asyncs, src)
    ensures src in s.marked && Watched(s.asyncs, src)
  {
  }

  lemma LoopStepKeepsCover(s: State, src: Source)
    requires MarkInv(s) && Enabled(s, LoopStep)
    requires src in StepLoop(s).marked && Watched(s.asyncs, src)
    ensures
      var s' := StepLoop(s);
      FlagOf(src) in s'.flags || Publishing(s'.senders, src) || ScanReaches(s'.loop, s'.asyncs, src)
  {
    if Publishing(s.senders, src) {
    } else if ScanReaches(s.loop, s.asyncs, src) {
      ScanMovesOn(s, src);
    } else if s.loop == CbClearFlag(FlagOf(src)) {
      assert s.asyncs[..|s.asyncs|] == s.asyncs;
    }
  }

  lemma ScanMovesOn(s: State, src: Source)
    requires Enabled(s, LoopStep) && ScanReaches(s.loop, s.asyncs, src)
    requires src in StepLoop(s).marked
    ensures ScanReaches(StepLoop(s).loop, s.asyncs, src)
  {
    var i := if s.loop.CbScan? then s.loop.i else s.loop.i + 1;
    assert src.Async? ==> s.asyncs[..i] == s.asyncs[..i - 1] + [s.asyncs[i - 1]];
  }

  lemma FlagInvSender(s: State, t: nat, stored: bool)
    requires FlagInv(s) && t < |s.senders| && s.senders[t] != Idle && (stored || s.pipe > 0)
    ensures FlagInv(StepSender(s, t, stored))
  {
    var s' := StepSender(s, t, stored);
    if Waking(s.senders) {
      var u :| 0 <= u < |s.senders|
               && (s.senders[u].AtSetSkipped? || s.senders[u].AtClearSkipped? || s.senders[u].AtWrite?);
      if u != t {
        assert s'.senders[u] == s.senders[u];
      } else {
        assert s'.skipped || s'.pipe > 0 || s'.senders[u].AtWrite?;
      }
    } else {
      assert s'.senders[t].AtSetSkipped? || s'.flags == s.flags;
    }
  }

  lemma FlagInvStep(s: State, a: Action)
    requires FlagInv(s) && Enabled(s, a)
    ensures FlagInv(Step(s, a))
  {
    if a.SenderStep? {
      FlagInvSender(s, a.t, a.stored);
    } else {
      var s' := Step(s, a);
      if Waking(s.senders) {
        var u :| 0 <= u < |s.senders|
                 && (s.senders[u].AtSetSkipped? || s.senders[u].AtClearSkipped? || s.senders[u].AtWrite?);
        assert s'.senders[u] == s.senders[u];
      }
    }
  }

  lemma ParkInvSender(s: State, t: nat, stored: bool)
    requires ParkInv(s) && t < |s.senders| && s.senders[t] != Idle
    ensures ParkInv(StepSender(s, t, stored))
  {
    var s' := StepSender(s, t, stored);
    if s.senders[t].AtSetSkipped? {
      assert s'.senders[t].AtTestWanted?;
    } else if s.loop == Polling(true) && s.skipped {
      var u :| 0 <= u < |s.senders| && (s.senders[u].AtTestWanted? || s.senders[u].AtClearSkipped?);
      assert u != t ==> s'.senders[u] == s.senders[u];
      assert u == t && s'.skipped ==> s'.senders[u].AtClearSkipped?;
    }
  }

  lemma ParkInvStep(s: State, a: Action)
    requires ParkInv(s) && Enabled(s, a)
    ensures ParkInv(Step(s, a))
  {
    if a.SenderStep? {
      ParkInvSender(s, a.t, a.stored);
    } else if s.loop == Polling(true) && s.skipped {
      var u :| 0 <= u < |s.senders| && (s.senders[u].AtTestWanted? || s.senders[u].AtClearSkipped?);
      assert Step(s, a).loop == Polling(true) ==> Step(s, a).senders[u] == s.senders[u];
    }
  }

  lemma BoundsInvLoop(s: State)
    requires BoundsInv(s) && Enabled(s, LoopStep)
    ensures BoundsInv(StepLoop(s))
  {
  }

  lemma BoundsInvStep(s: State, a: Action)
    requires BoundsInv(s) && Enabled(s, a)
    ensures BoundsInv(Step(s, a))
  {
    if a == LoopStep { BoundsInvLoop(s); }
  }

  lemma InvStep(s: State, a: Action)
    requires Inv(s) && Enabled(s, a)
    ensures Inv(Step(s, a))
  {
    MarkInvStep(s, a);
    FlagInvStep(s, a);
    ParkInvStep(s, a);
    BoundsInvStep(s, a);
  }

  /** The invariant holds at the end of every run, hence in every reachable state. */
  lemma {:induction false} InvAlways(r: Run)
    requires Legal(r)
    ensures Inv(Last(r))
  {
    if r.Then? {
      InvAlways(r.before);
      InvStep(Last(r.before), r.action);
    }
  }

  /** The loop itself is never blocked outside backend_poll. */
  lemma LoopNeverStuck(s: State)
    requires Inv(s) && !s.loop.Polling?
    ensures exists a :: LoopAction(a) && Enabled(s, a)
  {
    assert match s.loop
      case Running => Enabled(s, if s.cbPending then Invoke else Drained)
      case BeforeWait => Enabled(s, WantWakeup)
      case AtTestSkipped => Enabled(s, Park(true))
      case CbRead(readable) => Enabled(s, Drain(if readable then 0 else s.pipe))
      case _ => Enabled(s, LoopStep);
  }

  // ----- no lost wakeup -----

  /** The loop blocks, nothing will wake it, no sender is under way, and yet src is marked. */
  ghost predicate Lost(s: State, src: Source) {
    s.loop == Polling(true) && s.pipe == 0 && Quiet(s) && Watched(s.asyncs, src) && src in s.marked
  }

  /** loop_fork ran after ev_run last drained the pending queues. */
  predicate ForkedThisIteration(r: Run) {
    r.Then? && (r.action == Fork || (r.action != Drained && ForkedThisIteration(r.before)))
  }

  predicate Waiting(s: State) {
    s.loop.BeforeWait? || s.loop.AtTestSkipped? || s.loop.Polling?
  }

  lemma WaitingStep(s: State, a: Action)
    requires Enabled(s, a) && a != Fork
    requires Waiting(Step(s, a)) && Step(s, a).cbPending
    ensures Waiting(s) && s.cbPending && a != Drained
  {
  }

  /** Between draining the pending queues and the end of the wait, only loop_fork makes pipe_w pending. */
  lemma {:induction false} PendingWhileWaiting(r: Run)
    requires Legal(r) && Last(r).cbPending && Waiting(Last(r))
    ensures ForkedThisIteration(r)
  {
    if r.Then? && r.action != Fork {
      WaitingStep(Last(r.before), r.action);
      PendingWhileWaiting(r.before);
    }
  }

  /**
   In every run, a blocked loop with an empty pipe and no sender under way has missed nothing,
   unless loop_fork ran in this very iteration; then pipe_w is still pending.
   */
  lemma NoLostWakeup(r: Run, src: Source)
    requires Legal(r) && Lost(Last(r), src)
    ensures Last(r).cbPending && ForkedThisIteration(r)
  {
    InvAlways(r);
    assert FlagOf(src) in Last(r).flags;
    PendingWhileWaiting(r);
  }

  lemma Extend(r: Run, a: Action) returns (r': Run)
    requires Legal(r) && Enabled(Last(r), a)
    ensures Legal(r') && Last(r') == Step(Last(r), a)
  {
    r' := Then(r, a);
  }

  lemma ParkedLoop() returns (r: Run)
    ensures Legal(r)
    ensures Last(r) == State([Idle], Polling(true), {}, {}, false, true, 0, [7], false, false, [])
  {
    var s := State([Idle], Running, {}, {}, false, false, 0, [], false, false, []);
    r := Start(s);
    r := Extend(r, AsyncStart(7));
    assert Last(r) == s.(asyncs := [7]);
    r := Extend(r, Drained);
    r := Extend(r, WantWakeup);
    r := Extend(r, Park(true));
  }

  lemma SendRaisesFlag() returns (r: Run)
    ensures Legal(r)
    ensures Last(r) == State([AtSetSkipped(Async(7))], Polling(true), {Async(7)}, {AsyncPending},
                             false, true, 0, [7], false, false, [])
  {
    r := ParkedLoop();
    r := Extend(r, Mark(0, Async(7)));
    r := Extend(r, SenderStep(0, true));
    assert Last(r).senders == [AtSetFlag(Async(7))];
    r := Extend(r, SenderStep(0, true));
  }

  /** A parked loop and a send that has got as far as seeing pipe_write_wanted up. */
  lemma SendMeetsParkedLoop() returns (r: Run)
    ensures Legal(r)
    ensures Last(r) == State([AtClearSkipped(Async(7))], Polling(true), {Async(7)}, {AsyncPending},
                             true, true, 0, [7], false, false, [])
  {
    r := SendRaisesFlag();
    r := Extend(r, SenderStep(0, true));
    assert Last(r).senders == [AtTestWanted(Async(7))];
    r := Extend(r, SenderStep(0, true));
  }

  /** The wait ends for another reason... */
  lemma WaitEnds() returns (r: Run)
    ensures Legal(r)
    ensures Last(r) == State([AtClearSkipped(Async(7))], AtRetestSkipped, {Async(7)}, {AsyncPending},
                             true, false, 0, [7], false, false, [])
  {
    r := SendMeetsParkedLoop();
    r := Extend(r, Return(false));
    assert Last(r).loop == AtClearWanted;
    r := Extend(r, LoopStep);
  }

  /** ... the sender takes pipe_write_skipped back and the loop overtakes it... */
  lemma LoopOvertakesSender() returns (r: Run)
    ensures Legal(r)
    ensures Last(r) == State([AtWrite(Async(7))], Running, {Async(7)}, {AsyncPending},
                             false, false, 0, [7], false, false, [])
  {
    r := WaitEnds();
    r := Extend(r, SenderStep(0, true));
    assert Last(r).senders == [AtWrite(Async(7))];
    r := Extend(r, LoopStep);
  }

  /** ... whose byte stays in the pipe. */
  lemma ByteLeftInPipe() returns (r: Run)
    ensures Legal(r)
    ensures Last(r) == State([Idle], Running, {Async(7)}, {AsyncPending}, false, false, 1, [7], false, false, [])
  {
    r := LoopOvertakesSender();
    r := Extend(r, SenderStep(0, true));
  }

  /** loop_fork closes the pipe under a wakeup that was written but not yet read, and then ev_run waits. */
  lemma ForkCanLoseWakeup()
    ensures exists r: Run, src: Source :: Legal(r) && Lost(Last(r), src)
  {
    var r := ByteLeftInPipe();
    r := Extend(r, Drained);
    r := Extend(r, Fork);
    r := Extend(r, WantWakeup);
    r := Extend(r, Park(true));
    assert Lost(Last(r), Async(7));
  }

  // ----- what a fork loses -----

  predicate AroundWait(loop: Loop) {
    loop.AtTestSkipped? || loop.Polling? || loop.AtClearWanted?
  }

  lemma WantedStep(s: State, a: Action)
    requires Enabled(s, a) && (s.wanted ==> AroundWait(s.loop))
    ensures Step(s, a).wanted ==> AroundWait(Step(s, a).loop)
  {
  }

  /** pipe_write_wanted is up only from before the wait until after it. */
  lemma {:induction false} WantedWhileWaiting(r: Run)
    requires Legal(r)
    ensures Last(r).wanted ==> AroundWait(Last(r).loop)
  {
    if r.Then? {
      WantedWhileWaiting(r.before);
      WantedStep(Last(r.before), r.action);
    }
  }

  /** r goes on from a fork after r0, with any steps of senders, to and into the wait. */
  ghost predicate WaitsAfter(r: Run, r0: Run) {
    && r.Then?
    && if r.action == Fork then
         r.before == r0
       else
         && (r.action.Mark? || r.action.SenderStep? || r.action == WantWakeup || r.action.Park?)
         && WaitsAfter(r.before, r0)
  }

  /** The sender is bound to wake the loop, if it is to see these values. */
  predicate Obstructs(sender: Sender, flags: set<Flag>, wanted: bool) {
    match sender
    case Idle => false
    case AtTestFlag(src) => FlagOf(src) !in flags
    case AtTestWanted(_) => wanted
    case _ => true
  }

  ghost predicate Obstructed(s: State) {
    exists t :: 0 <= t < |s.senders| && Obstructs(s.senders[t], s.flags, s.wanted)
  }

  /** The loop will not block, or is woken. */
  ghost predicate Safe(s: State) {
    s.pipe > 0 || s.loop == Polling(false) || (s.skipped && s.loop != Polling(true)) || Obstructed(s)
  }

  /** A fork at s can make the loop miss src. */
  ghost predicate Loses(s: State, src: Source) {
    && Watched(s.asyncs, src) && FlagOf(src) in s.flags && !s.skipped
    && (src in s.marked || |s.senders| > 0)
    && forall t | 0 <= t < |s.senders| :: !Obstructs(s.senders[t], s.flags, false)
  }

  /** A sender that obstructs goes on doing so until the loop is safe for another reason. */
  lemma SafeSelf(s: State, t: nat, stored: bool)
    requires Enabled(s, SenderStep(t, stored)) && Obstructs(s.senders[t], s.flags, s.wanted)
    requires Waiting(s) && (s.wanted <==> s.loop != BeforeWait)
    ensures Safe(StepSender(s, t, stored))
  {
    var s' := StepSender(s, t, stored);
    assert Obstructs(s'.senders[t], s'.flags, s'.wanted) || s'.pipe > 0 || (s'.skipped && !s'.wanted);
  }

  lemma SafeSender(s: State, t: nat, stored: bool)
    requires Enabled(s, SenderStep(t, stored)) && Safe(s) && Waiting(s) && (s.wanted <==> s.loop != BeforeWait)
    ensures Safe(StepSender(s, t, stored))
  {
    if Obstructs(s.senders[t], s.flags, s.wanted) {
      SafeSelf(s, t, stored);
    } else if Obstructed(s) {
      var u :| 0 <= u < |s.senders| && Obstructs(s.senders[u], s.flags, s.wanted);
      var s' := StepSender(s, t, stored);
      assert s'.senders[u] == s.senders[u] && s'.flags == s.flags && s'.wanted == s.wanted;
    }
  }

  lemma SafeStep(s: State, a: Action)
    requires Enabled(s, a) && Safe(s) && Waiting(s) && (s.wanted <==> s.loop != BeforeWait)
    requires a.Mark? || a.SenderStep? || a == WantWakeup || a.Park?
    ensures Safe(Step(s, a))
  {
    if a.SenderStep? {
      SafeSender(s, a.t, a.stored);
    } else if Obstructed(s) {
      var u :| 0 <= u < |s.senders| && Obstructs(s.senders[u], s.flags, s.wanted);
      assert Step(s, a).senders[u] == s.senders[u];
    }
  }

  /** While nothing is bound to wake the loop, no flag is raised. */
  lemma UnsafeStep(s: State, a: Action)
    requires Enabled(s, a) && Waiting(s) && !Safe(s)
    requires a.Mark? || a.SenderStep? || a == WantWakeup || a.Park?
    ensures Step(s, a).flags == s.flags
  {
    if a.SenderStep? {
      assert !Obstructs(s.senders[a.t], s.flags, s.wanted);
    }
  }

  /** What the wait after a fork at s0 cannot change, and what it starts from unless the loop is safe. */
  ghost predicate SinceFork(s0: State, s: State, src: Source)
    requires s0.loop == BeforeWait
  {
    && Waiting(s) && s.asyncs == s0.asyncs && |s.senders| == |s0.senders| && (s.wanted <==> s.loop != BeforeWait)
    && (src in s.marked ==> src in s0.marked || |s0.senders| > 0)
    && (Safe(s) || (s.flags == s0.flags && !Safe(Step(s0, Fork))))
  }

  lemma SinceForkStep(s0: State, s: State, a: Action, src: Source)
    requires s0.loop == BeforeWait && SinceFork(s0, s, src) && Enabled(s, a)
    requires a.Mark? || a.SenderStep? || a == WantWakeup || a.Park?
    ensures SinceFork(s0, Step(s, a), src)
  {
    if Safe(s) {
      SafeStep(s, a);
    } else {
      UnsafeStep(s, a);
    }
    if a.SenderStep? {
      SenderKeepsLoop(s, a.t, a.stored);
    }
  }

  lemma {:induction false} SinceForkAlways(r: Run, r0: Run, src: Source)
    requires Legal(r) && WaitsAfter(r, r0)
    ensures Legal(r0) && Last(r0).loop == BeforeWait && SinceFork(Last(r0), Last(r), src)
  {
    if r.action == Fork {
      WantedWhileWaiting(r0);
    } else {
      SinceForkAlways(r.before, r0, src);
      SinceForkStep(Last(r0), Last(r.before), r.action, src);
    }
  }

  /** What is lost after a fork could be lost. */
  lemma LostMeansLoses(r: Run, r0: Run, src: Source)
    requires Legal(r) && WaitsAfter(r, r0) && Lost(Last(r), src)
    ensures Legal(r0) && Last(r0).loop == BeforeWait && Loses(Last(r0), src)
  {
    var s := Last(r);
    SinceForkAlways(r, r0, src);
    InvAlways(r);
    assert FlagOf(src) in s.flags && !Safe(s);
    var s0 := Last(r0);
    var f := Step(s0, Fork);
    WantedWhileWaiting(r0);
    forall t | 0 <= t < |s0.senders| ensures !Obstructs(s0.senders[t], s0.flags, false) {
      assert f.senders[t] == s0.senders[t];
    }
  }

  lemma GoOn(r: Run, r0: Run, a: Action) returns (r': Run)
    requires Legal(r) && WaitsAfter(r, r0) && Enabled(Last(r), a)
    requires a.Mark? || a.SenderStep? || a == WantWakeup || a.Park?
    ensures Legal(r') && WaitsAfter(r', r0) && Last(r') == Step(Last(r), a)
  {
    r' := Then(r, a);
  }

  /** A sender that is not bound to wake the loop finishes before it waits. */
  lemma SettleOne(r: Run, r0: Run, t: nat) returns (r': Run)
    requires Legal(r) && WaitsAfter(r, r0) && !Last(r).wanted && t < |Last(r).senders|
    requires !Obstructs(Last(r).senders[t], Last(r).flags, false)
    ensures Legal(r') && WaitsAfter(r', r0)
    ensures Last(r') == Last(r).(senders := Last(r).senders[t := Idle])
  {
    if Last(r).senders[t] == Idle {
      r' := r;
      assert Last(r).senders[t := Idle] == Last(r).senders;
    } else {
      r' := GoOn(r, r0, SenderStep(t, true));
    }
  }

  /** Senders that are not bound to wake the loop can finish before it waits. */
  lemma {:induction false} SettleSenders(r: Run, r0: Run, n: nat) returns (r': Run)
    requires Legal(r) && WaitsAfter(r, r0) && Last(r).loop == BeforeWait && !Last(r).wanted && n <= |Last(r).senders|
    requires forall t | 0 <= t < n :: !Obstructs(Last(r).senders[t], Last(r).flags, false)
    ensures Legal(r') && WaitsAfter(r', r0)
    ensures var senders := Last(r').senders;
      && Last(r') == Last(r).(senders := senders) && |senders| == |Last(r).senders|
      && (forall t | 0 <= t < n :: senders[t] == Idle)
      && (forall t | n <= t < |senders| :: senders[t] == Last(r).senders[t])
    decreases n
  {
    r' := r;
    if n > 0 {
      r' := SettleSenders(r, r0, n - 1);
      r' := SettleOne(r', r0, n - 1);
    }
  }

  /** A sender marks src, finds the flag raised and leaves it at that. */
  lemma MarkUnnoticed(r: Run, r0: Run, src: Source) returns (r': Run)
    requires Legal(r) && WaitsAfter(r, r0) && Last(r).loop == BeforeWait && Quiet(Last(r))
    requires Last(r).senders != [] && FlagOf(src) in Last(r).flags && Watched(Last(r).asyncs, src)
    ensures Legal(r') && WaitsAfter(r', r0) && Last(r') == Last(r).(marked := Last(r).marked + {src})
  {
    var s := Last(r);
    r' := GoOn(r, r0, Mark(0, src));
    assert Last(r').senders[0] == AtTestFlag(src);
    r' := GoOn(r', r0, SenderStep(0, true));
    assert Last(r').senders == s.senders;
  }

  /** After a fork that can lose src there is a wait in which src is lost. */
  lemma LosesMeansLost(r0: Run, src: Source) returns (r: Run)
    requires Legal(r0) && Last(r0).loop == BeforeWait && Loses(Last(r0), src)
    ensures Legal(r) && WaitsAfter(r, r0) && Lost(Last(r), src)
  {
    WantedWhileWaiting(r0);
    var f := Forked(r0);
    r := SettleSenders(f, r0, |Last(f).senders|);
    if src !in Last(r).marked {
      r := MarkUnnoticed(r, r0, src);
    }
    r := GoOn(r, r0, WantWakeup);
    r := GoOn(r, r0, Park(true));
  }

  lemma Forked(r0: Run) returns (r: Run)
    requires Legal(r0) && Last(r0).loop == BeforeWait
    ensures Legal(r) && WaitsAfter(r, r0) && Last(r) == Step(Last(r0), Fork)
  {
    r := Then(r0, Fork);
  }

  /**
   Exactly when a fork can make the loop miss src, at any point of any run, with any number of
   senders in any state: some wait after the fork, with whatever the senders do meanwhile, misses
   src if and only if src is watched and its flag is already raised, pipe_write_skipped is down, no
   sender under way is bound to wake the loop, and src is marked or there is a sender to mark it.
   */
  lemma ForkLosesExactly(r0: Run, src: Source)
    requires Legal(r0) && Last(r0).loop == BeforeWait
    ensures (exists r :: MissesIn(r, r0, src)) <==> Loses(Last(r0), src)
  {
    if Loses(Last(r0), src) {
      var r := LosesMeansLost(r0, src);
      assert MissesIn(r, r0, src);
    }
    if r :| MissesIn(r, r0, src) {
      LostMeansLoses(r, r0, src);
    }
  }

  /** r ends in a wait after a fork at the end of r0, in which src is lost. */
  ghost predicate MissesIn(r: Run, r0: Run, src: Source) {
    Legal(r) && WaitsAfter(r, r0) && Lost(Last(r), src)
  }

  lemma {:induction false} ForkBeforeWait(r: Run) returns (r0: Run)
    requires Legal(r) && Last(r).cbPending && Waiting(Last(r))
    ensures Legal(r0) && WaitsAfter(r, r0)
  {
    if r.action == Fork {
      r0 := r.before;
    } else {
      WaitingStep(Last(r.before), r.action);
      r0 := ForkBeforeWait(r.before);
    }
  }

  /** In every run, whatever is lost was lost by a fork that could lose it. */
  lemma LostOnlyByFork(r: Run, src: Source) returns (r0: Run)
    requires Legal(r) && Lost(Last(r), src)
    ensures Legal(r0) && WaitsAfter(r, r0) && Last(r0).loop == BeforeWait && Loses(Last(r0), src)
  {
    NoLostWakeup(r, src);
    r0 := ForkBeforeWait(r);
    LostMeansLoses(r, r0, src);
  }

  // ----- delivery -----

  /** r ends inside, or at the end of, an invocation of pipecb during which no sender moved. */
  ghost predicate Collecting(r: Run)
    requires Legal(r)
  {
    && r.Then?
    && if r.action == Invoke then Quiet(Last(r.before))
       else (r.action.Drain? || r.action == LoopStep) && Collecting(r.before)
  }

  ghost predicate InPipecb(loop: Loop) {
    loop.CbRead? || loop.CbClearSkipped? || loop.CbTestFlag? || loop.CbClearFlag? || loop.CbScan? || loop.CbUnmark?
  }

  lemma PipecbStep(s: State, flag: Flag)
    requires Enabled(s, LoopStep) && InPipecb(s.loop)
    requires flag in StepLoop(s).flags && CallbackReaches(s.loop, flag)
    ensures CallbackReaches(StepLoop(s).loop, flag)
  {
  }

  lemma PipecbStepPhase(s: State)
    requires Enabled(s, LoopStep) && InPipecb(s.loop)
    ensures InPipecb(StepLoop(s).loop) || StepLoop(s).loop == Running
    ensures StepLoop(s).flags <= s.flags
  {
  }

  lemma {:induction false} CollectingInv(r: Run)
    requires Legal(r) && Collecting(r)
    ensures Quiet(Last(r))
    ensures forall flag | flag in Last(r).flags :: CallbackReaches(Last(r).loop, flag)
    ensures InPipecb(Last(r).loop) || Last(r).loop == Running
  {
    var s, s' := Last(r.before), Last(r);
    LoopKeepsSenders(s, r.action);
    if r.action != Invoke {
      CollectingInv(r.before);
      if r.action == LoopStep {
        PipecbStepPhase(s);
        forall flag | flag in s'.flags
          ensures CallbackReaches(s'.loop, flag)
        {
          PipecbStep(s, flag);
        }
      }
    }
  }

  /** When no sender interferes, an invocation of pipecb leaves no watched source marked. */
  lemma PipecbCollectsAll(r: Run, src: Source)
    requires Legal(r) && Collecting(r) && Last(r).loop == Running
    ensures Watched(Last(r).asyncs, src) ==> src !in Last(r).marked
  {
    InvAlways(r);
    CollectingInv(r);
  }

  // ----- from the wakeup to the callbacks -----

  /** A step of the loop that finds out about a wakeup: the end of the wait, or the test after it. */
  predicate Notices(s: State, a: Action) {
    a == Return(true) || (a == LoopStep && s.loop == AtRetestSkipped && s.skipped)
  }

  /** r goes on from r0 with steps of the loop alone, and has not drained the pending queues yet. */
  predicate Undisturbed(r: Run, r0: Run) {
    r == r0 || (r.Then? && LoopAction(r.action) && r.action != Drained && Undisturbed(r.before, r0))
  }

  /** src was watched all the way from r0 to r. */
  ghost predicate WatchedAlong(r: Run, r0: Run, src: Source)
    requires Legal(r)
  {
    Watched(Last(r).asyncs, src) && (r == r0 || (r.Then? && WatchedAlong(r.before, r0, src)))
  }

  /** A wakeup was noticed, and pipecb has not been invoked since. */
  ghost predicate Awaited(r: Run)
    requires Legal(r)
  {
    r.Then? && (Notices(Last(r.before), r.action) || (r.action != Invoke && Awaited(r.before)))
  }

  /** The wait saw the pipe readable, and pipecb has not been invoked since. */
  predicate ByteAwaited(r: Run) {
    r.Then? && (r.action == Return(true) || (r.action != Invoke && ByteAwaited(r.before)))
  }

  predicate AfterWait(loop: Loop) {
    loop.AtClearWanted? || loop.AtRetestSkipped? || loop.Running?
  }

  /**
   Whatever the senders and the callbacks do, the loop cannot get past draining its pending queues
   between noticing a wakeup and invoking pipecb.
   */
  lemma NoticedIsInvoked(r: Run)
    requires Legal(r) && Awaited(r)
    ensures !Enabled(Last(r), Drained)
    ensures AfterWait(Last(r).loop) && (Last(r).loop == Running ==> Enabled(Last(r), Invoke))
  {
    assert Last(r).cbPending && AfterWait(Last(r).loop) by { NoticedIsPending(r); }
  }

  lemma {:induction false} NoticedIsPending(r: Run)
    requires Legal(r) && Awaited(r)
    ensures Last(r).cbPending && AfterWait(Last(r).loop)
  {
    if !Notices(Last(r.before), r.action) {
      NoticedIsPending(r.before);
      if r.action.SenderStep? {
        SenderKeepsLoop(Last(r.before), r.action.t, r.action.stored);
      }
    }
  }

  lemma SenderKeepsLoop(s: State, t: nat, stored: bool)
    requires Enabled(s, SenderStep(t, stored))
    ensures StepSender(s, t, stored).loop == s.loop && StepSender(s, t, stored).asyncs == s.asyncs
    ensures StepSender(s, t, stored).cbPending == s.cbPending && StepSender(s, t, stored).cbReadable == s.cbReadable
    ensures StepSender(s, t, stored).pipe >= s.pipe && StepSender(s, t, stored).fed == s.fed
    ensures StepSender(s, t, stored).marked == s.marked && StepSender(s, t, stored).wanted == s.wanted
    ensures |StepSender(s, t, stored).senders| == |s.senders|
  {
  }

  /** A pipe that was seen readable has a byte until pipecb reads it. */
  predicate SeenByteIsThere(s: State) {
    && (s.cbReadable ==> s.pipe > 0 && s.cbPending && AfterWait(s.loop))
    && (s.loop == CbRead(true) ==> s.pipe > 0)
  }

  lemma SeenByteStep(s: State, a: Action)
    requires Enabled(s, a) && SeenByteIsThere(s)
    ensures SeenByteIsThere(Step(s, a))
  {
    if a.SenderStep? {
      SenderKeepsLoop(s, a.t, a.stored);
    }
  }

  lemma {:induction false} SeenByteAlways(r: Run)
    requires Legal(r)
    ensures SeenByteIsThere(Last(r))
  {
    if r.Then? {
      SeenByteAlways(r.before);
      SeenByteStep(Last(r.before), r.action);
    }
  }

  lemma {:induction false} ReadableUntilInvoked(r: Run)
    requires Legal(r) && ByteAwaited(r)
    ensures Awaited(r) && Last(r).cbReadable
  {
    if r.action != Return(true) {
      ReadableUntilInvoked(r.before);
      NoticedIsPending(r.before);
      if r.action.SenderStep? {
        SenderKeepsLoop(Last(r.before), r.action.t, r.action.stored);
      }
    }
  }

  /** After a wait that saw the pipe readable, pipecb is invoked for reading and takes bytes out of the pipe. */
  lemma WakeupIsRead(r: Run, left: nat)
    requires Legal(r) && r.Then? && r.action == Invoke && ByteAwaited(r.before)
    ensures Last(r).loop == CbRead(true)
    ensures Enabled(Last(r), Drain(left)) ==> left < Last(r).pipe
  {
    ReadableUntilInvoked(r.before);
    SeenByteAlways(r);
  }

  /** What holds of the loop from a noticed wakeup on until it drains its queues, while no sender moves. */
  ghost predicate Delivering(s: State) {
    && Quiet(s)
    && if s.cbPending then AfterWait(s.loop)
       else (s.loop == Running || InPipecb(s.loop))
            && forall flag | flag in s.flags :: CallbackReaches(s.loop, flag)
  }

  lemma DeliveringStep(s: State, a: Action)
    requires Delivering(s) && Enabled(s, a) && LoopAction(a) && a != Drained
    ensures Delivering(Step(s, a))
  {
    LoopKeepsSenders(s, a);
    if a == LoopStep && !s.cbPending {
      PipecbStepPhase(s);
      forall flag | flag in StepLoop(s).flags ensures CallbackReaches(StepLoop(s).loop, flag) {
        PipecbStep(s, flag);
      }
    }
  }

  lemma {:induction false} DeliveringAlways(r: Run, r0: Run)
    requires Legal(r) && Undisturbed(r, r0) && Legal(r0)
    requires r0.Then? && Notices(Last(r0.before), r0.action) && Quiet(Last(r0))
    ensures Delivering(Last(r))
  {
    if r != r0 {
      DeliveringAlways(r.before, r0);
      DeliveringStep(Last(r.before), r.action);
    }
  }

  /** A watched source loses its mark in the very step that feeds it, and a step feeds one source at most. */
  lemma UnmarkedIsFed(s: State, a: Action, src: Source)
    requires Enabled(s, a)
    ensures
      src in s.marked && Watched(s.asyncs, src) && src !in Step(s, a).marked ==> Step(s, a).fed == s.fed + [src]
    ensures s.fed <= Step(s, a).fed && |Step(s, a).fed| <= |s.fed| + 1
  {
    if a.SenderStep? {
      SenderKeepsLoop(s, a.t, a.stored);
    }
  }

  /** The slot that pipecb is about to unmark and feed is marked. */
  predicate FeedsMarked(s: State) {
    s.loop.CbUnmark? ==>
      && s.loop.i < SlotCount(s.asyncs, s.loop.flag)
      && Slot(s.asyncs, s.loop.flag, s.loop.i) in s.marked
  }

  lemma FeedsMarkedStep(s: State, a: Action)
    requires Enabled(s, a) && FeedsMarked(s)
    ensures FeedsMarked(Step(s, a))
  {
    if a.SenderStep? {
      SenderKeepsLoop(s, a.t, a.stored);
    }
  }

  lemma {:induction false} FeedsMarkedAlways(r: Run)
    requires Legal(r)
    ensures FeedsMarked(Last(r))
  {
    if r.Then? {
      FeedsMarkedAlways(r.before);
      FeedsMarkedStep(Last(r.before), r.action);
    }
  }

  /** In every run, what a step feeds is a source that was marked and watched. */
  lemma FedWasMarked(r: Run, a: Action, src: Source)
    requires Legal(r) && Enabled(Last(r), a) && Step(Last(r), a).fed == Last(r).fed + [src]
    ensures src in Last(r).marked && Watched(Last(r).asyncs, src)
  {
    FeedsMarkedAlways(r);
    var s := Last(r);
    assert (s.fed + [src])[|s.fed|] == src;
    if a.SenderStep? {
      SenderKeepsLoop(s, a.t, a.stored);
    } else {
      assert a == LoopStep && s.loop.CbUnmark?;
    }
  }

  lemma {:induction false} UndisturbedIsLegal(r: Run, r0: Run)
    requires Legal(r) && Undisturbed(r, r0)
    ensures Legal(r0)
  {
    if r != r0 { UndisturbedIsLegal(r.before, r0); }
  }

  /** A marked source that stays watched stays marked or is fed. */
  lemma {:induction false} MarkedOrFed(r: Run, r0: Run, src: Source)
    requires Legal(r) && Undisturbed(r, r0) && Legal(r0) && WatchedAlong(r, r0, src) && src in Last(r0).marked
    ensures Last(r0).fed <= Last(r).fed
    ensures src in Last(r).marked || src in Last(r).fed[|Last(r0).fed|..]
  {
    if r != r0 {
      MarkedOrFed(r.before, r0, src);
      UnmarkedIsFed(Last(r.before), r.action, src);
      var n, fed, fed' := |Last(r0).fed|, Last(r.before).fed, Last(r).fed;
      assert fed' == fed || fed' == fed + [fed'[|fed|]];
      assert fed'[n..][..|fed| - n] == fed[n..];
      if src in fed[n..] {
        var k :| 0 <= k < |fed[n..]| && fed[n..][k] == src;
        assert fed'[n..][k] == src;
      } else if src !in Last(r).marked {
        assert fed' == fed + [src];
        assert fed'[n..][|fed| - n] == src;
      }
    }
  }

  /**
   A wakeup noticed at the end of r0, with no sender under way then or since: before ev_run waits
   again every source marked by then has been fed, unless a callback stopped its watcher, and no
   watched source is left marked.
   */
  lemma NoticedIsDelivered(r0: Run, r: Run, src: Source)
    requires Legal(r) && Undisturbed(r, r0) && Legal(r0)
    requires r0.Then? && Notices(Last(r0.before), r0.action) && Quiet(Last(r0))
    requires Enabled(Last(r), Drained)
    ensures Watched(Last(r).asyncs, src) ==> src !in Last(r).marked
    ensures src in Last(r0).marked && WatchedAlong(r, r0, src) ==>
      Last(r0).fed <= Last(r).fed && src in Last(r).fed[|Last(r0).fed|..]
  {
    InvAlways(r);
    DeliveringAlways(r, r0);
    if src in Last(r0).marked && WatchedAlong(r, r0, src) {
      MarkedOrFed(r, r0, src);
    }
  }

  // ----- starting and stopping async watchers -----

  predicate NoDuplicates(asyncs: seq<nat>) {
    forall i, j | 0 <= i < j < |asyncs| :: asyncs[i] != asyncs[j]
  }

  lemma AsyncsStep(s: State, a: Action)
    requires Enabled(s, a) && NoDuplicates(s.asyncs)
    ensures NoDuplicates(Step(s, a).asyncs)
  {
    if a.SenderStep? { SenderKeepsLoop(s, a.t, a.stored); }
  }

  lemma {:induction false} AsyncsDistinct(r: Run)
    requires Legal(r)
    ensures NoDuplicates(Last(r).asyncs)
  {
    if r.Then? {
      AsyncsDistinct(r.before);
      AsyncsStep(Last(r.before), r.action);
    }
  }

  /** In every run, stopping an async watcher makes the loop watch exactly the others. */
  lemma StopForgetsOne(r: Run, pos: nat, src: Source)
    requires Legal(r) && Enabled(Last(r), AsyncStop(pos))
    ensures var s := Last(r);
      Watched(Step(s, AsyncStop(pos)).asyncs, src) <==> Watched(s.asyncs, src) && src != Async(s.asyncs[pos])
  {
    AsyncsDistinct(r);
    var before, after := Last(r).asyncs, Step(Last(r), AsyncStop(pos)).asyncs;
    if src.Async? && src.id in before && src.id != before[pos] {
      var i :| 0 <= i < |before| && before[i] == src.id;
      assert after[if i == |before| - 1 then pos else i] == src.id;
    }
  }
}
