/** ev_once: an io watcher and a timer that share one callback, which is run at most once. */
module Once {
  import opened Watchers
  import opened Pending
  import opened Fds
  import opened Timers
  import opened Passes

  /** Something that can happen to a loop: events, passes of the loop itself, and what others do. */
  datatype Doing =
    | Begins(fd: int, mask: Events, timeout: real)  // ev_once, for this structure
    | FdHas(number: nat, mask: Events)
    | FdDies(number: nat)
    | Reifies(victims: nat -> seq<nat>)             // and what the backend kills in each round
    | TimePasses(now: real)
    | TimersDue
    | Delivers                                      // one round of ev_invoke_pending
    | IoSets(w: Watcher, fd: int, mask: Events)
    | IoStarts(w: Watcher)
    | IoStops(w: Watcher)
    | TimerSets(w: Watcher, after: real, repeat: real)
    | TimerStarts(w: Watcher)
    | TimerStops(w: Watcher)
    | TimerRestarts(w: Watcher)
    | Feeds(w: Watcher, mask: Events)
    | Clears(w: Watcher)
    | Prefers(w: Watcher, priority: int)

  /** A loop with one ev_once structure in it, among any number of other watchers. */
  class OnceLoop {
    const pend: Pendings
    const fds: FdTable
    const timers: TimerLoop
    const io: Watcher
    const to: Watcher
    var freed: bool   // the structure was freed, after which its watchers must not be used
    var calls: nat    // how often the user's callback was run
    var got: Events   // and with which events

    /** The callback was run, or one of the watchers is pending so that it is about to be. */
    ghost predicate Awaited()
      reads this`freed, io`pending, to`pending
    {
      freed || io.pending > 0 || to.pending > 0
    }

    /** Nothing in the loop refers to w. */
    ghost predicate Gone(w: Watcher)
      reads fds`started, timers`members, w`pending, pend.universe`pending
    {
      w !in fds.started && w !in timers.members && w.pending == 0
    }

    ghost predicate Apart()
    {
      && fds.pend == pend && timers.pend == pend && fds.watchers !! timers.watchers
      && io in fds.watchers && to in timers.watchers && io !in timers.watchers && to !in fds.watchers
    }

    /** The tables are consistent, and refer to the structure only until it is freed. */
    ghost predicate Intact()
      reads this`freed
      reads fds`anfds, fds`fdchanges, fds`walked, fds`started, fds`calls
      reads fds.watchers`active, fds.watchers`events, fds.watchers`fd, fds.started`fd
      reads timers`timers, timers`timercnt, timers`members, timers.timers
      reads timers.watchers`active, timers.watchers`at, timers.watchers`repeat
      reads pend`pendings, pend`pendingpri, pend`scripts, pend`history, pend`rfeeds
      reads pend.universe`pending, pend.universe`priority
    {
      && Apart() && fds.TableOk() && timers.HeapOk() && pend.Valid()
      && fds.watchers <= pend.universe && timers.watchers <= pend.universe
      && to.repeat == 0.0 && (forall v | v in timers.watchers :: v.repeat >= 0.0)
      && fds.walked == 0 && pend.rfeeds == []
      && (freed ==> Gone(io) && Gone(to))
    }

    /** The callback was run once if the structure was freed, and not at all before that. */
    ghost predicate Valid()
      reads this`freed, this`calls
      reads fds`anfds, fds`fdchanges, fds`walked, fds`started, fds`calls
      reads fds.watchers`active, fds.watchers`events, fds.watchers`fd, fds.started`fd
      reads timers`timers, timers`timercnt, timers`members, timers.timers
      reads timers.watchers`active, timers.watchers`at, timers.watchers`repeat
      reads pend`pendings, pend`pendingpri, pend`scripts, pend`history, pend`rfeeds
      reads pend.universe`pending, pend.universe`priority
    {
      Intact() && calls == if freed then 1 else 0
    }

    constructor (fds: FdTable, timers: TimerLoop, io: Watcher, to: Watcher)
      requires fds.Valid() && timers.Valid() && fds.pend == timers.pend && fds.watchers !! timers.watchers
      requires io in fds.watchers && to in timers.watchers && to.repeat == 0.0
      requires fds.walked == 0 && fds.pend.rfeeds == [] && forall v | v in timers.watchers :: v.repeat >= 0.0
      ensures Valid() && calls == 0 && this.fds == fds && this.timers == timers && this.io == io && this.to == to
    {
      pend, this.fds, this.timers, this.io, this.to := fds.pend, fds, timers, io, to;
      freed, calls, got := false, 0, {};
    }

    /** The part of ev_once that starts the io watcher. */
    method BeginIo(fd: nat, events: Events)
      requires Valid() && !freed && io.active == 0 && events <= EV_READ + EV_WRITE
      modifies fds`anfds, fds`fdchanges, fds`activecnt, fds`started, io`active, io`events, io`fd
      ensures Valid() && io in fds.started && io.fd == fd && io.events == events
    {
      fds.IoSet(io, fd, events);
      assert io !in fds.started;
      fds.IoStart(io);
    }

    /** The part of ev_once that starts the timer. */
    method BeginTimer(timeout: real)
      requires Valid() && !freed && to.active == 0
      modifies timers`timers, timers`timercnt, timers`activecnt, timers`members, timers.timers
      modifies timers.watchers`active, to`at
      ensures Valid() && to in timers.members && to.at == timers.mnNow + timeout
      ensures timers.timers == old(timers.timers) || fresh(timers.timers)
    {
      assert to !in timers.members;
      to.at := timeout;
      timers.TimerStart(to);
    }

    /** ev_once; a negative descriptor or timeout means that there is none. */
    method Begin(fd: int, events: Events, timeout: real)
      requires Valid() && !freed && io.active == 0 && to.active == 0 && events <= EV_READ + EV_WRITE
      modifies fds`anfds, fds`fdchanges, fds`activecnt, fds`started, io`active, io`events, io`fd
      modifies timers`timers, timers`timercnt, timers`activecnt, timers`members, timers.timers
      modifies timers.watchers`active, to`at
      ensures Valid() && calls == 0 && (timers.timers == old(timers.timers) || fresh(timers.timers))
      ensures if fd >= 0 then io in fds.started && io.fd == fd && io.events == events else io !in fds.started
      ensures if timeout >= 0.0 then to in timers.members && to.at == timers.mnNow + timeout else to !in timers.members
    {
      assert io !in fds.started && to !in timers.members;
      if fd >= 0 {
        BeginIo(fd, events);
      }
      if timeout >= 0.0 {
        BeginTimer(timeout);
      }
    }

    /** An event for a descriptor. */
    method OnFdEvent(fd: nat, revents: Events)
      requires Valid() && fd < |fds.anfds|
      modifies pend`pendings, pend`pendingpri, pend`history, fds.watchers`pending
      ensures Valid() && (old(Awaited()) ==> Awaited())
      ensures io in fds.anfds[fd].head && fds.anfds[fd].reify == {} && io.events * revents != {} ==> io.pending > 0
    {
      assert freed ==> io !in fds.anfds[fd].head by {
        assert HeadOk(fds.anfds[fd].head, fd, fds.started);
      }
      ghost var was := fds.Now().fates;
      fds.FdEvent(fd, revents);
      fds.FedFate(was, if fds.anfds[fd].reify == {} then fds.anfds[fd].head else [], revents, io);
    }

    /** fd_kill, and what it makes of the two watchers. */
    method KillFd(fd: nat)
      requires Apart() && fds.Valid() && io in pend.universe && fd < |fds.anfds|
      modifies fds`anfds, fds`fdchanges, fds`activecnt, fds`started, fds.watchers`active
      modifies pend`pendings, pend`pendingpri, pend`history, fds.watchers`pending
      ensures fds.Valid() && fds.started <= old(fds.started) && (old(io.pending) > 0 ==> io.pending > 0)
      ensures if io in old(fds.anfds)[fd].head then io.pending > 0 else io.pending == old(io.pending)
    {
      assert HeadOk(fds.anfds[fd].head, fd, fds.started);
      ghost var was := fds.Now().fates;
      fds.FdKill(fd);
      fds.FateOf(was, io);
    }

    /** A descriptor is found to be unusable. */
    method OnFdKill(fd: nat)
      requires Valid() && fd < |fds.anfds|
      modifies fds`anfds, fds`fdchanges, fds`activecnt, fds`started, fds.watchers`active
      modifies pend`pendings, pend`pendingpri, pend`history, fds.watchers`pending
      ensures Valid() && (old(Awaited()) ==> Awaited()) && (io in old(fds.anfds)[fd].head ==> io.pending > 0)
    {
      assert freed ==> io !in fds.anfds[fd].head by {
        assert HeadOk(fds.anfds[fd].head, fd, fds.started);
      }
      KillFd(fd);
    }

    /** The timers are looked after. */
    method OnTimers()
      requires Valid()
      modifies timers`timercnt, timers`activecnt, timers`members, timers.timers
      modifies timers.watchers`active, timers.watchers`at
      modifies pend`pendings, pend`pendingpri, pend`history, pend`rfeeds, timers.watchers`pending
      ensures Valid() && (old(Awaited()) ==> Awaited())
      ensures old(to in timers.members && to.at < timers.mnNow) ==> to.pending > 0
    {
      ghost var was := timers.Snapshot();
      ghost var due := timers.TimersReify();
      assert Reified(was[to], timers.Snapshot()[to], to in due, timers.mnNow);
      assert to in Late(was, timers.mnNow) <==> old(to in timers.members && to.at < timers.mnNow);
    }

    /** ev_clear_pending for one of the two watchers. */
    method ClearOne(w: Watcher) returns (bits: Events)
      requires Valid() && !freed && (w == io || w == to)
      modifies pend`pendings, pend`history, w`pending
      ensures Valid() && w.pending == 0 && bits == BitsSince(old(pend.history), w)
      ensures Total(pend.pendings) == Total(old(pend.pendings))
    {
      assert PointerOk(pend.pendings, w);
      bits := pend.Clear(w);
    }

    method StopIo()
      requires Valid() && !freed
      modifies fds`anfds, fds`fdchanges, fds`activecnt, fds`started, io`active
      modifies pend`pendings, pend`history, io`pending
      ensures Valid() && io !in fds.started && io.pending == 0
      ensures Total(pend.pendings) == Total(old(pend.pendings))
    {
      fds.IoStop(io);
    }

    method StopTimer()
      requires Valid() && !freed
      modifies timers`timercnt, timers`activecnt, timers`members, timers.timers, timers.watchers`active, to`at
      modifies pend`pendings, pend`history, to`pending
      ensures Valid() && to !in timers.members && to.pending == 0
      ensures Total(pend.pendings) == Total(old(pend.pendings))
    {
      timers.TimerStop(to);
    }

    /** ev_free, when nothing refers to the structure any more, and the user's callback. */
    method Finish(bits: Events)
      requires Valid() && !freed && Gone(io) && Gone(to)
      modifies this`freed, this`calls, this`got
      ensures Valid() && freed && calls == 1 && got == bits
    {
      freed, got, calls := true, bits, calls + 1;
    }

    /**
     once_cb_io and once_cb_to, run for w with revents: both watchers are stopped, the structure is
     freed and the user's callback gets the events of both.
     */
    method OnceCb(w: Watcher, revents: Events)
      requires Valid() && !freed && (w == io || w == to) && w.pending == 0
      modifies this`freed, this`calls, this`got
      modifies fds`anfds, fds`fdchanges, fds`activecnt, fds`started, io`active
      modifies timers`timercnt, timers`activecnt, timers`members, timers.timers, timers.watchers`active, to`at
      modifies pend`pendings, pend`history, io`pending, to`pending
      ensures Valid() && freed && calls == 1
      ensures got == revents + BitsSince(old(pend.history), if w == io then to else io)
      ensures Total(pend.pendings) == Total(old(pend.pendings))
    {
      var more := ClearOne(if w == io then to else io);
      StopIo();
      StopTimer();
      Finish(revents + more);
    }

    /** The bits waiting for either watcher. */
    ghost function Waits(): Events
      reads pend`history
    {
      BitsSince(pend.history, io) + BitsSince(pend.history, to)
    }

    /** ev_invoke_pending takes its next slot from queue p. */
    ghost predicate Highest(p: nat)
      reads pend`pendings
    {
      p < |pend.pendings| == NUMPRI && pend.pendings[p] != [] && EmptyAbove(pend.pendings, p)
    }

    /** The slot that ev_invoke_pending takes from queue p belongs to one of the two watchers. */
    ghost predicate Tops(p: nat)
      reads pend`pendings
    {
      && p < |pend.pendings| && pend.pendings[p] != []
      && var w := pend.pendings[p][|pend.pendings[p]| - 1].w; w == io || w == to
    }

    /**
     The round of ev_invoke_pending that takes the top of queue p: if and only if the slot belongs
     to one of the two watchers, the user's callback is run, with all bits that were waiting for either.
     */
    method Deliver(p: nat)
      requires Valid() && Highest(p)
      modifies this`freed, this`calls, this`got
      modifies fds`anfds, fds`fdchanges, fds`activecnt, fds`started, io`active
      modifies timers`timercnt, timers`activecnt, timers`members, timers.timers, timers.watchers`active, to`at
      modifies pend`pendings, pend`history, pend.universe`pending, pend.dummy`pending
      ensures Valid() && Total(pend.pendings) < Total(old(pend.pendings)) && (Awaited() <==> old(Awaited()))
      ensures old(Tops(p)) ==> !old(freed) && freed && calls == 1 && got == old(Waits())
      ensures !old(Tops(p)) ==> freed == old(freed) && calls == old(calls) && got == old(got) && Waits() == old(Waits())
    {
      var slot := TakeOne(p);
      if slot.w == io || slot.w == to {
        OnceCb(slot.w, slot.events);
      }
    }

    method TakeOne(p: nat) returns (slot: Slot)
      requires Valid() && Highest(p)
      modifies pend`pendings, pend`history, pend.universe`pending, pend.dummy`pending
      ensures Valid() && (slot.w == io || slot.w == to <==> old(Tops(p)))
      ensures Total(pend.pendings) < Total(old(pend.pendings))
      ensures old(Tops(p)) ==>
                && !freed && slot.w.pending == 0 && slot.events == BitsSince(old(pend.history), slot.w)
                && old(Awaited())
                && var other := if slot.w == io then to else io;
                   BitsSince(pend.history, other) == BitsSince(old(pend.history), other)
      ensures !old(Tops(p)) ==> (Awaited() <==> old(Awaited())) && Waits() == old(Waits())
    {
      slot := pend.Take(p);
    }

    /** The changed descriptors are reified, during which the backend may kill some. */
    method OnFdReify(victims: nat -> seq<nat>)
      requires Valid()
      modifies fds`anfds, fds`fdchanges, fds`activecnt, fds`started, fds`walked, fds`calls, fds.watchers`active
      modifies pend`pendings, pend`pendingpri, pend`history, fds.watchers`pending
      ensures Valid() && (old(Awaited()) ==> Awaited())
    {
      ghost var was := fds.Now().fates;
      fds.FdReify(victims);
      fds.FateOf(was, io);
    }

    // What others do with their own watchers.

    method OnIoSet(w: Watcher, fd: int, events: Events)
      requires Valid() && w in fds.watchers && w != io && w.active == 0
      modifies w`fd, w`events
      ensures Valid()
    {
      fds.IoSet(w, fd, events);
    }

    method OnIoStart(w: Watcher)
      requires Valid() && w in fds.watchers && w != io
      requires w.active == 0 ==> w.fd >= 0 && w.events <= EV_IOFDSET + EV_READ + EV_WRITE
      modifies fds`anfds, fds`fdchanges, fds`activecnt, fds`started, w`active, w`events
      ensures Valid()
    {
      fds.IoStart(w);
    }

    method OnIoStop(w: Watcher)
      requires Valid() && w in fds.watchers && w != io
      modifies fds`anfds, fds`fdchanges, fds`activecnt, fds`started, w`active
      modifies pend`pendings, pend`history, w`pending
      ensures Valid()
    {
      fds.IoStop(w);
    }

    method OnTimerSet(w: Watcher, after: real, repeat: real)
      requires Valid() && w in timers.watchers && w != to && w.active == 0 && repeat >= 0.0
      modifies w`at, w`repeat
      ensures Valid()
    {
      assert w !in timers.members;
      w.at := after;
      w.repeat := repeat;
    }

    method OnTimerStart(w: Watcher)
      requires Valid() && w in timers.watchers && w != to
      modifies timers`timers, timers`timercnt, timers`activecnt, timers`members, timers.timers
      modifies timers.watchers`active, w`at
      ensures Valid() && (timers.timers == old(timers.timers) || fresh(timers.timers))
    {
      timers.TimerStart(w);
    }

    method OnTimerStop(w: Watcher)
      requires Valid() && w in timers.watchers && w != to
      modifies timers`timercnt, timers`activecnt, timers`members, timers.timers, timers.watchers`active, w`at
      modifies pend`pendings, pend`history, w`pending
      ensures Valid()
    {
      timers.TimerStop(w);
    }

    method OnTimerAgain(w: Watcher)
      requires Valid() && w in timers.watchers && w != to
      modifies timers`timers, timers`timercnt, timers`activecnt, timers`members, timers.timers
      modifies timers.watchers`active, w`at
      modifies pend`pendings, pend`history, w`pending
      ensures Valid() && (timers.timers == old(timers.timers) || fresh(timers.timers))
    {
      timers.TimerAgain(w);
    }

    method OnFeed(w: Watcher, bits: Events)
      requires Valid() && w in pend.universe && w != io && w != to
      modifies pend`pendings, pend`pendingpri, pend`history, w`pending
      ensures Valid()
    {
      assert PointerOk(pend.pendings, w);
      pend.Feed(w, bits);
    }

    method OnClear(w: Watcher)
      requires Valid() && w in pend.universe && w != io && w != to
      modifies pend`pendings, pend`history, w`pending
      ensures Valid()
    {
      assert PointerOk(pend.pendings, w);
      var _ := pend.Clear(w);
    }

    method OnSetPriority(w: Watcher, priority: int)
      requires Valid() && w in pend.universe && w.pending == 0 && EV_MINPRI <= priority <= EV_MAXPRI
      modifies w`priority
      ensures Valid()
    {
      pend.SetPriority(w, priority);
    }

    /** Others use only their own watchers, as they were set up. */
    ghost predicate Proper(d: Doing) {
      match d
      case IoSets(w, _, _) => w in fds.watchers && w != io
      case IoStarts(w) => w in fds.watchers && w != io
      case IoStops(w) => w in fds.watchers && w != io
      case TimerSets(w, _, _) => w in timers.watchers && w != to
      case TimerStarts(w) => w in timers.watchers && w != to
      case TimerStops(w) => w in timers.watchers && w != to
      case TimerRestarts(w) => w in timers.watchers && w != to
      case Feeds(w, _) => w in pend.universe && w != io && w != to
      case Clears(w) => w in pend.universe && w != io && w != to
      case Prefers(w, _) => w in pend.universe
      case _ => true
    }

    /** The clock that relative timers use moves on. */
    method OnTime(now: real)
      requires Valid()
      modifies timers`mnNow
      ensures Valid()
    {
      timers.mnNow := now;
    }

    /** The round of ev_invoke_pending that comes next, if anything is pending. */
    method DeliverNext()
      requires Valid()
      modifies this`freed, this`calls, this`got
      modifies fds`anfds, fds`fdchanges, fds`activecnt, fds`started, io`active
      modifies timers`timercnt, timers`activecnt, timers`members, timers.timers, timers.watchers`active, to`at
      modifies pend`pendings, pend`history, pend.universe`pending, pend.dummy`pending
      ensures Valid() && (Awaited() <==> old(Awaited())) && (old(freed) ==> freed && got == old(got))
      ensures old(EmptyAbove(pend.pendings, -1)) || Total(pend.pendings) < Total(old(pend.pendings))
      ensures EmptyAbove(old(pend.pendings), -1) ==> pend.pendings == old(pend.pendings)
      ensures if freed && !old(freed) then got == old(Waits()) else freed == old(freed) && Waits() == old(Waits())
    {
      var p := NUMPRI;
      while p > 0
        invariant 0 <= p <= NUMPRI && EmptyAbove(pend.pendings, p - 1)
      {
        p := p - 1;
        if pend.pendings[p] != [] {
          Deliver(p);
          return;
        }
      }
    }

    /**
     ev_invoke_pending, when other callbacks do nothing to the loop: the user's callback has been
     run afterwards if and only if it was awaited, and then with all bits that were waiting.
     */
    method DeliverAll()
      requires Valid()
      modifies this`freed, this`calls, this`got
      modifies fds`anfds, fds`fdchanges, fds`activecnt, fds`started, io`active
      modifies timers`timercnt, timers`activecnt, timers`members, timers.timers, timers.watchers`active, to`at
      modifies pend`pendings, pend`history, pend.universe`pending, pend.dummy`pending
      ensures Valid() && EmptyAbove(pend.pendings, -1) && calls == if old(Awaited()) then 1 else 0
      ensures old(Awaited() && !freed) ==> got == old(Waits())
    {
      ghost var bits := Waits();
      while exists p :: 0 <= p < NUMPRI && pend.pendings[p] != []
        invariant Valid() && (Awaited() <==> old(Awaited()))
        invariant if freed then !old(freed) ==> got == bits else Waits() == bits
        decreases Total(pend.pendings)
      {
        DeliverNext();
      }
      assert PointerOk(pend.pendings, io) && PointerOk(pend.pendings, to);
    }

    /** What concerns this structure or the loop as a whole; what cannot happen now does not. */
    method DoLoop(d: Doing)
      requires Valid()
      modifies this`freed, this`calls, this`got
      modifies fds`anfds, fds`fdchanges, fds`activecnt, fds`started, fds`walked, fds`calls, fds.watchers`active
      modifies fds.watchers`events, fds.watchers`fd
      modifies timers`timers, timers`timercnt, timers`activecnt, timers`members, timers`mnNow, timers.timers
      modifies timers.watchers`active, timers.watchers`at
      modifies pend`pendings, pend`pendingpri, pend`history, pend`rfeeds, pend.universe`pending, pend.dummy`pending
      ensures Valid() && (timers.timers == old(timers.timers) || fresh(timers.timers))
      ensures (old(freed) ==> freed && got == old(got)) && (old(Awaited()) ==> Awaited())
    {
      match d
      case Begins(fd, mask, timeout) =>
        if !freed && io.active == 0 && to.active == 0 && mask <= EV_READ + EV_WRITE {
          Begin(fd, mask, timeout);
        }
      case FdHas(fd, mask) => if fd < |fds.anfds| { OnFdEvent(fd, mask); }
      case FdDies(fd) => if fd < |fds.anfds| { OnFdKill(fd); }
      case Reifies(victims) => OnFdReify(victims);
      case TimePasses(now) => OnTime(now);
      case TimersDue => OnTimers();
      case Delivers => DeliverNext();
      case _ =>
    }

    /** What others do with their own watchers. */
    method DoOthers(d: Doing)
      requires Valid() && Proper(d)
      modifies fds`anfds, fds`fdchanges, fds`activecnt, fds`started, fds.watchers`active
      modifies fds.watchers`events, fds.watchers`fd
      modifies timers`timers, timers`timercnt, timers`activecnt, timers`members, timers.timers
      modifies timers.watchers`active, timers.watchers`at, timers.watchers`repeat
      modifies pend`pendings, pend`pendingpri, pend`history, pend.universe`pending, pend.universe`priority
      ensures Valid() && (timers.timers == old(timers.timers) || fresh(timers.timers))
      ensures old(Awaited()) ==> Awaited()
    {
      match d
      case IoSets(w, fd, mask) => if w.active == 0 { OnIoSet(w, fd, mask); }
      case IoStarts(w) =>
        if w.active != 0 || (w.fd >= 0 && w.events <= EV_IOFDSET + EV_READ + EV_WRITE) { OnIoStart(w); }
      case IoStops(w) => OnIoStop(w);
      case TimerSets(w, after, repeat) => if w.active == 0 && repeat >= 0.0 { OnTimerSet(w, after, repeat); }
      case TimerStarts(w) => OnTimerStart(w);
      case TimerStops(w) => OnTimerStop(w);
      case TimerRestarts(w) => OnTimerAgain(w);
      case Feeds(w, mask) => OnFeed(w, mask);
      case Clears(w) => OnClear(w);
      case Prefers(w, priority) =>
        if w.pending == 0 && EV_MINPRI <= priority <= EV_MAXPRI { OnSetPriority(w, priority); }
      case _ =>
    }

    /**
     Any run: whatever happens and in whatever order, the callback is run at most once, and never
     again once the structure was freed; and once it is awaited it stays so until it is run.
     */
    method Run(ds: seq<Doing>)
      requires Valid() && forall i | 0 <= i < |ds| :: Proper(ds[i])
      modifies this`freed, this`calls, this`got
      modifies fds`anfds, fds`fdchanges, fds`activecnt, fds`started, fds`walked, fds`calls, fds.watchers`active
      modifies fds.watchers`events, fds.watchers`fd
      modifies timers`timers, timers`timercnt, timers`activecnt, timers`members, timers`mnNow, timers.timers
      modifies timers.watchers`active, timers.watchers`at, timers.watchers`repeat
      modifies pend`pendings, pend`pendingpri, pend`history, pend`rfeeds
      modifies pend.universe`pending, pend.universe`priority, pend.dummy`pending
      ensures Valid() && calls <= 1 && (old(freed) ==> freed && calls == 1 && got == old(got))
      ensures old(Awaited()) ==> Awaited()
    {
      for i := 0 to |ds|
        invariant Valid() && (old(freed) ==> freed && got == old(got)) && (old(Awaited()) ==> Awaited())
        invariant timers.timers == old(timers.timers) || fresh(timers.timers)
      {
        DoLoop(ds[i]);
        DoOthers(ds[i]);
      }
    }
  }
}
