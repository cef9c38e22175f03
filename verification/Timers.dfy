/** Relative timers: the heap of running timers and what becomes of the timers that are due. */
module Timers {
  import opened Watchers
  import opened Heap
  import opened TimeHeap
  import opened Passes
  import opened Pending

  /** What sets a timer's next time. */
  datatype Timing = Timing(repeat: real)

  /** All timers at some moment. */
  type Moment = map<Watcher, Status<Timing>>

  /** What timers_reify makes of a timer: if due it is rescheduled, not into the past, or stopped. */
  function After(was: Status<Timing>, due: bool, now: real): Status<Timing> {
    if !due then was
    else if was.how.repeat != 0.0 then was.(at := Larger(was.at + was.how.repeat, now))
    else was.(running := false, at := was.at - now, pending := 0, bits := {})
  }

  /** A timer after timers_reify ran at these times, one after the other. */
  ghost function AfterAll(was: Status<Timing>, nows: seq<real>): Status<Timing> {
    if nows == [] then was
    else
      var before, now := AfterAll(was, nows[..|nows| - 1]), nows[|nows| - 1];
      After(before, before.running && before.at < now, now)
  }

  /** How often the timer was due. */
  ghost function TimesDue(was: Status<Timing>, nows: seq<real>): nat {
    if nows == [] then 0
    else
      var before, now := AfterAll(was, nows[..|nows| - 1]), nows[|nows| - 1];
      TimesDue(was, nows[..|nows| - 1]) + if before.running && before.at < now then 1 else 0
  }

  /** No pass comes later than one repeat after the timer is due. */
  ghost predicate Punctual(was: Status<Timing>, nows: seq<real>) {
    nows != [] ==>
      && Punctual(was, nows[..|nows| - 1])
      && nows[|nows| - 1] <= AfterAll(was, nows[..|nows| - 1]).at + was.how.repeat
  }

  /** A repeating timer that is due is next due one repeat later exactly if it is not later than that already. */
  lemma OnTime(was: Status<Timing>, now: real)
    requires was.running && was.how.repeat > 0.0 && was.at < now
    ensures
      var next := After(was, true, now);
      && next.running && next.at >= now
      && (next.at == was.at + was.how.repeat <==> now <= was.at + was.how.repeat)
      && (next.at != was.at + was.how.repeat ==> next.at == now)
  {
  }

  /** So many repeats. */
  ghost function Repeats(n: nat, repeat: real): real {
    if n == 0 then 0.0 else Repeats(n - 1, repeat) + repeat
  }

  lemma {:induction false} RepeatsIsProduct(n: nat, repeat: real)
    ensures Repeats(n, repeat) == n as real * repeat
  {
    if n > 0 {
      RepeatsIsProduct(n - 1, repeat);
      assert (n - 1) as real * repeat + repeat == n as real * repeat;
    }
  }

  /**
   A repeating timer does not drift: as long as no pass comes later than one repeat after the timer was
   due, it is due at its first time plus whole repeats, one for each time it was due.
   */
  lemma {:induction false} NoDrift(was: Status<Timing>, nows: seq<real>)
    requires was.running && was.how.repeat > 0.0 && Punctual(was, nows)
    ensures AfterAll(was, nows) == was.(at := was.at + Repeats(TimesDue(was, nows), was.how.repeat))
  {
    if nows != [] {
      NoDrift(was, nows[..|nows| - 1]);
    }
  }

  /** Every timer in done has been rescheduled or stopped, and no other timer has changed. */
  ghost predicate PassDone(was: Moment, here: Moment, done: seq<Watcher>, now: real) {
    was.Keys == here.Keys && forall v | v in was :: here[v] == After(was[v], v in done, now)
  }

  /** What timers_reify as a whole makes of a timer: a due one also becomes pending with EV_TIMER. */
  ghost predicate Reified(was: Status<Timing>, here: Status<Timing>, due: bool, now: real) {
    var after := After(was, due, now);
    && here.running == after.running && here.at == after.at
    && here.how == was.how && here.priority == was.priority
    && here.bits == after.bits + (if due then EV_TIMER else {})
    && if due then here.pending > 0 else here.pending == was.pending
  }

  ghost predicate AllReified(was: Moment, here: Moment, due: seq<Watcher>, now: real) {
    was.Keys == here.Keys && forall v | v in was :: Reified(was[v], here[v], v in due, now)
  }

  lemma PassQueued(was: Moment, mid: Moment, here: Moment, due: seq<Watcher>, now: real)
    requires PassDone(was, mid, due, now) && AllQueued(mid, here, due, EV_TIMER)
    ensures AllReified(was, here, due, now)
  {
    forall v | v in was ensures Reified(was[v], here[v], v in due, now) {
      assert Queued(mid[v], here[v], v in due, EV_TIMER);
    }
  }

  /** If due, the timer becomes pending in the pass: it was not pending before or loses its slot. */
  ghost predicate BecomesPending(was: Status<Timing>) {
    was.pending == 0 || was.how.repeat == 0.0
  }

  /** The due timers that become pending in the pass. */
  ghost function Risen(due: seq<Watcher>, was: Moment): set<Watcher> {
    set v | v in due && v in was && BecomesPending(was[v])
  }

  /** What is done is no longer late, and the rest is as it was. */
  lemma AllDone(done: seq<Watcher>, was: Moment, here: Moment, now: real)
    requires PassDone(was, here, done, now) && forall v | v in done :: v in was
    ensures forall v | v in done :: v !in Late(here, now)
    ensures forall v | v in was && v !in done :: here[v] == was[v]
  {
    forall v | v in done ensures v !in Late(here, now) {
      assert here[v] == After(was[v], true, now);
    }
  }

  lemma PassNext(done: seq<Watcher>, w: Watcher, was: Moment, here: Moment, next: Moment, now: real)
    requires PassDone(was, here, done, now) && PassDone(here, next, [w], now) && w !in done
    requires w in here && here[w].running && here[w].at < now
    ensures PassDone(was, next, done + [w], now)
    ensures Late(next, now) < Late(here, now)
  {
    forall v | v in was
      ensures next[v] == After(was[v], v in done + [w], now)
      ensures v in Late(next, now) ==> v in Late(here, now)
    {
      assert here[v] == After(was[v], v in done, now);
      assert next[v] == After(here[v], v in [w], now);
    }
    assert w in Late(here, now) && w !in Late(next, now);
  }

  /** One round of the pass, which deals with the running timer that is due first. */
  lemma RoundNext(done: seq<Watcher>, w: Watcher, was: Moment, here: Moment, next: Moment, now: real)
    requires DoneInOrder(done, was, now) && PassDone(was, here, done, now) && PassDone(here, next, [w], now)
    requires w in Late(here, now) && forall u | u in here && here[u].running :: here[w].at <= here[u].at
    ensures DoneInOrder(done + [w], was, now) && PassDone(was, next, done + [w], now)
    ensures Late(next, now) < Late(here, now)
  {
    AllDone(done, was, here, now);
    DoneNext(done, w, was, here, now);
    PassNext(done, w, was, here, next, now);
  }

  /** If no timer is late after the pass, all that were late are done. */
  lemma AllLateDone(was: Moment, here: Moment, due: seq<Watcher>, now: real)
    requires AllReified(was, here, due, now) && Late(here, now) == {}
    ensures forall v | v in Late(was, now) :: v in due
  {
    forall v | v in Late(was, now) ensures v in due {
      assert Reified(was[v], here[v], v in due, now);
      assert v !in Late(here, now);
    }
  }

  lemma RisenWereIdle(due: seq<Watcher>, was: Moment, here: Moment, now: real)
    requires PassDone(was, here, due, now)
    ensures forall v | v in Risen(due, was) :: here[v].pending == 0
  {
    forall v | v in Risen(due, was) ensures here[v].pending == 0 {
      assert here[v] == After(was[v], true, now);
    }
  }

  /** A pass: the timers before and after it, those that were due, and the time. */
  datatype Round = Round(was: Moment, here: Moment, due: seq<Watcher>, now: real) {
    /** Those that became pending. */
    ghost function Up(): set<Watcher> { Risen(due, was) }
  }

  /** A pass has dealt with exactly the late timers, in the order in which they were due. */
  ghost predicate Handled(r: Round) {
    && DoneInOrder(r.due, r.was, r.now) && (forall v | v in Late(r.was, r.now) :: v in r.due)
    && AllReified(r.was, r.here, r.due, r.now)
  }

  /** Those that became pending in it are above the others and each other, the earlier due the higher. */
  ghost predicate PassMade(r: Round, p: Places, others: set<Watcher>) {
    && Handled(r) && (forall v | v in r.was && r.was[v].pending == 0 :: r.was[v].bits == {})
    && PlacedInOrder(p, r.due, r.Up()) && PlacedOnTop(p, r.Up(), others)
  }

  lemma IsMade(was: Moment, here: Moment, due: seq<Watcher>, now: real, p: Places, others: set<Watcher>)
    requires DoneInOrder(due, was, now) && (forall v | v in Late(was, now) :: v in due)
    requires AllReified(was, here, due, now) && forall v | v in was && was[v].pending == 0 :: was[v].bits == {}
    requires PlacedInOrder(p, due, Risen(due, was)) && PlacedOnTop(p, Risen(due, was), others)
    ensures PassMade(Round(was, here, due, now), p, others)
  {
  }

  /** What happens to other watchers afterwards does not matter. */
  lemma PassStays(r: Round, p: Places, others: set<Watcher>, p2: Places, fewer: set<Watcher>)
    requires PassMade(r, p, others) && fewer <= others && Unmoved(p, p2, r.was.Keys + fewer)
    ensures PassMade(r, p2, fewer)
  {
  }

  class TimerLoop {
    const pend: Pendings
    ghost const watchers: set<Watcher>  // the initialised timers
    var timers: array<Entry>
    var timercnt: nat
    var activecnt: int
    var mnNow: real
    ghost var members: set<Watcher>     // the running timers

    /** The heap holds the active watchers and is in order. */
    ghost predicate HeapOk()
      reads this`timers, this`timercnt, this`members, timers, watchers`active, watchers`at
    {
      && members <= watchers
      && Linked(timers, timercnt, members) && Ordered(timers[..], timercnt)
      && (forall w {:trigger w in watchers} | w in watchers :: w.active != 0 ==> w in members)
    }

    ghost predicate Valid()
      reads this`timers, this`timercnt, this`members, timers, watchers`active, watchers`at
      reads pend`pendings, pend`pendingpri, pend`scripts, pend`history, pend.universe`pending, pend.universe`priority
    {
      HeapOk() && pend.Valid() && watchers <= pend.universe
    }

    constructor (pend: Pendings, ghost watchers: set<Watcher>, now: real)
      requires pend.Valid() && watchers <= pend.universe && forall w | w in watchers :: w.active == 0
      ensures Valid() && fresh(timers) && this.pend == pend && this.watchers == watchers
      ensures members == {} && mnNow == now && activecnt == 0
    {
      this.pend, this.watchers, mnNow, timercnt, activecnt, members := pend, watchers, now, 0, 0, {};
      timers := new Entry[0];
    }

    /** Enters w into the heap, as the last part of ev_timer_start does. */
    method Link(w: Watcher)
      requires HeapOk() && w in watchers && w.active == 0
      modifies this`timers, this`timercnt, this`members, timers, watchers`active
      ensures HeapOk() && members == old(members) + {w} && (timers == old(timers) || fresh(timers))
    {
      timers := Enter(timers, timercnt, w, members);
      timercnt := timercnt + 1;
      members := members + {w};
    }

    /** Takes w out of the heap, as the last part of ev_timer_stop does. */
    method Unlink(w: Watcher)
      requires HeapOk() && w in members
      modifies this`timercnt, this`members, timers, watchers`active, w`at
      ensures HeapOk() && w.active == 0 && members == old(members) - {w} && w.at == old(w.at) - mnNow
    {
      Leave(timers, timercnt, w, members);
      timercnt := timercnt - 1;
      members := members - {w};
      w.at := w.at - mnNow;
      w.active := 0;
    }

    /** Gives a running timer another time. */
    method Reset(w: Watcher, at: real)
      requires HeapOk() && w in members
      modifies timers, watchers`active, w`at
      ensures HeapOk() && w.at == at
    {
      SetTime(timers, timercnt, w, at, members);
    }

    /** Gives the timer that is due first another time. */
    method ResetRoot(at: real)
      requires HeapOk() && timercnt > 0
      modifies timers, watchers`active, timers[HEAP0].w`at
      ensures HeapOk() && old(timers[HEAP0].w).at == at
    {
      SetRootTime(timers, timercnt, at, members);
    }

    /** Timers that became pending wait for nothing but EV_TIMER. */
    lemma UpWait(r: Round, p: Places, others: set<Watcher>)
      requires Valid() && r.was.Keys == watchers && r.here == Snapshot() && PassMade(r, p, others)
      ensures Waits(r.was, r.Up(), EV_TIMER, pend.pendings) && r.Up() <= watchers
    {
      forall v | v in r.Up()
        ensures v.priority == r.was[v].priority && v.pending > 0 && Waiting(pend.pendings, v) == EV_TIMER
      {
        assert Reified(r.was[v], r.here[v], true, r.now);
        assert Told(pend.history, pend.pendings, v);
        assert {} + EV_TIMER == EV_TIMER;
      }
    }

    /** The queues then call the timers that became pending in the order in which they were due. */
    lemma DueInOrder(r: Round, others: set<Watcher>)
      requires Valid() && r.was.Keys == watchers && r.here == Snapshot() && PassMade(r, pend.Where(), others)
      ensures CalledInOrder(r.was, r.due, r.Up(), EV_TIMER, AllCalls(pend.pendings, pend.dummy))
    {
      UpWait(r, pend.Where(), others);
      PlacedAreCalled(r.was, r.due, r.Up(), EV_TIMER, pend);
    }

    /** ev_timer_start; an assertion of ev.c demands that the repeat value is not negative. */
    method TimerStart(w: Watcher)
      requires Valid() && w in watchers && w.repeat >= 0.0
      modifies this`timers, this`timercnt, this`activecnt, this`members, timers, watchers`active, w`at
      ensures Valid() && (timers == old(timers) || fresh(timers))
      ensures members == old(members) + {w}
      ensures w.at == if w in old(members) then old(w.at) else old(w.at) + mnNow
      ensures activecnt == old(activecnt) + if w in old(members) then 0 else 1
    {
      if w.active != 0 {
        return;
      }
      assert w !in members;
      w.at := w.at + mnNow;
      activecnt := activecnt + 1;
      Link(w);
    }

    /** ev_timer_stop, which also makes w no longer pending. */
    method TimerStop(w: Watcher)
      requires Valid() && w in watchers
      modifies this`timercnt, this`activecnt, this`members, timers, watchers`active, w`at
      modifies pend`pendings, pend`history, w`pending
      ensures Valid() && w.pending == 0 && w.active == 0
      ensures pend.history == if old(w.pending) > 0 then Then(old(pend.history), Cleared(w)) else old(pend.history)
      ensures Total(pend.pendings) == Total(old(pend.pendings))
      ensures members == old(members) - {w}
      ensures w.at == if w in old(members) then old(w.at) - mnNow else old(w.at)
      ensures activecnt == old(activecnt) - if w in old(members) then 1 else 0
    {
      assert PointerOk(pend.pendings, w);
      var _ := pend.Clear(w);
      if w.active == 0 {
        assert w !in members;
        return;
      }
      activecnt := activecnt - 1;
      Unlink(w);
    }

    /** The part of ev_timer_again for a running timer, which is no longer pending. */
    method Rerun(w: Watcher)
      requires Valid() && w in members && w.pending == 0 && w.repeat >= 0.0
      modifies this`timercnt, this`activecnt, this`members, timers, watchers`active, w`at
      modifies pend`pendings, pend`history, w`pending
      ensures Valid() && w.pending == 0
      ensures members == if w.repeat != 0.0 then old(members) else old(members) - {w}
      ensures w.at == if w.repeat != 0.0 then mnNow + w.repeat else old(w.at) - mnNow
      ensures activecnt == old(activecnt) - if w.repeat != 0.0 then 0 else 1
    {
      if w.repeat != 0.0 {
        Reset(w, mnNow + w.repeat);
      } else {
        TimerStop(w);
      }
    }

    /** ev_timer_again */
    method TimerAgain(w: Watcher)
      requires Valid() && w in watchers && w.repeat >= 0.0
      modifies this`timers, this`timercnt, this`activecnt, this`members, timers, watchers`active, w`at
      modifies pend`pendings, pend`history, w`pending
      ensures Valid() && w.pending == 0 && (timers == old(timers) || fresh(timers))
      ensures members == if w.repeat != 0.0 then old(members) + {w} else old(members) - {w}
      ensures w.repeat != 0.0 ==> w.at == mnNow + w.repeat
      ensures w.repeat == 0.0 ==> w.at == old(w.at) - if w in old(members) then mnNow else 0.0
      ensures activecnt == old(activecnt)
        + (if w in members then 1 else 0) - (if w in old(members) then 1 else 0)
    {
      assert PointerOk(pend.pendings, w);
      var _ := pend.Clear(w);
      assert w in members <==> w.active != 0;
      if w.active != 0 {
        Rerun(w);
      } else if w.repeat != 0.0 {
        w.at := w.repeat;
        TimerStart(w);
      }
    }

    /** Each timer as it is now. */
    ghost function Snapshot(): (m: Moment)
      reads this`members, watchers`at, watchers`repeat, watchers`priority, watchers`pending, pend`history
      ensures m.Keys == watchers
    {
      map v | v in watchers ::
        Status(v in members, v.at, Timing(v.repeat), v.priority, v.pending, BitsSince(pend.history, v))
    }

    twostate lemma HeapStays()
      requires old(HeapOk()) && unchanged(`timers, `timercnt, `members) && unchanged(timers)
      requires forall v | v in watchers :: v.active == old(v.active) && v.at == old(v.at)
      ensures HeapOk()
    {
    }

    twostate lemma SnapshotStays()
      requires members == old(members)
      requires forall v | v in watchers ::
                 && v.at == old(v.at) && v.priority == old(v.priority) && v.pending == old(v.pending)
                 && v.repeat == old(v.repeat)
                 && BitsSince(pend.history, v) == BitsSince(old(pend.history), v)
      ensures Snapshot() == old(Snapshot())
    {
    }

    /** The timer that is due first, and no timer is due before it. */
    lemma RootIsFirst()
      requires Valid() && timercnt > 0
      ensures timers[HEAP0].w in members && timers[HEAP0].w.at == timers[HEAP0].at
      ensures forall v | v in members :: timers[HEAP0].w.at <= v.at
    {
      forall v | v in members ensures timers[HEAP0].w.at <= v.at {
        RootIsMin(timers[..], timercnt, v.active);
      }
    }

    /** The timer at the root repeats and is rescheduled. */
    method RepeatRoot()
      requires Valid() && timercnt > 0 && timers[HEAP0].w.repeat != 0.0
      modifies timers, watchers`active, watchers`at
      ensures Valid()
      ensures PassDone(old(Snapshot()), Snapshot(), old([timers[HEAP0].w]), mnNow)
    {
      var w := timers[HEAP0].w;
      ResetRoot(Larger(w.at + w.repeat, mnNow));
    }

    /** A timer that does not repeat is stopped. */
    method StopDue(w: Watcher)
      requires Valid() && w in members && w.repeat == 0.0
      modifies this`timercnt, this`activecnt, this`members, timers, watchers`active, w`at
      modifies pend`pendings, pend`history, w`pending
      ensures Valid() && members == old(members) - {w} && activecnt == old(activecnt) - 1
      ensures PassDone(old(Snapshot()), Snapshot(), [w], mnNow)
      ensures ExtendsBy(old(pend.history), pend.history, watchers)
    {
      TimerStop(w);
      pend.IdleHasNoBits(w);
    }

    /** Reschedules or stops the timer at the root, whose repeat value must not be negative (assertion of ev.c). */
    method RenewRoot()
      requires Valid() && timercnt > 0 && timers[HEAP0].w.repeat >= 0.0
      modifies this`timercnt, this`activecnt, this`members, timers, watchers`active, watchers`at
      modifies pend`pendings, pend`history, watchers`pending
      ensures Valid() && members <= old(members)
      ensures PassDone(old(Snapshot()), Snapshot(), old([timers[HEAP0].w]), mnNow)
      ensures activecnt - |members| == old(activecnt - |members|)
      ensures ExtendsBy(old(pend.history), pend.history, watchers)
    {
      var w := timers[HEAP0].w;
      if w.repeat != 0.0 {
        RepeatRoot();
      } else {
        StopDue(w);
      }
    }

    /** In the middle of a pass that began with was and h0, the timers in done have been dealt with. */
    ghost predicate MidPass(was: Moment, here: Moment, h0: History, done: seq<Watcher>, excess: int)
      reads this, timers, watchers`active, watchers`at, watchers`repeat, watchers`priority
      reads pend`pendings, pend`pendingpri, pend`scripts, pend`history, pend.universe`pending, pend.universe`priority
    {
      && Valid() && here == Snapshot() && DoneInOrder(done, was, mnNow) && PassDone(was, here, done, mnNow)
      && ExtendsBy(h0, pend.history, watchers) && (forall v | v in members :: v.repeat >= 0.0)
      && activecnt - |members| == excess
    }

    /** timers_reify's loop up to feed_reverse, after the timers in done were dealt with. */
    method ReifyRoot(ghost was: Moment, ghost start: Moment, ghost h0: History,
                     ghost done: seq<Watcher>, ghost excess: int)
      returns (w: Watcher, ghost here: Moment)
      requires MidPass(was, start, h0, done, excess) && timercnt > 0 && timers[HEAP0].at < mnNow
      modifies this`timercnt, this`activecnt, this`members, timers, watchers`active, watchers`at
      modifies pend`pendings, pend`history, watchers`pending
      ensures MidPass(was, here, h0, done + [w], excess) && Late(here, mnNow) < Late(start, mnNow)
      ensures mnNow == old(mnNow)
    {
      RootIsFirst();
      w := timers[HEAP0].w;
      ghost var before := Snapshot();
      RenewRoot();
      here := Snapshot();
      RoundNext(done, w, was, before, here, mnNow);
      ExtendsByOn(h0, old(pend.history), pend.history, watchers);
    }

    /** feed_reverse changes nothing about the timers. */
    method PutAside(w: Watcher, ghost was: Moment, ghost here: Moment, ghost h0: History, ghost excess: int)
      requires MidPass(was, here, h0, pend.rfeeds + [w], excess)
      modifies pend`rfeeds
      ensures MidPass(was, here, h0, pend.rfeeds, excess) && pend.rfeeds == old(pend.rfeeds) + [w]
      ensures mnNow == old(mnNow)
    {
      pend.FeedReverse(w);
    }

    /** The body of timers_reify's loop. */
    method ReifyStep(ghost was: Moment, ghost start: Moment, ghost h0: History, ghost excess: int)
      returns (ghost here: Moment)
      requires MidPass(was, start, h0, pend.rfeeds, excess) && timercnt > 0 && timers[HEAP0].at < mnNow
      modifies this`timercnt, this`activecnt, this`members, timers, watchers`active, watchers`at
      modifies pend`pendings, pend`history, pend`rfeeds, watchers`pending
      ensures MidPass(was, here, h0, pend.rfeeds, excess) && pend.rfeeds != [] && Late(here, mnNow) < Late(start, mnNow)
    {
      var w;
      w, here := ReifyRoot(was, start, h0, pend.rfeeds, excess);
      PutAside(w, was, here, h0, excess);
    }

    /** timers_reify's loop: the due timers, in the order in which they are due. */
    method ReifyDue()
      requires Valid() && pend.rfeeds == [] && timercnt != 0 && timers[HEAP0].at < mnNow
      requires forall v | v in members :: v.repeat >= 0.0
      modifies this`timercnt, this`activecnt, this`members, timers, watchers`active, watchers`at
      modifies pend`pendings, pend`history, pend`rfeeds, watchers`pending
      ensures MidPass(old(Snapshot()), Snapshot(), old(pend.history), pend.rfeeds, old(activecnt - |members|))
      ensures pend.rfeeds != []
      ensures timercnt == 0 || timers[HEAP0].at >= mnNow
    {
      ghost var was, h0, excess := Snapshot(), pend.history, activecnt - |members|;
      ghost var here := was;
      while true
        invariant MidPass(was, here, h0, pend.rfeeds, excess) && timercnt != 0 && timers[HEAP0].at < mnNow
        decreases Late(here, mnNow)
      {
        here := ReifyStep(was, here, h0, excess);
        if !(timercnt != 0 && timers[HEAP0].at < mnNow) {
          break;
        }
      }
    }

    /** feed_reverse_done does not disturb the heap. */
    method FeedDue(ghost slots: seq<nat>)
      requires Valid() && pend.rfeeds != [] && Distinct(pend.rfeeds) && forall w | w in pend.rfeeds :: w in watchers
      requires |slots| == |pend.rfeeds| && forall i | 0 <= i < |slots| :: slots[i] == pend.rfeeds[i].pending
      modifies pend`pendings, pend`pendingpri, pend`history, pend`rfeeds, watchers`pending
      ensures Valid() && pend.rfeeds == []
      ensures forall w | w in old(pend.rfeeds) :: w.PriorityOk()
      ensures pend.history == FeedAll(old(pend.history), old(pend.rfeeds), 0, EV_TIMER)
      ensures FedFrom(old(pend.rfeeds), 0, slots, old(pend.pendings), pend.pendings)
      ensures forall w | w in watchers && w !in old(pend.rfeeds) :: w.pending == old(w.pending)
    {
      forall w | w in pend.rfeeds ensures w.PriorityOk() {
        assert PointerOk(pend.pendings, w);
      }
      pend.FeedReverseDone(EV_TIMER, slots);
    }

    /** feed_reverse_done gives each timer put aside EV_TIMER, and changes nothing else but the slots. */
    method QueueAll(ghost slots: seq<nat>)
      requires Valid() && pend.rfeeds != [] && Distinct(pend.rfeeds) && forall w | w in pend.rfeeds :: w in watchers
      requires |slots| == |pend.rfeeds| && forall i | 0 <= i < |slots| :: slots[i] == pend.rfeeds[i].pending
      modifies pend`pendings, pend`pendingpri, pend`history, pend`rfeeds, watchers`pending
      ensures Valid() && pend.rfeeds == [] && AllQueued(old(Snapshot()), Snapshot(), old(pend.rfeeds), EV_TIMER)
      ensures FedFrom(old(pend.rfeeds), 0, slots, old(pend.pendings), pend.pendings)
      ensures ExtendsBy(old(pend.history), pend.history, watchers)
    {
      ghost var due, h, start := pend.rfeeds, pend.history, Snapshot();
      FeedDue(slots);
      FeedAllExtends(h, due, 0, EV_TIMER, watchers);
      forall v | v in watchers
        ensures Queued(start[v], Snapshot()[v], v in due, EV_TIMER)
      {
        FeedAllBits(h, due, 0, EV_TIMER, v);
      }
    }

    /** The slots of the timers that became pending: the earlier due above, all above other watchers. */
    ghost predicate Arranged(due: seq<Watcher>, risen: set<Watcher>)
      reads due`pending, due`priority, risen`pending, risen`priority, pend.universe`pending, pend.universe`priority
    {
      Stacked(due, risen) && OnTop(risen, pend.universe - watchers)
    }

    /** feed_reverse_done for the timers put aside: an earlier one above a later one, all above other watchers. */
    method QueueDue(ghost was: Moment)
      requires Valid() && pend.rfeeds != []
      requires DoneInOrder(pend.rfeeds, was, mnNow) && PassDone(was, Snapshot(), pend.rfeeds, mnNow)
      modifies pend`pendings, pend`pendingpri, pend`history, pend`rfeeds, watchers`pending
      ensures Valid() && pend.rfeeds == []
      ensures AllReified(was, Snapshot(), old(pend.rfeeds), mnNow)
      ensures Arranged(old(pend.rfeeds), Risen(old(pend.rfeeds), was))
      ensures ExtendsBy(old(pend.history), pend.history, watchers)
    {
      ghost var due, here, start := pend.rfeeds, Snapshot(), pend.pendings;
      ghost var slots := SlotsOf(due);
      RisenWereIdle(due, was, here, mnNow);
      assert forall u | u in pend.universe :: PointerOk(start, u);
      QueueAll(slots);
      FedArranged(due, Risen(due, was), slots, start, pend.pendings, pend.universe - watchers);
      PassQueued(was, here, Snapshot(), due, mnNow);
    }

    /** The body of timers_reify's if. */
    method ReifyAndQueue() returns (ghost due: seq<Watcher>)
      requires Valid() && pend.rfeeds == [] && forall v | v in members :: v.repeat >= 0.0
      requires timercnt != 0 && timers[HEAP0].at < mnNow
      modifies this`timercnt, this`activecnt, this`members, timers, watchers`active, watchers`at
      modifies pend`pendings, pend`pendingpri, pend`history, pend`rfeeds, watchers`pending
      ensures Valid() && pend.rfeeds == []
      ensures DoneInOrder(due, old(Snapshot()), mnNow)
      ensures AllReified(old(Snapshot()), Snapshot(), due, mnNow) && Arranged(due, Risen(due, old(Snapshot())))
      ensures timercnt == 0 || timers[HEAP0].at >= mnNow
      ensures activecnt - |members| == old(activecnt - |members|)
      ensures ExtendsBy(old(pend.history), pend.history, watchers)
    {
      ghost var was := Snapshot();
      ReifyDue();
      due := pend.rfeeds;
      ghost var h := pend.history;
      QueueDue(was);
      ExtendsByOn(old(pend.history), h, pend.history, watchers);
    }

    /**
     timers_reify: exactly the timers due before mnNow become pending with EV_TIMER, each is
     rescheduled or stopped, and no timer is due before mnNow any more. Only timers are touched.
     */
    method TimersReify() returns (ghost due: seq<Watcher>)
      requires Valid() && pend.rfeeds == [] && forall v | v in members :: v.repeat >= 0.0
      modifies this`timercnt, this`activecnt, this`members, timers, watchers`active, watchers`at
      modifies pend`pendings, pend`pendingpri, pend`history, pend`rfeeds, watchers`pending
      ensures Valid() && pend.rfeeds == []
      ensures DoneInOrder(due, old(Snapshot()), mnNow) && forall v | v in Late(old(Snapshot()), mnNow) :: v in due
      ensures AllReified(old(Snapshot()), Snapshot(), due, mnNow) && Arranged(due, Risen(due, old(Snapshot())))
      ensures forall v | v in members :: v.at >= mnNow
      ensures activecnt - |members| == old(activecnt - |members|)
      ensures ExtendsBy(old(pend.history), pend.history, watchers)
    {
      ghost var was := Snapshot();
      due := [];
      if timercnt != 0 && timers[HEAP0].at < mnNow {
        due := ReifyAndQueue();
      }
      if timercnt != 0 {
        RootIsFirst();
      }
      AllLateDone(was, Snapshot(), due, mnNow);
    }

    /** Each timer runs or not, and is at the time, as m says. */
    ghost predicate Like(m: Moment)
      reads this`members, watchers`at
    {
      m.Keys == watchers && forall v | v in watchers :: (v in members <==> m[v].running) && v.at == m[v].at
    }

    /** timers_reify, and what it leaves behind. */
    method Pass() returns (ghost r: Round)
      requires Valid() && pend.rfeeds == [] && forall v | v in members :: v.repeat >= 0.0
      modifies this`timercnt, this`activecnt, this`members, timers, watchers`active, watchers`at
      modifies pend`pendings, pend`pendingpri, pend`history, pend`rfeeds, watchers`pending
      ensures Valid() && pend.rfeeds == [] && ExtendsBy(old(pend.history), pend.history, watchers)
      ensures r.was == old(Snapshot()) && r.here == Snapshot() && r.now == mnNow
      ensures PassMade(r, pend.Where(), pend.universe - watchers)
      ensures Unmoved(old(pend.Where()), pend.Where(), pend.universe - watchers)
    {
      ghost var was := Snapshot();
      forall v | v in watchers && v.pending == 0 ensures was[v].bits == {} {
        pend.IdleHasNoBits(v);
      }
      ghost var due := TimersReify();
      PlacedToo(pend, due, Risen(due, was), pend.universe - watchers);
      IsMade(was, Snapshot(), due, mnNow, pend.Where(), pend.universe - watchers);
      r := Round(was, Snapshot(), due, mnNow);
    }
  }
}
