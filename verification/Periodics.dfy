/** Periodics: watchers with absolute times, which may be recomputed when the clock jumps. */
module Periodics {
  import opened Watchers
  import opened Heap
  import opened TimeHeap
  import opened Passes
  import opened Pending
  import opened Floor

  /** What sets a periodic's next time. */
  datatype Schedule = Schedule(rescheduled: bool, interval: real, offset: real)

  /** All periodics at some moment. */
  type Moment = map<Watcher, Status<Schedule>>

  /** A possible new time: any for a reschedule callback, the next one for an interval, else the old one. */
  ghost predicate Retimed(rescheduled: bool, interval: real, offset: real, was: real, at: real, now: real) {
    if rescheduled then true
    else if interval != 0.0 then IsNext(at, offset, interval, now)
    else at == was
  }

  /** The same for w. */
  ghost predicate MayBe(w: Watcher, was: real, at: real, now: real)
    reads w`rescheduled, w`interval, w`offset
  {
    Retimed(w.rescheduled, w.interval, w.offset, was, at, now)
  }

  /** What periodics_reify may make of a due periodic: it gets a time that is not past, or is stopped. */
  ghost predicate Renewed(was: Status<Schedule>, here: Status<Schedule>, now: real) {
    if was.how.rescheduled || was.how.interval != 0.0 then
      here == was.(at := here.at) && here.at >= now
      && Retimed(was.how.rescheduled, was.how.interval, was.how.offset, was.at, here.at, now)
    else
      here == was.(running := false, pending := 0, bits := {})
  }

  /** Every periodic in done has been renewed, and no other one has changed. */
  ghost predicate PassDone(was: Moment, here: Moment, done: seq<Watcher>, now: real) {
    && was.Keys == here.Keys
    && forall v | v in was :: if v in done then Renewed(was[v], here[v], now) else here[v] == was[v]
  }

  /** What is done is no longer late, and the rest is as it was. */
  lemma AllDone(done: seq<Watcher>, was: Moment, here: Moment, now: real)
    requires PassDone(was, here, done, now) && forall v | v in done :: v in was
    ensures forall v | v in done :: v !in Late(here, now)
    ensures forall v | v in was && v !in done :: here[v] == was[v]
  {
    forall v | v in done ensures v !in Late(here, now) {
      assert Renewed(was[v], here[v], now);
    }
  }

  lemma PassNext(done: seq<Watcher>, w: Watcher, was: Moment, here: Moment, next: Moment, now: real)
    requires PassDone(was, here, done, now) && PassDone(here, next, [w], now) && w !in done
    requires w in Late(here, now)
    ensures PassDone(was, next, done + [w], now)
    ensures Late(next, now) < Late(here, now)
  {
    forall v | v in was
      ensures v != w ==> next[v] == here[v]
      ensures v in Late(next, now) ==> v in Late(here, now)
    {
      assert v != w ==> v !in [w];
    }
    assert w in [w] && Renewed(here[w], next[w], now);
    assert w in Late(here, now) && w !in Late(next, now);
  }

  /** One round of the pass, which deals with the running periodic that is due first. */
  lemma RoundNext(done: seq<Watcher>, w: Watcher, was: Moment, here: Moment, next: Moment, now: real)
    requires DoneInOrder(done, was, now) && PassDone(was, here, done, now) && PassDone(here, next, [w], now)
    requires w in Late(here, now) && forall u | u in here && here[u].running :: here[w].at <= here[u].at
    ensures DoneInOrder(done + [w], was, now) && PassDone(was, next, done + [w], now)
    ensures Late(next, now) < Late(here, now)
  {
    AllDone(done, was, here, now);
    DoneNext(done, w, was, here, now);
    PassNext(done, w, was, here, next, now);
  }

  /** If due, the periodic becomes pending in the pass: it was not pending before or loses its slot. */
  ghost predicate BecomesPending(was: Status<Schedule>) {
    was.pending == 0 || (!was.how.rescheduled && was.how.interval == 0.0)
  }

  /** The due periodics that become pending in the pass. */
  ghost function Risen(due: seq<Watcher>, was: Moment): set<Watcher> {
    set v | v in due && v in was && BecomesPending(was[v])
  }

  lemma RisenWereIdle(due: seq<Watcher>, was: Moment, here: Moment, now: real)
    requires PassDone(was, here, due, now)
    ensures forall v | v in Risen(due, was) :: here[v].pending == 0
  {
    forall v | v in Risen(due, was) ensures here[v].pending == 0 {
      assert Renewed(was[v], here[v], now);
    }
  }

  /** A pass: the periodics before, after being renewed, and after it, those that were due, and the time. */
  datatype Round = Round(was: Moment, renewed: Moment, here: Moment, due: seq<Watcher>, now: real) {
    /** Those that became pending. */
    ghost function Up(): set<Watcher> { Risen(due, was) }
  }

  /** A pass has dealt with exactly the late periodics, in the order in which they were due. */
  ghost predicate Handled(r: Round) {
    && DoneInOrder(r.due, r.was, r.now) && (forall v | v in Late(r.was, r.now) :: v in r.due)
    && PassDone(r.was, r.renewed, r.due, r.now) && AllQueued(r.renewed, r.here, r.due, EV_PERIODIC)
  }

  /** Those that became pending in it are above the others and each other, the earlier due the higher. */
  ghost predicate PassMade(r: Round, p: Places, others: set<Watcher>) {
    && Handled(r) && (forall v | v in r.was && r.was[v].pending == 0 :: r.was[v].bits == {})
    && PlacedInOrder(p, r.due, r.Up()) && PlacedOnTop(p, r.Up(), others)
  }

  lemma IsMade(was: Moment, renewed: Moment, here: Moment, due: seq<Watcher>, now: real, p: Places,
               others: set<Watcher>)
    requires DoneInOrder(due, was, now) && (forall v | v in Late(was, now) :: v in due)
    requires PassDone(was, renewed, due, now) && AllQueued(renewed, here, due, EV_PERIODIC)
    requires forall v | v in was && was[v].pending == 0 :: was[v].bits == {}
    requires PlacedInOrder(p, due, Risen(due, was)) && PlacedOnTop(p, Risen(due, was), others)
    ensures PassMade(Round(was, renewed, here, due, now), p, others)
  {
  }

  /** What happens to other watchers afterwards does not matter. */
  lemma PassStays(r: Round, p: Places, others: set<Watcher>, p2: Places, fewer: set<Watcher>)
    requires PassMade(r, p, others) && fewer <= others && Unmoved(p, p2, r.was.Keys + fewer)
    ensures PassMade(r, p2, fewer)
  {
  }

  class PeriodicLoop {
    const pend: Pendings
    ghost const watchers: set<Watcher>  // the initialised periodics
    var periodics: array<Entry>
    var periodiccnt: nat
    var activecnt: int
    var rtNow: real
    ghost var members: set<Watcher>     // the running periodics

    ghost predicate HeapOk()
      reads this`periodics, this`periodiccnt, this`members, periodics, watchers`active, watchers`at
    {
      && members <= watchers
      && Linked(periodics, periodiccnt, members) && Ordered(periodics[..], periodiccnt)
      && (forall w {:trigger w in watchers} | w in watchers :: w.active != 0 ==> w in members)
    }

    ghost predicate Valid()
      reads this`periodics, this`periodiccnt, this`members, periodics, watchers`active, watchers`at
      reads pend`pendings, pend`pendingpri, pend`scripts, pend`history, pend.universe`pending, pend.universe`priority
    {
      HeapOk() && pend.Valid() && watchers <= pend.universe
    }

    constructor (pend: Pendings, ghost watchers: set<Watcher>, now: real)
      requires pend.Valid() && watchers <= pend.universe && forall w | w in watchers :: w.active == 0
      ensures Valid() && fresh(periodics) && this.pend == pend && this.watchers == watchers
      ensures members == {} && rtNow == now && activecnt == 0
    {
      this.pend, this.watchers, rtNow, periodiccnt, activecnt, members := pend, watchers, now, 0, 0, {};
      periodics := new Entry[0];
    }

    /** Enters w into the heap, as the last part of ev_periodic_start does. */
    method Link(w: Watcher)
      requires HeapOk() && w in watchers && w.active == 0
      modifies this`periodics, this`periodiccnt, this`members, periodics, watchers`active
      ensures HeapOk() && members == old(members) + {w} && (periodics == old(periodics) || fresh(periodics))
    {
      periodics := Enter(periodics, periodiccnt, w, members);
      periodiccnt := periodiccnt + 1;
      members := members + {w};
    }

    /** Takes w out of the heap, as the last part of ev_periodic_stop does. */
    method Unlink(w: Watcher)
      requires HeapOk() && w in members
      modifies this`periodiccnt, this`members, periodics, watchers`active
      ensures HeapOk() && w.active == 0 && members == old(members) - {w}
    {
      Leave(periodics, periodiccnt, w, members);
      periodiccnt := periodiccnt - 1;
      members := members - {w};
      w.active := 0;
    }

    /** Gives the periodic that is due first another time. */
    method ResetRoot(at: real)
      requires HeapOk() && periodiccnt > 0
      modifies periodics, watchers`active, periodics[HEAP0].w`at
      ensures HeapOk() && old(periodics[HEAP0].w).at == at
    {
      SetRootTime(periodics, periodiccnt, at, members);
    }

    /** ev_periodic_start; an assertion of ev.c demands that the interval is not negative. */
    method PeriodicStart(w: Watcher)
      requires Valid() && w in watchers && (w.rescheduled || w.interval >= 0.0)
      modifies this`periodics, this`periodiccnt, this`activecnt, this`members, periodics, watchers`active, w`at
      ensures Valid() && (periodics == old(periodics) || fresh(periodics))
      ensures members == old(members) + {w}
      ensures w in old(members) ==> w.at == old(w.at)
      ensures w !in old(members) && !w.rescheduled ==>
                if w.interval != 0.0 then IsNext(w.at, w.offset, w.interval, rtNow) else w.at == w.offset
      ensures activecnt == old(activecnt) + if w in old(members) then 0 else 1
    {
      if w.active != 0 {
        return;
      }
      assert w !in members;
      if w.rescheduled {
        var answer: real := *;  // reschedule_cb
        w.at := answer;
      } else if w.interval != 0.0 {
        var next := Recalc(w.offset, w.interval, rtNow);
        w.at := next;
      } else {
        w.at := w.offset;
      }
      activecnt := activecnt + 1;
      Link(w);
    }

    /** ev_periodic_stop, which also makes w no longer pending. */
    method PeriodicStop(w: Watcher)
      requires Valid() && w in watchers
      modifies this`periodiccnt, this`activecnt, this`members, periodics, watchers`active
      modifies pend`pendings, pend`history, w`pending
      ensures Valid() && w.pending == 0 && w.active == 0 && members == old(members) - {w}
      ensures pend.history == if old(w.pending) > 0 then Then(old(pend.history), Cleared(w)) else old(pend.history)
      ensures activecnt == old(activecnt) - if w in old(members) then 1 else 0
    {
      assert PointerOk(pend.pendings, w);
      var _ := pend.Clear(w);
      if w.active == 0 {
        assert w !in members;
        return;
      }
      activecnt := activecnt - 1;
      Unlink(w);
    }

    /** ev_periodic_again */
    method PeriodicAgain(w: Watcher)
      requires Valid() && w in watchers && (w.rescheduled || w.interval >= 0.0)
      modifies this`periodics, this`periodiccnt, this`activecnt, this`members, periodics, watchers`active, w`at
      modifies pend`pendings, pend`history, w`pending
      ensures Valid() && w.pending == 0 && (periodics == old(periodics) || fresh(periodics))
      ensures members == old(members) + {w}
      ensures !w.rescheduled ==>
                if w.interval != 0.0 then IsNext(w.at, w.offset, w.interval, rtNow) else w.at == w.offset
      ensures activecnt == old(activecnt) + if w in old(members) then 0 else 1
    {
      PeriodicStop(w);
      PeriodicStart(w);
    }

    /** Each periodic as it is now. */
    ghost function Snapshot(): (m: Moment)
      reads this`members, watchers`at, watchers`rescheduled, watchers`interval, watchers`offset
      reads watchers`priority, watchers`pending, pend`history
      ensures m.Keys == watchers
    {
      map v | v in watchers ::
        Status(v in members, v.at, Schedule(v.rescheduled, v.interval, v.offset), v.priority, v.pending,
               BitsSince(pend.history, v))
    }

    twostate lemma HeapStays()
      requires old(HeapOk()) && unchanged(`periodics, `periodiccnt, `members) && unchanged(periodics)
      requires forall v | v in watchers :: v.active == old(v.active) && v.at == old(v.at)
      ensures HeapOk()
    {
    }

    twostate lemma SnapshotStays()
      requires members == old(members)
      requires forall v | v in watchers ::
                 && v.at == old(v.at) && v.priority == old(v.priority) && v.pending == old(v.pending)
                 && v.rescheduled == old(v.rescheduled) && v.interval == old(v.interval) && v.offset == old(v.offset)
                 && BitsSince(pend.history, v) == BitsSince(old(pend.history), v)
      ensures Snapshot() == old(Snapshot())
    {
    }

    /** The periodic that is due first, and no periodic is due before it. */
    lemma RootIsFirst()
      requires Valid() && periodiccnt > 0
      ensures periodics[HEAP0].w in members && periodics[HEAP0].w.at == periodics[HEAP0].at
      ensures forall v | v in members :: periodics[HEAP0].w.at <= v.at
    {
      forall v | v in members ensures periodics[HEAP0].w.at <= v.at {
        RootIsMin(periodics[..], periodiccnt, v.active);
      }
    }

    /** A reschedule callback answers with a time that is not past, as assertions of ev.c demand. */
    method Answer() returns (at: real)
      ensures at >= rtNow
    {
      at := *;
      if at < rtNow {
        at := rtNow;
      }
    }

    /** The periodic at the root has a reschedule callback or an interval. */
    method RescheduleRoot()
      requires Valid() && periodiccnt > 0
      requires var w := periodics[HEAP0].w; w.rescheduled || w.interval > 0.0
      modifies periodics, watchers`active, watchers`at
      ensures Valid()
      ensures PassDone(old(Snapshot()), Snapshot(), old([periodics[HEAP0].w]), rtNow)
    {
      var w := periodics[HEAP0].w;
      var at;
      if w.rescheduled {
        at := Answer();
      } else {
        at := Recalc(w.offset, w.interval, rtNow);
      }
      ResetRoot(at);
    }

    /** A periodic with neither is stopped. */
    method StopDue(w: Watcher)
      requires Valid() && w in members && !w.rescheduled && w.interval == 0.0
      modifies this`periodiccnt, this`activecnt, this`members, periodics, watchers`active
      modifies pend`pendings, pend`history, w`pending
      ensures Valid() && members <= old(members)
      ensures PassDone(old(Snapshot()), Snapshot(), [w], rtNow)
      ensures ExtendsBy(old(pend.history), pend.history, watchers)
    {
      PeriodicStop(w);
      pend.IdleHasNoBits(w);
    }

    /** Reschedules or stops the periodic at the root. */
    method RenewRoot()
      requires Valid() && periodiccnt > 0
      requires var w := periodics[HEAP0].w; w.rescheduled || w.interval >= 0.0
      modifies this`periodiccnt, this`activecnt, this`members, periodics, watchers`active, watchers`at
      modifies pend`pendings, pend`history, watchers`pending
      ensures Valid() && members <= old(members)
      ensures PassDone(old(Snapshot()), Snapshot(), old([periodics[HEAP0].w]), rtNow)
      ensures ExtendsBy(old(pend.history), pend.history, watchers)
    {
      var w := periodics[HEAP0].w;
      if w.rescheduled || w.interval != 0.0 {
        RescheduleRoot();
      } else {
        StopDue(w);
      }
    }

    /** In the middle of a pass that began with was and h0, the periodics in done have been dealt with. */
    ghost predicate MidPass(was: Moment, here: Moment, h0: History, done: seq<Watcher>)
      reads this, periodics, watchers`active, watchers`at
      reads watchers`rescheduled, watchers`interval, watchers`offset, watchers`priority
      reads pend`pendings, pend`pendingpri, pend`scripts, pend`history, pend.universe`pending, pend.universe`priority
    {
      && Valid() && here == Snapshot() && DoneInOrder(done, was, rtNow) && PassDone(was, here, done, rtNow)
      && ExtendsBy(h0, pend.history, watchers) && (forall v | v in members :: v.rescheduled || v.interval >= 0.0)
    }

    /** The body of periodics_reify's inner loop up to feed_reverse, after those in done were dealt with. */
    method ReifyRoot(ghost was: Moment, ghost start: Moment, ghost h0: History, ghost done: seq<Watcher>)
      returns (w: Watcher, ghost here: Moment)
      requires MidPass(was, start, h0, done) && periodiccnt > 0 && periodics[HEAP0].at < rtNow
      modifies this`periodiccnt, this`activecnt, this`members, periodics, watchers`active, watchers`at
      modifies pend`pendings, pend`history, watchers`pending
      ensures MidPass(was, here, h0, done + [w]) && Late(here, rtNow) < Late(start, rtNow)
      ensures rtNow == old(rtNow)
    {
      RootIsFirst();
      w := periodics[HEAP0].w;
      ghost var before := Snapshot();
      RenewRoot();
      here := Snapshot();
      RoundNext(done, w, was, before, here, rtNow);
      ExtendsByOn(h0, old(pend.history), pend.history, watchers);
    }

    /** feed_reverse changes nothing about the periodics. */
    method PutAside(w: Watcher, ghost was: Moment, ghost here: Moment, ghost h0: History)
      requires MidPass(was, here, h0, pend.rfeeds + [w])
      modifies pend`rfeeds
      ensures MidPass(was, here, h0, pend.rfeeds) && pend.rfeeds == old(pend.rfeeds) + [w]
      ensures rtNow == old(rtNow)
    {
      pend.FeedReverse(w);
    }

    /** The body of periodics_reify's inner loop. */
    method ReifyStep(ghost was: Moment, ghost start: Moment, ghost h0: History)
      returns (ghost here: Moment)
      requires MidPass(was, start, h0, pend.rfeeds) && periodiccnt > 0 && periodics[HEAP0].at < rtNow
      modifies this`periodiccnt, this`activecnt, this`members, periodics, watchers`active, watchers`at
      modifies pend`pendings, pend`history, pend`rfeeds, watchers`pending
      ensures MidPass(was, here, h0, pend.rfeeds) && pend.rfeeds != [] && Late(here, rtNow) < Late(start, rtNow)
    {
      var w;
      w, here := ReifyRoot(was, start, h0, pend.rfeeds);
      PutAside(w, was, here, h0);
    }

    /** periodics_reify's inner loop. */
    method ReifyDue()
      requires Valid() && pend.rfeeds == [] && periodiccnt != 0 && periodics[HEAP0].at < rtNow
      requires forall v | v in members :: v.rescheduled || v.interval >= 0.0
      modifies this`periodiccnt, this`activecnt, this`members, periodics, watchers`active, watchers`at
      modifies pend`pendings, pend`history, pend`rfeeds, watchers`pending
      ensures MidPass(old(Snapshot()), Snapshot(), old(pend.history), pend.rfeeds) && pend.rfeeds != []
      ensures periodiccnt == 0 || periodics[HEAP0].at >= rtNow
    {
      ghost var was, h0 := Snapshot(), pend.history;
      ghost var here := was;
      while true
        invariant MidPass(was, here, h0, pend.rfeeds) && periodiccnt != 0 && periodics[HEAP0].at < rtNow
        decreases Late(here, rtNow)
      {
        here := ReifyStep(was, here, h0);
        if !(periodiccnt != 0 && periodics[HEAP0].at < rtNow) {
          break;
        }
      }
    }

    /** feed_reverse_done does not disturb the heap. */
    method FeedDue(ghost slots: seq<nat>)
      requires Valid() && pend.rfeeds != [] && Distinct(pend.rfeeds) && forall w | w in pend.rfeeds :: w in watchers
      requires |slots| == |pend.rfeeds| && forall i | 0 <= i < |slots| :: slots[i] == pend.rfeeds[i].pending
      modifies pend`pendings, pend`pendingpri, pend`history, pend`rfeeds, watchers`pending
      ensures Valid() && pend.rfeeds == []
      ensures forall w | w in old(pend.rfeeds) :: w.PriorityOk() && w.pending > 0
      ensures pend.history == FeedAll(old(pend.history), old(pend.rfeeds), 0, EV_PERIODIC)
      ensures FedFrom(old(pend.rfeeds), 0, slots, old(pend.pendings), pend.pendings)
      ensures forall w | w in watchers && w !in old(pend.rfeeds) :: w.pending == old(w.pending)
    {
      forall w | w in pend.rfeeds ensures w.PriorityOk() {
        assert PointerOk(pend.pendings, w);
      }
      ghost var due, start := pend.rfeeds, pend.pendings;
      pend.FeedReverseDone(EV_PERIODIC, slots);
      assert forall i | 0 <= i < |due| :: Settled(due[i], slots[i], start, pend.pendings);
    }

    /** feed_reverse_done gives each periodic put aside EV_PERIODIC, and changes nothing else but the slots. */
    method QueueAll(ghost slots: seq<nat>)
      requires Valid() && pend.rfeeds != [] && Distinct(pend.rfeeds) && forall w | w in pend.rfeeds :: w in watchers
      requires |slots| == |pend.rfeeds| && forall i | 0 <= i < |slots| :: slots[i] == pend.rfeeds[i].pending
      modifies pend`pendings, pend`pendingpri, pend`history, pend`rfeeds, watchers`pending
      ensures Valid() && pend.rfeeds == [] && AllQueued(old(Snapshot()), Snapshot(), old(pend.rfeeds), EV_PERIODIC)
      ensures FedFrom(old(pend.rfeeds), 0, slots, old(pend.pendings), pend.pendings)
      ensures ExtendsBy(old(pend.history), pend.history, watchers)
    {
      ghost var due, h, start := pend.rfeeds, pend.history, Snapshot();
      FeedDue(slots);
      FeedAllExtends(h, due, 0, EV_PERIODIC, watchers);
      forall v | v in watchers
        ensures Queued(start[v], Snapshot()[v], v in due, EV_PERIODIC)
      {
        FeedAllBits(h, due, 0, EV_PERIODIC, v);
      }
    }

    /** The slots of the periodics that became pending: the earlier due above, all above other watchers. */
    ghost predicate Arranged(due: seq<Watcher>, risen: set<Watcher>)
      reads due`pending, due`priority, risen`pending, risen`priority, pend.universe`pending, pend.universe`priority
    {
      Stacked(due, risen) && OnTop(risen, pend.universe - watchers)
    }

    /** feed_reverse_done for the periodics put aside: each becomes pending, above other watchers. */
    method QueueDue(ghost was: Moment)
      requires Valid() && pend.rfeeds != [] && Distinct(pend.rfeeds) && forall w | w in pend.rfeeds :: w in watchers
      requires PassDone(was, Snapshot(), pend.rfeeds, rtNow)
      modifies pend`pendings, pend`pendingpri, pend`history, pend`rfeeds, watchers`pending
      ensures Valid() && pend.rfeeds == [] && AllQueued(old(Snapshot()), Snapshot(), old(pend.rfeeds), EV_PERIODIC)
      ensures Arranged(old(pend.rfeeds), Risen(old(pend.rfeeds), was))
      ensures ExtendsBy(old(pend.history), pend.history, watchers)
    {
      ghost var due, here, start := pend.rfeeds, Snapshot(), pend.pendings;
      ghost var slots := SlotsOf(due);
      RisenWereIdle(due, was, here, rtNow);
      assert forall u | u in pend.universe :: PointerOk(start, u);
      QueueAll(slots);
      FedArranged(due, Risen(due, was), slots, start, pend.pendings, pend.universe - watchers);
    }

    /** The body of periodics_reify's outer loop. */
    method ReifyAndQueue() returns (ghost due: seq<Watcher>, ghost renewed: Moment)
      requires Valid() && pend.rfeeds == [] && periodiccnt != 0 && periodics[HEAP0].at < rtNow
      requires forall v | v in members :: v.rescheduled || v.interval >= 0.0
      modifies this`periodiccnt, this`activecnt, this`members, periodics, watchers`active, watchers`at
      modifies pend`pendings, pend`pendingpri, pend`history, pend`rfeeds, watchers`pending
      ensures Valid() && pend.rfeeds == []
      ensures DoneInOrder(due, old(Snapshot()), rtNow) && PassDone(old(Snapshot()), renewed, due, rtNow)
      ensures AllQueued(renewed, Snapshot(), due, EV_PERIODIC) && Arranged(due, Risen(due, old(Snapshot())))
      ensures periodiccnt == 0 || periodics[HEAP0].at >= rtNow
      ensures ExtendsBy(old(pend.history), pend.history, watchers)
    {
      ghost var was := Snapshot();
      ReifyDue();
      due, renewed := pend.rfeeds, Snapshot();
      ghost var h := pend.history;
      QueueDue(was);
      ExtendsByOn(old(pend.history), h, pend.history, watchers);
    }

    /**
     periodics_reify: exactly the periodics due before rtNow become pending with EV_PERIODIC, each
     is given its next time or is stopped, and no periodic is due before rtNow any more. After one
     round of the source's outer loop its condition no longer holds.
     */
    method PeriodicsReify() returns (ghost due: seq<Watcher>, ghost renewed: Moment)
      requires Valid() && pend.rfeeds == [] && forall v | v in members :: v.rescheduled || v.interval >= 0.0
      modifies this`periodiccnt, this`activecnt, this`members, periodics, watchers`active, watchers`at
      modifies pend`pendings, pend`pendingpri, pend`history, pend`rfeeds, watchers`pending
      ensures Valid() && pend.rfeeds == []
      ensures DoneInOrder(due, old(Snapshot()), rtNow) && forall v | v in Late(old(Snapshot()), rtNow) :: v in due
      ensures PassDone(old(Snapshot()), renewed, due, rtNow) && AllQueued(renewed, Snapshot(), due, EV_PERIODIC)
      ensures Arranged(due, Risen(due, old(Snapshot())))
      ensures forall v | v in members :: v.at >= rtNow
      ensures ExtendsBy(old(pend.history), pend.history, watchers)
    {
      ghost var was := Snapshot();
      due, renewed := [], was;
      if periodiccnt != 0 && periodics[HEAP0].at < rtNow {
        due, renewed := ReifyAndQueue();
      }
      if periodiccnt != 0 {
        RootIsFirst();
      }
      forall v | v in Late(was, rtNow) ensures v in due {
        assert Queued(renewed[v], Snapshot()[v], v in due, EV_PERIODIC);
      }
    }

    /** Periodics that became pending wait for nothing but EV_PERIODIC. */
    lemma UpWait(r: Round, p: Places, others: set<Watcher>)
      requires Valid() && r.was.Keys == watchers && r.here == Snapshot() && PassMade(r, p, others)
      ensures Waits(r.was, r.Up(), EV_PERIODIC, pend.pendings) && r.Up() <= watchers
    {
      forall v | v in r.Up()
        ensures v.priority == r.was[v].priority && v.pending > 0 && Waiting(pend.pendings, v) == EV_PERIODIC
      {
        assert Renewed(r.was[v], r.renewed[v], r.now) && Queued(r.renewed[v], r.here[v], true, EV_PERIODIC);
        assert Told(pend.history, pend.pendings, v);
        assert {} + EV_PERIODIC == EV_PERIODIC;
      }
    }

    /** The queues then call the periodics that became pending in the order in which they were due. */
    lemma DueInOrder(r: Round, others: set<Watcher>)
      requires Valid() && r.was.Keys == watchers && r.here == Snapshot() && PassMade(r, pend.Where(), others)
      ensures CalledInOrder(r.was, r.due, r.Up(), EV_PERIODIC, AllCalls(pend.pendings, pend.dummy))
    {
      UpWait(r, pend.Where(), others);
      PlacedAreCalled(r.was, r.due, r.Up(), EV_PERIODIC, pend);
    }

    /** Each periodic runs or not, and is at the time, as m says. */
    ghost predicate Like(m: Moment)
      reads this`members, watchers`at
    {
      m.Keys == watchers && forall v | v in watchers :: (v in members <==> m[v].running) && v.at == m[v].at
    }

    /** periodics_reify, and what it leaves behind. */
    method Pass() returns (ghost r: Round)
      requires Valid() && pend.rfeeds == [] && forall v | v in members :: v.rescheduled || v.interval >= 0.0
      modifies this`periodiccnt, this`activecnt, this`members, periodics, watchers`active, watchers`at
      modifies pend`pendings, pend`pendingpri, pend`history, pend`rfeeds, watchers`pending
      ensures Valid() && pend.rfeeds == [] && ExtendsBy(old(pend.history), pend.history, watchers)
      ensures r.was == old(Snapshot()) && r.here == Snapshot() && r.now == rtNow
      ensures PassMade(r, pend.Where(), pend.universe - watchers)
      ensures Unmoved(old(pend.Where()), pend.Where(), pend.universe - watchers)
    {
      ghost var was := Snapshot();
      forall v | v in watchers && v.pending == 0 ensures was[v].bits == {} {
        pend.IdleHasNoBits(v);
      }
      ghost var due, renewed := PeriodicsReify();
      PlacedToo(pend, due, Risen(due, was), pend.universe - watchers);
      IsMade(was, renewed, Snapshot(), due, rtNow, pend.Where(), pend.universe - watchers);
      r := Round(was, renewed, Snapshot(), due, rtNow);
    }

    /** The loop body of periodics_reschedule: entry i gets a new time and has it cached. */
    method RescheduleEntry(i: int)
      requires Linked(periodics, periodiccnt, members) && InRange(i, periodiccnt)
      requires var w := periodics[i].w; w.rescheduled || w.interval >= 0.0
      modifies periodics, periodics[i].w`at
      ensures Linked(periodics, periodiccnt, members) && periodics[i].w == old(periodics[i].w)
      ensures forall j | 0 <= j < periodics.Length && j != i :: periodics[j] == old(periodics[j])
      ensures MayBe(periodics[i].w, old(periodics[i].at), periodics[i].at, rtNow)
    {
      var w := periodics[i].w;
      if w.rescheduled {
        var answer: real := *;  // reschedule_cb
        w.at := answer;
      } else if w.interval != 0.0 {
        var next := Recalc(w.offset, w.interval, rtNow);
        w.at := next;
      }
      periodics[i] := Entry(w, w.at);
    }

    /** Of the heap s, the entries before i have got new times, the others have kept theirs. */
    ghost predicate RescheduledTo(i: int, s: seq<Entry>)
      reads this`periodics, this`periodiccnt, this`rtNow, periodics
      reads watchers`rescheduled, watchers`interval, watchers`offset
    {
      && |s| == periodics.Length && (HEAP0 + periodiccnt <= |s| || periodiccnt == 0)
      && (forall j {:trigger periodics[j]} | InRange(j, periodiccnt) :: periodics[j].w == s[j].w && s[j].w in watchers)
      && (forall j {:trigger periodics[j]} | InRange(j, periodiccnt) ::
            if j < i then MayBe(s[j].w, s[j].at, periodics[j].at, rtNow) else periodics[j] == s[j])
    }

    /** The loop of periodics_reschedule. */
    method RescheduleAll()
      requires Linked(periodics, periodiccnt, members) && members <= watchers
      requires forall v | v in members :: v.rescheduled || v.interval >= 0.0
      modifies periodics, members`at
      ensures Linked(periodics, periodiccnt, members) && RescheduledTo(HEAP0 + periodiccnt, old(periodics[..]))
    {
      var i := HEAP0;
      while i < periodiccnt + HEAP0
        invariant HEAP0 <= i <= HEAP0 + periodiccnt
        invariant Linked(periodics, periodiccnt, members) && RescheduledTo(i, old(periodics[..]))
      {
        assert periodics[i].w in members;
        RescheduleEntry(i);
        i := i + 1;
      }
    }

    /** periodics_reschedule, after a time jump: all times are recomputed and the heap is in order again. */
    method PeriodicsReschedule()
      requires Valid() && forall v | v in members :: v.rescheduled || v.interval >= 0.0
      modifies periodics, watchers`active, members`at
      ensures Valid()
      ensures forall v | v in members :: MayBe(v, old(v.at), v.at, rtNow)
    {
      RescheduleAll();
      forall v | v in members ensures MayBe(v, old(v.at), v.at, rtNow) {
        assert periodics[v.active].w == v && old(periodics[v.active].w) == v;
      }
      ReHeap(periodics, periodiccnt, members);
    }
  }
}
