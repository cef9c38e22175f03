/**
 The last part of an iteration of ev_run: timers, periodics, idle and check watchers are queued, in
 this order, and what is pending is invoked.
 */
module Iteration {
  import opened Watchers
  import opened Pending
  import opened CallOrder
  import opened Passes
  import Timers
  import Periodics
  import Arrays

  /** Each of first is called before each of those in rest that are pending in the same queue. */
  ghost predicate CalledFirst(h: History, calls: seq<Event>, first: set<Watcher>, rest: set<Watcher>) {
    forall v, u | v in first && u in rest && IsPending(h, u) && PriOf(h, v) == PriOf(h, u) ::
      Precedes(calls, Invoked(v, BitsSince(h, v)), Invoked(u, BitsSince(h, u)))
  }

  ghost predicate AllCalled(h: History, calls: seq<Event>, ws: set<Watcher>) {
    forall u | u in ws && IsPending(h, u) :: Invoked(u, BitsSince(h, u)) in calls
  }

  lemma TopIsFirst(pend: Pendings, first: set<Watcher>, rest: set<Watcher>)
    requires pend.Valid() && first <= pend.universe && rest <= pend.universe
    requires PlacedOnTop(pend.Where(), first, rest) && forall v | v in first :: v.pending > 0
    ensures CalledFirst(pend.history, AllCalls(pend.pendings, pend.dummy), first, rest)
  {
    var h, ps, calls := pend.history, pend.pendings, AllCalls(pend.pendings, pend.dummy);
    forall v, u | v in first && u in rest && IsPending(h, u) && PriOf(h, v) == PriOf(h, u)
      ensures Precedes(calls, Invoked(v, BitsSince(h, v)), Invoked(u, BitsSince(h, u)))
    {
      assert Told(h, ps, v) && Told(h, ps, u) && Higher(pend.Where()[v], pend.Where()[u]);
      AboveIsCalledFirst(ps, v, u, pend.universe, pend.dummy);
    }
  }

  lemma PendingAreCalled(ps: seq<seq<Slot>>, h: History, universe: set<Watcher>, dummy: Watcher)
    requires Sound(ps, h, universe, dummy)
    ensures AllCalled(h, AllCalls(ps, dummy), universe)
  {
    forall u | u in universe && IsPending(h, u) ensures Invoked(u, BitsSince(h, u)) in AllCalls(ps, dummy) {
      assert Told(h, ps, u);
      PendingIsCalled(ps, u, universe, dummy);
    }
  }

  class Loop {
    const pend: Pendings
    const timers: Timers.TimerLoop
    const periodics: Periodics.PeriodicLoop
    const arrays: Arrays.ArrayWatchers

    /** The three parts use the same queues, but different watchers. */
    ghost predicate Apart() {
      && timers.pend == pend && periodics.pend == pend && arrays.pend == pend
      && timers.watchers !! periodics.watchers !! arrays.kinds.Keys
      && timers.watchers <= pend.universe && periodics.watchers <= pend.universe && arrays.kinds.Keys <= pend.universe
    }

    ghost predicate Valid()
      reads timers`timers, timers`timercnt, timers`members, timers.timers
      reads timers.watchers`active, timers.watchers`at
      reads periodics`periodics, periodics`periodiccnt, periodics`members, periodics.periodics
      reads periodics.watchers`active, periodics.watchers`at
      reads arrays`lists, arrays`started, arrays`idleall, arrays`activecnt, arrays`refs
      reads arrays.kinds.Keys`active, arrays.kinds.Keys`priority
      reads pend`pendings, pend`pendingpri, pend`scripts, pend`history, pend`rfeeds
      reads pend.universe`pending, pend.universe`priority
    {
      && Apart() && timers.HeapOk() && periodics.HeapOk() && arrays.Inverse() && arrays.Counts() && pend.Valid()
      && pend.rfeeds == [] && timers.timers != periodics.periodics
    }

    constructor (timers: Timers.TimerLoop, periodics: Periodics.PeriodicLoop, arrays: Arrays.ArrayWatchers)
      requires timers.Valid() && periodics.Valid() && arrays.Valid()
      requires timers.pend == periodics.pend == arrays.pend && timers.pend.rfeeds == []
      requires timers.watchers !! periodics.watchers !! arrays.kinds.Keys && timers.timers != periodics.periodics
      ensures Valid() && this.timers == timers && this.periodics == periodics && this.arrays == arrays
    {
      pend, this.timers, this.periodics, this.arrays := timers.pend, timers, periodics, arrays;
    }

    /** timers_reify */
    method PassTimers() returns (ghost r: Timers.Round)
      requires Valid() && forall v | v in timers.members :: v.repeat >= 0.0
      modifies timers`timercnt, timers`activecnt, timers`members, timers.timers
      modifies timers.watchers`active, timers.watchers`at
      modifies pend`pendings, pend`pendingpri, pend`history, pend`rfeeds, timers.watchers`pending
      ensures Valid() && ExtendsBy(old(pend.history), pend.history, timers.watchers)
      ensures r.was == old(timers.Snapshot()) && r.here == timers.Snapshot() && r.now == timers.mnNow
      ensures Timers.PassMade(r, pend.Where(), pend.universe - timers.watchers)
      ensures Unmoved(old(pend.Where()), pend.Where(), pend.universe - timers.watchers)
    {
      r := timers.Pass();
      periodics.HeapStays();
    }

    /** It leaves the periodics alone. */
    method FirstTimers() returns (ghost r: Timers.Round)
      requires Valid() && forall v | v in timers.members :: v.repeat >= 0.0
      modifies timers`timercnt, timers`activecnt, timers`members, timers.timers
      modifies timers.watchers`active, timers.watchers`at
      modifies pend`pendings, pend`pendingpri, pend`history, pend`rfeeds, timers.watchers`pending
      ensures Valid() && ExtendsBy(old(pend.history), pend.history, timers.watchers)
      ensures r.was == old(timers.Snapshot()) && r.here == timers.Snapshot() && r.now == timers.mnNow
      ensures Timers.PassMade(r, pend.Where(), pend.universe - timers.watchers)
      ensures Unmoved(old(pend.Where()), pend.Where(), pend.universe - timers.watchers)
      ensures periodics.Snapshot() == old(periodics.Snapshot())
    {
      ghost var h := pend.history;
      r := PassTimers();
      OnlyThese(h, pend.history, pend.universe, timers.watchers);
      periodics.SnapshotStays();
    }

    /** periodics_reify */
    method PassPeriodics() returns (ghost r: Periodics.Round)
      requires Valid() && forall v | v in periodics.members :: v.rescheduled || v.interval >= 0.0
      modifies periodics`periodiccnt, periodics`activecnt, periodics`members, periodics.periodics
      modifies periodics.watchers`active, periodics.watchers`at
      modifies pend`pendings, pend`pendingpri, pend`history, pend`rfeeds, periodics.watchers`pending
      ensures Valid() && ExtendsBy(old(pend.history), pend.history, periodics.watchers)
      ensures r.was == old(periodics.Snapshot()) && r.here == periodics.Snapshot() && r.now == periodics.rtNow
      ensures Periodics.PassMade(r, pend.Where(), pend.universe - periodics.watchers)
      ensures Unmoved(old(pend.Where()), pend.Where(), pend.universe - periodics.watchers)
    {
      r := periodics.Pass();
      timers.HeapStays();
    }

    /** It leaves the timers alone. */
    method ThenPeriodics() returns (ghost r: Periodics.Round)
      requires Valid() && forall v | v in periodics.members :: v.rescheduled || v.interval >= 0.0
      modifies periodics`periodiccnt, periodics`activecnt, periodics`members, periodics.periodics
      modifies periodics.watchers`active, periodics.watchers`at
      modifies pend`pendings, pend`pendingpri, pend`history, pend`rfeeds, periodics.watchers`pending
      ensures Valid() && ExtendsBy(old(pend.history), pend.history, periodics.watchers)
      ensures r.was == old(periodics.Snapshot()) && r.here == periodics.Snapshot() && r.now == periodics.rtNow
      ensures Periodics.PassMade(r, pend.Where(), pend.universe - periodics.watchers)
      ensures Unmoved(old(pend.Where()), pend.Where(), pend.universe - periodics.watchers)
      ensures timers.Snapshot() == old(timers.Snapshot())
    {
      ghost var h := pend.history;
      r := PassPeriodics();
      OnlyThese(h, pend.history, pend.universe, periodics.watchers);
      timers.SnapshotStays();
    }

    /** idle_reify and queue_events for the check watchers */
    method PassArrays() returns (found: bool, ghost q: nat, ghost idle: seq<Watcher>)
      requires Valid()
      modifies pend`pendings, pend`pendingpri, pend`history, arrays.kinds.Keys`pending
      ensures Valid() && ExtendsBy(old(pend.history), pend.history, arrays.kinds.Keys)
      ensures arrays.PassMade(old(pend.history), pend.history, old(pend.Where()), pend.Where(), found, q, idle)
      ensures Unmoved(old(pend.Where()), pend.Where(), pend.universe - arrays.kinds.Keys)
    {
      found, q, idle := arrays.Pass();
      timers.HeapStays();
      periodics.HeapStays();
    }

    /** They leave the timers and the periodics alone. */
    method ThenArrays() returns (found: bool, ghost q: nat, ghost idle: seq<Watcher>)
      requires Valid()
      modifies pend`pendings, pend`pendingpri, pend`history, arrays.kinds.Keys`pending
      ensures Valid() && ExtendsBy(old(pend.history), pend.history, arrays.kinds.Keys)
      ensures arrays.PassMade(old(pend.history), pend.history, old(pend.Where()), pend.Where(), found, q, idle)
      ensures Unmoved(old(pend.Where()), pend.Where(), pend.universe - arrays.kinds.Keys)
      ensures timers.Snapshot() == old(timers.Snapshot()) && timers.mnNow == old(timers.mnNow)
      ensures periodics.Snapshot() == old(periodics.Snapshot()) && periodics.rtNow == old(periodics.rtNow)
    {
      ghost var h := pend.history;
      found, q, idle := PassArrays();
      OnlyThese(h, pend.history, pend.universe, arrays.kinds.Keys);
      timers.SnapshotStays();
      periodics.SnapshotStays();
    }

    /** What the check watchers are. */
    function Checks(): seq<Watcher>
      requires |arrays.lists| == Arrays.LISTS
      reads arrays`lists
    {
      arrays.lists[Arrays.CHECKS]
    }

    /** The watchers that are neither timers nor periodics. */
    ghost function Untimed(): set<Watcher> {
      pend.universe - timers.watchers - periodics.watchers
    }

    /** The watchers that none of the passes is about. */
    ghost function Others(): set<Watcher> {
      Untimed() - arrays.kinds.Keys
    }

    lemma OthersAreFewer()
      requires Apart()
      ensures Others() <= Untimed() && Others() + timers.watchers <= pend.universe - periodics.watchers
      ensures timers.watchers + Others() <= pend.universe - arrays.kinds.Keys
      ensures periodics.watchers + (Others() + timers.watchers) <= pend.universe - arrays.kinds.Keys
    {
    }

    lemma UntimedAreFewer()
      requires Apart()
      ensures Untimed() <= pend.universe - timers.watchers && Untimed() <= pend.universe - periodics.watchers
      ensures timers.watchers + Untimed() <= pend.universe - periodics.watchers
    {
    }

    ghost predicate Ready()
      reads timers`members, timers.watchers`repeat
      reads periodics`members, periodics.watchers`rescheduled, periodics.watchers`interval
    {
      && timers.members <= timers.watchers && periodics.members <= periodics.watchers
      && (forall v | v in timers.members :: v.repeat >= 0.0)
      && forall v | v in periodics.members :: v.rescheduled || v.interval >= 0.0
    }

    /** periodics_reify after timers_reify, which it does not disturb. */
    method NextPeriodics(ghost t: Timers.Round) returns (ghost r: Periodics.Round)
      requires Valid() && forall v | v in periodics.members :: v.rescheduled || v.interval >= 0.0
      requires t.here == timers.Snapshot() && t.now == timers.mnNow
      requires Timers.PassMade(t, pend.Where(), pend.universe - timers.watchers)
      modifies periodics`periodiccnt, periodics`activecnt, periodics`members, periodics.periodics
      modifies periodics.watchers`active, periodics.watchers`at
      modifies pend`pendings, pend`pendingpri, pend`history, pend`rfeeds, periodics.watchers`pending
      ensures Valid() && ExtendsBy(old(pend.history), pend.history, periodics.watchers)
      ensures r.was == old(periodics.Snapshot()) && r.here == periodics.Snapshot() && r.now == periodics.rtNow
      ensures Periodics.PassMade(r, pend.Where(), pend.universe - periodics.watchers)
      ensures Unmoved(old(pend.Where()), pend.Where(), pend.universe - periodics.watchers)
      ensures t.here == timers.Snapshot() && t.now == timers.mnNow && Timers.PassMade(t, pend.Where(), Untimed())
    {
      ghost var p := pend.Where();
      r := ThenPeriodics();
      UntimedAreFewer();
      Timers.PassStays(t, p, pend.universe - timers.watchers, pend.Where(), Untimed());
    }

    /** timers_reify and periodics_reify */
    method QueueTimed() returns (ghost t: Timers.Round, ghost r: Periodics.Round)
      requires Valid() && Ready()
      modifies timers`timercnt, timers`activecnt, timers`members, timers.timers
      modifies timers.watchers`active, timers.watchers`at
      modifies periodics`periodiccnt, periodics`activecnt, periodics`members, periodics.periodics
      modifies periodics.watchers`active, periodics.watchers`at
      modifies pend`pendings, pend`pendingpri, pend`history, pend`rfeeds
      modifies timers.watchers`pending, periodics.watchers`pending
      ensures Valid() && ExtendsBy(old(pend.history), pend.history, timers.watchers + periodics.watchers)
      ensures t.was == old(timers.Snapshot()) && t.here == timers.Snapshot() && t.now == timers.mnNow
      ensures r.was == old(periodics.Snapshot()) && r.here == periodics.Snapshot() && r.now == periodics.rtNow
      ensures Timers.PassMade(t, pend.Where(), Untimed())
      ensures Periodics.PassMade(r, pend.Where(), pend.universe - periodics.watchers)
      ensures Unmoved(old(pend.Where()), pend.Where(), Untimed())
    {
      ghost var h, p := pend.history, pend.Where();
      t := FirstTimers();
      ghost var mid, p1 := pend.history, pend.Where();
      r := NextPeriodics(t);
      UntimedAreFewer();
      ExtendsByBoth(h, mid, pend.history, timers.watchers, periodics.watchers);
      UnmovedTwice(p, p1, pend.Where(), pend.universe - timers.watchers, pend.universe - periodics.watchers, Untimed());
    }

    /** idle_reify and queue_events for the check watchers, which do not disturb what was done before. */
    method NextArrays(ghost t: Timers.Round, ghost r: Periodics.Round)
      returns (found: bool, ghost q: nat, ghost idle: seq<Watcher>)
      requires Valid() && t.here == timers.Snapshot() && t.now == timers.mnNow
      requires r.here == periodics.Snapshot() && r.now == periodics.rtNow
      requires Timers.PassMade(t, pend.Where(), Untimed())
      requires Periodics.PassMade(r, pend.Where(), pend.universe - periodics.watchers)
      modifies pend`pendings, pend`pendingpri, pend`history, arrays.kinds.Keys`pending
      ensures Valid() && ExtendsBy(old(pend.history), pend.history, arrays.kinds.Keys)
      ensures arrays.PassMade(old(pend.history), pend.history, old(pend.Where()), pend.Where(), found, q, idle)
      ensures Unmoved(old(pend.Where()), pend.Where(), pend.universe - arrays.kinds.Keys)
      ensures t.here == timers.Snapshot() && t.now == timers.mnNow
      ensures r.here == periodics.Snapshot() && r.now == periodics.rtNow
      ensures Timers.PassMade(t, pend.Where(), Others())
      ensures Periodics.PassMade(r, pend.Where(), Others() + timers.watchers)
    {
      ghost var p := pend.Where();
      found, q, idle := ThenArrays();
      OthersAreFewer();
      Timers.PassStays(t, p, Untimed(), pend.Where(), Others());
      Periodics.PassStays(r, p, pend.universe - periodics.watchers, pend.Where(), Others() + timers.watchers);
    }

    /** All four passes. */
    method QueueAll() returns (ghost t: Timers.Round, ghost r: Periodics.Round,
                               found: bool, ghost q: nat, ghost idle: seq<Watcher>)
      requires Valid() && Ready()
      modifies timers`timercnt, timers`activecnt, timers`members, timers.timers
      modifies timers.watchers`active, timers.watchers`at
      modifies periodics`periodiccnt, periodics`activecnt, periodics`members, periodics.periodics
      modifies periodics.watchers`active, periodics.watchers`at
      modifies pend`pendings, pend`pendingpri, pend`history, pend`rfeeds
      modifies timers.watchers`pending, periodics.watchers`pending, arrays.kinds.Keys`pending
      ensures Valid() && ExtendsBy(old(pend.history), pend.history,
                                   timers.watchers + periodics.watchers + arrays.kinds.Keys)
      ensures t.was == old(timers.Snapshot()) && t.here == timers.Snapshot() && t.now == timers.mnNow
      ensures r.was == old(periodics.Snapshot()) && r.here == periodics.Snapshot() && r.now == periodics.rtNow
      ensures Timers.PassMade(t, pend.Where(), Others())
      ensures Periodics.PassMade(r, pend.Where(), Others() + timers.watchers)
      ensures arrays.PassMade(old(pend.history), pend.history, old(pend.Where()), pend.Where(), found, q, idle)
    {
      ghost var h, p := pend.history, pend.Where();
      t, r := QueueTimed();
      ghost var mid, p1 := pend.history, pend.Where();
      found, q, idle := NextArrays(t, r);
      OnlyThese(h, mid, pend.universe, timers.watchers + periodics.watchers);
      EarlierForArrays(h, mid, p, p1);
      arrays.PassStays(h, mid, pend.history, p, p1, pend.Where(), found, q, idle);
      ExtendsByBoth(h, mid, pend.history, timers.watchers + periodics.watchers, arrays.kinds.Keys);
    }

    lemma EarlierForArrays(h: History, mid: History, p: Places, p1: Places)
      requires Valid() && Untouched(h, mid, pend.universe - (timers.watchers + periodics.watchers))
      requires Unmoved(p, p1, Untimed()) && p1.Keys == pend.universe
      ensures Untouched(h, mid, arrays.kinds.Keys) && Unmoved(p, p1, arrays.kinds.Keys)
      ensures forall v | v in Checks() :: v in p1
    {
      arrays.InItsList(Arrays.CHECKS);
    }

    /** The order in which the queues call what the passes queued: check watchers, periodics, timers, the rest. */
    ghost predicate Ordered(checks: seq<Watcher>, t: Timers.Round, r: Periodics.Round, p: Places,
                            queued: History, calls: seq<Event>)
    {
      && (forall v | v in t.due :: v in t.was) && CalledInOrder(t.was, t.due, t.Up(), EV_TIMER, calls)
      && (forall v | v in r.due :: v in r.was) && CalledInOrder(r.was, r.due, r.Up(), EV_PERIODIC, calls)
      && CalledFirst(queued, calls, IdleIn(p, checks), arrays.Except(checks))
      && CalledFirst(queued, calls, r.Up(), Others() + timers.watchers)
      && CalledFirst(queued, calls, t.Up(), Others())
      && AllCalled(queued, calls, pend.universe)
    }

    lemma QueuedIsOrdered(t: Timers.Round, r: Periodics.Round, h: History, p: Places,
                          found: bool, q: nat, idle: seq<Watcher>)
      requires Valid() && p.Keys == pend.universe
      requires t.was.Keys == timers.watchers && t.here == timers.Snapshot()
      requires r.was.Keys == periodics.watchers && r.here == periodics.Snapshot()
      requires Timers.PassMade(t, pend.Where(), Others())
      requires Periodics.PassMade(r, pend.Where(), Others() + timers.watchers)
      requires arrays.PassMade(h, pend.history, p, pend.Where(), found, q, idle)
      ensures Ordered(Checks(), t, r, p, pend.history, AllCalls(pend.pendings, pend.dummy))
    {
      timers.UpWait(t, pend.Where(), Others());
      periodics.UpWait(r, pend.Where(), Others() + timers.watchers);
      timers.DueInOrder(t, Others());
      periodics.DueInOrder(r, Others() + timers.watchers);
      forall v | v in IdleIn(p, Checks()) ensures v.pending > 0 {
        assert v in idle + Checks();
      }
      TopIsFirst(pend, IdleIn(p, Checks()), arrays.Except(Checks()));
      TopIsFirst(pend, r.Up(), Others() + timers.watchers);
      TopIsFirst(pend, t.Up(), Others());
      PendingAreCalled(pend.pendings, pend.history, pend.universe, pend.dummy);
    }

    /** Nothing more urgent than the idle watchers is pending, but for the check watchers. */
    ghost predicate IdleLast(checks: seq<Watcher>, queued: History, q: nat, idle: seq<Watcher>) {
      forall u | u in pend.universe && u !in idle + checks && IsPending(queued, u) :: PriOf(queued, u) < q
    }

    lemma QueuedIdleLast(q: nat, idle: seq<Watcher>)
      requires Valid() && NothingElse(pend.Where(), q, idle + Checks())
      ensures IdleLast(Checks(), pend.history, q, idle)
    {
      forall u | u in pend.universe && u !in idle + Checks() && IsPending(pend.history, u)
        ensures PriOf(pend.history, u) < q
      {
        assert Told(pend.history, pend.pendings, u) && pend.Where()[u].slot == u.pending;
      }
    }

    /**
     What the passes make of a loop with these arrays, the history h and the watchers at the places p.
     They deal with exactly the late timers and the late periodics, with the check watchers and, if any
     may run, the idle watchers, and with no other watcher (queued). Then each pending watcher is called
     (calls) with all its bits; in each queue check watchers come first, then periodics, timers and the
     rest, and timers and periodics in the order of their times, as far as they became pending now.
     */
    ghost predicate Outcome(lists: seq<seq<Watcher>>, t: Timers.Round, r: Periodics.Round, found: bool, q: nat,
                            idle: seq<Watcher>, h: History, p: Places, queued: History, calls: seq<Event>)
    {
      && Timers.Handled(t) && BitsLike(t.here, queued) && Periodics.Handled(r) && BitsLike(r.here, queued)
      && arrays.Fed(lists, h, queued, found, q, idle)
      && (found ==> IdleLast(lists[Arrays.CHECKS], queued, q, idle))
      && ExtendsBy(h, queued, timers.watchers + periodics.watchers + arrays.kinds.Keys)
      && Ordered(lists[Arrays.CHECKS], t, r, p, queued, calls)
    }

    /** The four passes, and the calls that are to come then. */
    method Queue() returns (ghost t: Timers.Round, ghost r: Periodics.Round, found: bool, ghost q: nat,
                            ghost idle: seq<Watcher>)
      requires Valid() && Ready()
      modifies timers`timercnt, timers`activecnt, timers`members, timers.timers
      modifies timers.watchers`active, timers.watchers`at
      modifies periodics`periodiccnt, periodics`activecnt, periodics`members, periodics.periodics
      modifies periodics.watchers`active, periodics.watchers`at
      modifies pend`pendings, pend`pendingpri, pend`history, pend`rfeeds
      modifies timers.watchers`pending, periodics.watchers`pending, arrays.kinds.Keys`pending
      ensures Valid() && t.was == old(timers.Snapshot()) && t.now == timers.mnNow && timers.Like(t.here)
      ensures r.was == old(periodics.Snapshot()) && r.now == periodics.rtNow && periodics.Like(r.here)
      ensures Outcome(arrays.lists, t, r, found, q, idle, old(pend.history), old(pend.Where()), pend.history,
                      AllCalls(pend.pendings, pend.dummy))
    {
      ghost var h, p := pend.history, pend.Where();
      t, r, found, q, idle := QueueAll();
      QueuedIsOrdered(t, r, h, p, found, q, idle);
      if found {
        QueuedIdleLast(q, idle);
      }
    }

    /** ev_invoke_pending does not disturb the tables. */
    method Invoke(ghost t: Timers.Moment, ghost r: Periodics.Moment)
      requires Valid() && pend.scripts == [] && timers.Like(t) && periodics.Like(r)
      modifies pend`pendings, pend`pendingpri, pend`history, pend`scripts
      modifies pend.universe`pending, pend.universe`priority, pend.dummy`pending
      ensures Valid() && EmptyAbove(pend.pendings, -1)
      ensures pend.history == old(Extend(pend.history, AllCalls(pend.pendings, pend.dummy)))
      ensures timers.Like(t) && periodics.Like(r) && arrays.lists == old(arrays.lists)
      ensures timers.mnNow == old(timers.mnNow) && periodics.rtNow == old(periodics.rtNow)
    {
      ghost var start := pend.Now();
      ghost var ran := pend.InvokePending();
      RanWithoutScripts(start, ran, pend.Now());
      forall v | v in pend.universe ensures v.priority == old(v.priority) {
        assert pend.Now().priorities[v] == start.priorities[v];
      }
      arrays.TablesStay();
      timers.HeapStays();
      periodics.HeapStays();
    }

    /** The last part of an iteration, with callbacks that leave the queues alone. */
    method Run() returns (ghost t: Timers.Round, ghost r: Periodics.Round, found: bool, ghost q: nat,
                          ghost idle: seq<Watcher>, ghost queued: History, ghost calls: seq<Event>)
      requires Valid() && Ready() && pend.scripts == []
      modifies timers`timercnt, timers`activecnt, timers`members, timers.timers
      modifies timers.watchers`active, timers.watchers`at
      modifies periodics`periodiccnt, periodics`activecnt, periodics`members, periodics.periodics
      modifies periodics.watchers`active, periodics.watchers`at
      modifies pend`pendings, pend`pendingpri, pend`history, pend`rfeeds, pend`scripts
      modifies pend.universe`pending, pend.universe`priority, pend.dummy`pending
      ensures Valid() && EmptyAbove(pend.pendings, -1)
      ensures t.was == old(timers.Snapshot()) && t.now == timers.mnNow && timers.Like(t.here)
      ensures r.was == old(periodics.Snapshot()) && r.now == periodics.rtNow && periodics.Like(r.here)
      ensures Outcome(arrays.lists, t, r, found, q, idle, old(pend.history), old(pend.Where()), queued, calls)
      ensures pend.history == Extend(queued, calls) && arrays.ListsSorted()
    {
      t, r, found, q, idle := Queue();
      queued, calls := pend.history, AllCalls(pend.pendings, pend.dummy);
      Invoke(t.here, r.here);
      arrays.ListsAreSorted();
    }
  }
}
