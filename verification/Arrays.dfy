/**
 The watchers that the loop keeps in plain arrays: idle watchers, one array per priority, and
 prepare, check, fork, cleanup and async watchers. A started watcher's `active` is its index plus one.
 */
module Arrays {
  import opened Watchers
  import opened Pending

  datatype Kind = Idle | Prepare | Check | Fork | Cleanup | Async

  const LISTS: nat := 10  // NUMPRI idle arrays, then one for each other kind
  const CHECKS: nat := 6  // the array of the check watchers

  /** The started watchers that keep the loop alive. */
  ghost function Counted(started: set<Watcher>, kinds: map<Watcher, Kind>): set<Watcher> {
    set w | w in started && w in kinds && kinds[w] != Cleanup
  }

  lemma CountOne(started: set<Watcher>, w: Watcher, kinds: map<Watcher, Kind>)
    requires w in kinds && w !in started
    ensures |Counted(started + {w}, kinds)| == |Counted(started, kinds)| + if kinds[w] == Cleanup then 0 else 1
  {
    assert Counted(started + {w}, kinds) == Counted(started, kinds) + if kinds[w] == Cleanup then {} else {w};
  }

  ghost function Appended(lists: seq<seq<Watcher>>, q: nat, w: Watcher): seq<seq<Watcher>>
    requires q < |lists|
  {
    lists[q := lists[q] + [w]]
  }

  /** Without entry i of array q, whose place the last entry has taken. */
  ghost function TakenOut(lists: seq<seq<Watcher>>, q: nat, i: int): seq<seq<Watcher>>
    requires q < |lists| && 0 <= i < |lists[q]|
  {
    lists[q := lists[q][i := lists[q][|lists[q]| - 1]][..|lists[q]| - 1]]
  }

  /** Those of ws that were not pending. */
  ghost function Risen(was: map<Watcher, nat>, ws: seq<Watcher>): set<Watcher> {
    set v | v in was && v in ws && was[v] == 0
  }

  /** The pending fields: the watchers in ws became pending if they were not, and the rest is as it was. */
  ghost predicate Raised(was: map<Watcher, nat>, here: map<Watcher, nat>, ws: seq<Watcher>) {
    && was.Keys == here.Keys
    && forall v | v in was ::
         if v in ws then here[v] > 0 && (was[v] > 0 ==> here[v] == was[v]) else here[v] == was[v]
  }

  lemma RaisedTwice(was: map<Watcher, nat>, mid: map<Watcher, nat>, here: map<Watcher, nat>,
                    ws: seq<Watcher>, checks: seq<Watcher>)
    requires Raised(was, mid, ws) && Raised(mid, here, checks) && forall v | v in ws :: v !in checks
    ensures Raised(was, here, ws + checks) && Risen(was, checks) == Risen(mid, checks)
  {
  }

  lemma GivenTwice(h: History, mid: History, h2: History, ws: seq<Watcher>, bits: Events,
                   checks: seq<Watcher>, more: Events, universe: set<Watcher>)
    requires AllGiven(h, mid, ws, bits, universe) && AllGiven(mid, h2, checks, more, universe)
    ensures forall v | v in universe ::
              BitsSince(h2, v) == BitsSince(h, v) + (if v in ws then bits else {}) + (if v in checks then more else {})
  {
    forall v | v in universe
      ensures BitsSince(h2, v) == BitsSince(h, v) + (if v in ws then bits else {}) + (if v in checks then more else {})
    {
      assert Given(h, mid, ws, bits, v) && Given(mid, h2, checks, more, v);
    }
  }

  class ArrayWatchers {
    const pend: Pendings
    ghost const kinds: map<Watcher, Kind>  // the initialised watchers
    var lists: seq<seq<Watcher>>
    var idleall: int
    var activecnt: int
    ghost var started: set<Watcher>        // the active watchers
    ghost var refs: int                    // how often ev_ref was called, minus how often ev_unref was

    /** The array that w is kept in. */
    function ListFor(kind: Kind, w: Watcher): (q: nat)
      requires w.PriorityOk()
      reads w`priority
      ensures q < LISTS && (q < NUMPRI <==> kind == Idle)
    {
      match kind
      case Idle => w.Abspri()
      case Prepare => 5
      case Check => CHECKS
      case Fork => 7
      case Cleanup => 8
      case Async => 9
    }

    /** Entry i of array q is a started watcher that belongs there. */
    ghost predicate EntryOk(q: nat, i: nat)
      requires q < |lists| && i < |lists[q]|
      reads this`lists, this`started, kinds.Keys`active, kinds.Keys`priority
    {
      var w := lists[q][i];
      w in started && w in kinds && w.PriorityOk() && ListFor(kinds[w], w) == q && w.active == i + 1
    }

    /** A started watcher is where its index says. */
    ghost predicate WatcherOk(w: Watcher)
      requires w in kinds
      reads this`lists, this`started, w`active, w`priority
    {
      && w.PriorityOk() && (w in started <==> w.active != 0)
      && (w.active != 0 ==>
            var q := ListFor(kinds[w], w);
            q < |lists| && 0 < w.active <= |lists[q]| && lists[q][w.active - 1] == w)
    }

    /** Arrays and indices are inverse to each other. */
    ghost predicate Inverse()
      reads this`lists, this`started, kinds.Keys`active, kinds.Keys`priority
    {
      && |lists| == LISTS && started <= kinds.Keys
      && (forall q, i {:trigger EntryOk(q, i)} | 0 <= q < LISTS && 0 <= i < |lists[q]| :: EntryOk(q, i))
      && (forall w {:trigger WatcherOk(w)} | w in kinds :: WatcherOk(w))
    }

    /** idleall counts the started idle watchers, activecnt those that count and the references. */
    ghost predicate Counts()
      requires |lists| == LISTS
      reads this`lists, this`started, this`idleall, this`activecnt, this`refs
    {
      && idleall == |lists[0]| + |lists[1]| + |lists[2]| + |lists[3]| + |lists[4]|
      && activecnt == |Counted(started, kinds)| + refs
    }

    ghost predicate Valid()
      reads this`lists, this`started, this`idleall, this`activecnt, this`refs, kinds.Keys`active, kinds.Keys`priority
      reads pend`pendings, pend`pendingpri, pend`scripts, pend`history, pend.universe`pending, pend.universe`priority
    {
      Inverse() && Counts() && pend.Valid() && kinds.Keys <= pend.universe
    }

    constructor (pend: Pendings, ghost kinds: map<Watcher, Kind>)
      requires pend.Valid() && kinds.Keys <= pend.universe && forall w | w in kinds :: w.active == 0
      ensures Valid() && this.pend == pend && this.kinds == kinds && started == {} && refs == 0
    {
      this.pend, this.kinds := pend, kinds;
      lists := [[], [], [], [], [], [], [], [], [], []];
      idleall, activecnt, started, refs := 0, 0, {}, 0;
      new;
      forall w | w in kinds ensures WatcherOk(w) {
        assert PointerOk(pend.pendings, w);
      }
    }

    twostate lemma TablesStay()
      requires old(Inverse() && Counts()) && unchanged(`lists, `started, `idleall, `activecnt, `refs)
      requires forall v | v in kinds :: v.active == old(v.active) && v.priority == old(v.priority)
      ensures Inverse() && Counts()
    {
      forall q, i | 0 <= q < LISTS && 0 <= i < |lists[q]| ensures EntryOk(q, i) {
        assert old(EntryOk(q, i));
      }
      forall w | w in kinds ensures WatcherOk(w) {
        assert old(WatcherOk(w));
      }
    }

    /** ev_ref */
    method Ref()
      requires Valid()
      modifies this`activecnt, this`refs
      ensures Valid() && refs == old(refs) + 1 && activecnt == old(activecnt) + 1
    {
      activecnt := activecnt + 1;
      refs := refs + 1;
    }

    /** ev_unref */
    method Unref()
      requires Valid()
      modifies this`activecnt, this`refs
      ensures Valid() && refs == old(refs) - 1 && activecnt == old(activecnt) - 1
    {
      activecnt := activecnt - 1;
      refs := refs - 1;
    }

    /** The part of the start functions that appends w to array q. */
    method Append(q: nat, w: Watcher)
      requires Inverse() && w in kinds && w !in started && w.PriorityOk() && ListFor(kinds[w], w) == q
      modifies this`lists, this`started, w`active
      ensures Inverse() && started == old(started) + {w}
      ensures lists == Appended(old(lists), q, w)
      ensures |Counted(started, kinds)| == |Counted(old(started), kinds)| + if kinds[w] == Cleanup then 0 else 1
    {
      ghost var before := lists;
      CountOne(started, w, kinds);
      w.active := |lists[q]| + 1;
      lists := lists[q := lists[q] + [w]];
      started := started + {w};
      forall p, i | 0 <= p < LISTS && 0 <= i < |lists[p]| ensures EntryOk(p, i) {
        if p != q || i < |before[q]| {
          assert old(EntryOk(p, i));
        }
      }
      forall v | v in kinds ensures WatcherOk(v) {
        assert old(WatcherOk(v));
      }
    }

    /** The part of the stop functions that takes w out of array q: the last entry takes its place. */
    method Remove(q: nat, w: Watcher)
      requires Inverse() && w in started && w.PriorityOk() && ListFor(kinds[w], w) == q
      modifies this`lists, this`started, kinds.Keys`active
      ensures Inverse() && started == old(started) - {w} && w.active == 0
      ensures 0 < old(w.active) <= |old(lists)[q]| && lists == TakenOut(old(lists), q, old(w.active) - 1)
      ensures |Counted(started, kinds)| == |Counted(old(started), kinds)| - if kinds[w] == Cleanup then 0 else 1
    {
      assert WatcherOk(w);
      var active, cnt := w.active, |lists[q]| - 1;
      assert EntryOk(q, cnt);
      var last := lists[q][cnt];
      CountOne(started - {w}, w, kinds);
      assert started - {w} + {w} == started;
      lists := lists[q := lists[q][active - 1 := last][..cnt]];
      last.active := active;
      w.active := 0;
      started := started - {w};
      forall p, i | 0 <= p < LISTS && 0 <= i < |lists[p]| ensures EntryOk(p, i) {
        assert old(EntryOk(p, i));
      }
      forall v | v in kinds ensures WatcherOk(v) {
        assert old(WatcherOk(v));
      }
    }

    /** ev_idle_start */
    method IdleStart(w: Watcher)
      requires Valid() && w in kinds && kinds[w] == Idle
      modifies this`lists, this`started, this`idleall, this`activecnt, w`active
      ensures Valid() && started == old(started) + {w}
      ensures w.PriorityOk()
              && lists == if w in old(started) then old(lists) else Appended(old(lists), ListFor(Idle, w), w)
    {
      assert WatcherOk(w);
      if w.active != 0 {
        return;
      }
      idleall := idleall + 1;
      activecnt := activecnt + 1;
      Append(ListFor(Idle, w), w);
    }

    /** ev_prepare_start, ev_check_start, ev_fork_start and ev_async_start */
    method ArrayStart(kind: Kind, w: Watcher)
      requires Valid() && w in kinds && kinds[w] == kind && kind != Idle && kind != Cleanup
      modifies this`lists, this`started, this`activecnt, w`active
      ensures Valid() && started == old(started) + {w}
      ensures w.PriorityOk()
              && lists == if w in old(started) then old(lists) else Appended(old(lists), ListFor(kind, w), w)
    {
      assert WatcherOk(w);
      if w.active != 0 {
        return;
      }
      activecnt := activecnt + 1;
      Append(ListFor(kind, w), w);
    }

    /** ev_cleanup_start, which gives the reference that ev_start takes back to the loop. */
    method CleanupStart(w: Watcher)
      requires Valid() && w in kinds && kinds[w] == Cleanup
      modifies this`lists, this`started, this`activecnt, w`active
      ensures Valid() && started == old(started) + {w} && activecnt == old(activecnt)
      ensures w.PriorityOk()
              && lists == if w in old(started) then old(lists) else Appended(old(lists), ListFor(Cleanup, w), w)
    {
      assert WatcherOk(w);
      if w.active != 0 {
        return;
      }
      activecnt := activecnt + 1;
      Append(ListFor(Cleanup, w), w);
      activecnt := activecnt - 1;
    }

    /** ev_idle_stop */
    method IdleStop(w: Watcher)
      requires Valid() && w in kinds && kinds[w] == Idle
      modifies this`lists, this`started, this`idleall, this`activecnt, kinds.Keys`active
      modifies pend`pendings, pend`history, w`pending
      ensures Valid() && started == old(started) - {w} && w.pending == 0
      ensures w !in old(started) ==> lists == old(lists)
      ensures w in old(started) ==>
                && w.PriorityOk() && 0 < old(w.active) <= |old(lists)[ListFor(Idle, w)]|
                && lists == TakenOut(old(lists), ListFor(Idle, w), old(w.active) - 1)
      ensures pend.history == if old(w.pending) > 0 then Then(old(pend.history), Cleared(w)) else old(pend.history)
    {
      assert WatcherOk(w);
      var _ := pend.Clear(w);
      if w.active == 0 {
        return;
      }
      Remove(ListFor(Idle, w), w);
      activecnt := activecnt - 1;
      idleall := idleall - 1;
    }

    /** ev_prepare_stop, ev_check_stop, ev_fork_stop and ev_async_stop */
    method ArrayStop(kind: Kind, w: Watcher)
      requires Valid() && w in kinds && kinds[w] == kind && kind != Idle && kind != Cleanup
      modifies this`lists, this`started, this`activecnt, kinds.Keys`active
      modifies pend`pendings, pend`history, w`pending
      ensures Valid() && started == old(started) - {w} && w.pending == 0
      ensures w !in old(started) ==> lists == old(lists)
      ensures w in old(started) ==>
                && w.PriorityOk() && 0 < old(w.active) <= |old(lists)[ListFor(kind, w)]|
                && lists == TakenOut(old(lists), ListFor(kind, w), old(w.active) - 1)
      ensures pend.history == if old(w.pending) > 0 then Then(old(pend.history), Cleared(w)) else old(pend.history)
    {
      assert WatcherOk(w);
      var _ := pend.Clear(w);
      if w.active == 0 {
        return;
      }
      Remove(ListFor(kind, w), w);
      activecnt := activecnt - 1;
    }

    /** ev_cleanup_stop */
    method CleanupStop(w: Watcher)
      requires Valid() && w in kinds && kinds[w] == Cleanup
      modifies this`lists, this`started, this`activecnt, kinds.Keys`active
      modifies pend`pendings, pend`history, w`pending
      ensures Valid() && started == old(started) - {w} && w.pending == 0 && activecnt == old(activecnt)
      ensures w !in old(started) ==> lists == old(lists)
      ensures w in old(started) ==>
                && w.PriorityOk() && 0 < old(w.active) <= |old(lists)[ListFor(Cleanup, w)]|
                && lists == TakenOut(old(lists), ListFor(Cleanup, w), old(w.active) - 1)
      ensures pend.history == if old(w.pending) > 0 then Then(old(pend.history), Cleared(w)) else old(pend.history)
    {
      assert WatcherOk(w);
      var _ := pend.Clear(w);
      if w.active == 0 {
        return;
      }
      activecnt := activecnt + 1;
      Remove(ListFor(Cleanup, w), w);
      activecnt := activecnt - 1;
    }

    /** The pending fields of the watchers of the arrays. */
    ghost function Slots(): map<Watcher, nat>
      reads kinds.Keys`pending
    {
      map v | v in kinds :: v.pending
    }

    /** All watchers but these. */
    ghost function Except(ws: seq<Watcher>): set<Watcher> {
      set u | u in pend.universe && u !in ws
    }

    /** The body of queue_events' loop, after ws were fed. */
    method FeedNext(w: Watcher, bits: Events, ghost h: History, ghost was: map<Watcher, nat>,
                    ghost ws: seq<Watcher>, ghost others: set<Watcher>)
      requires Valid() && w in kinds && w.PriorityOk() && AllGiven(h, pend.history, ws, bits, pend.universe)
      requires Raised(was, Slots(), ws) && OnTop(Risen(was, ws), others) && w !in others && others <= pend.universe
      requires ExtendsBy(h, pend.history, kinds.Keys)
      modifies pend`pendings, pend`pendingpri, pend`history, w`pending
      ensures Valid() && AllGiven(h, pend.history, ws + [w], bits, pend.universe)
      ensures Raised(was, Slots(), ws + [w]) && OnTop(Risen(was, ws + [w]), others)
      ensures ExtendsBy(h, pend.history, kinds.Keys)
    {
      GivenNext(h, pend.history, ws, bits, pend.universe, w, w.Abspri());
      forall u | u in others ensures u.PriorityOk() && u.pending <= |pend.pendings[u.Abspri()]| {
        assert PointerOk(pend.pendings, u);
      }
      pend.Feed(w, bits);
    }

    /**
     queue_events: every watcher of array q is fed the events, and no other watcher; those that were
     not pending end up above all other watchers of their priority.
     */
    method QueueEvents(q: nat, bits: Events)
      requires Valid() && q < LISTS
      modifies pend`pendings, pend`pendingpri, pend`history, kinds.Keys`pending
      ensures Valid() && AllGiven(old(pend.history), pend.history, lists[q], bits, pend.universe)
      ensures Raised(old(Slots()), Slots(), lists[q]) && OnTop(Risen(old(Slots()), lists[q]), Except(lists[q]))
      ensures ExtendsBy(old(pend.history), pend.history, kinds.Keys)
    {
      ghost var was, h := Slots(), pend.history;
      var ws := lists[q];
      for i := 0 to |ws|
        invariant Valid() && AllGiven(h, pend.history, ws[..i], bits, pend.universe)
        invariant Raised(was, Slots(), ws[..i]) && OnTop(Risen(was, ws[..i]), Except(ws))
        invariant ExtendsBy(h, pend.history, kinds.Keys)
      {
        assert EntryOk(q, i);
        Prefixes(ws, i);
        FeedNext(ws[i], bits, h, was, ws[..i], Except(ws));
      }
      Whole(ws);
    }

    /** A watcher is in the array of its kind and priority only. */
    lemma InItsList(q: nat)
      requires Valid() && q < LISTS
      ensures forall v | v in lists[q] :: v in kinds && v.PriorityOk() && ListFor(kinds[v], v) == q
    {
      forall v | v in lists[q] ensures v in kinds && v.PriorityOk() && ListFor(kinds[v], v) == q {
        var i :| 0 <= i < |lists[q]| && lists[q][i] == v;
        assert EntryOk(q, i);
      }
    }

    /** A started watcher is in the array of its kind and priority. */
    lemma InListIfStarted(w: Watcher, q: nat)
      requires Valid() && w in kinds && q < LISTS
      ensures w in lists[q] <==> w in started && w.PriorityOk() && ListFor(kinds[w], w) == q
    {
      assert WatcherOk(w);
      InItsList(q);
      if w in lists[q] {
        var i :| 0 <= i < |lists[q]| && lists[q][i] == w;
        assert EntryOk(q, i);
      }
    }

    /** The check watchers are all in one array, and the idle watchers of one priority in another. */
    ghost predicate ListsSorted()
      reads this`lists, this`started, kinds.Keys`priority
    {
      && |lists| == LISTS
      && (forall w | w in kinds :: w in lists[CHECKS] <==> w in started && kinds[w] == Check)
      && forall w, p | w in kinds && 0 <= p < NUMPRI ::
           w in lists[p] <==> w in started && kinds[w] == Idle && w.priority == EV_MINPRI + p
    }

    lemma ListsAreSorted()
      requires Valid()
      ensures ListsSorted()
    {
      forall w | w in kinds ensures w in lists[CHECKS] <==> w in started && kinds[w] == Check {
        assert WatcherOk(w);
        InListIfStarted(w, CHECKS);
      }
      forall w, p | w in kinds && 0 <= p < NUMPRI
        ensures w in lists[p] <==> w in started && kinds[w] == Idle && w.priority == EV_MINPRI + p
      {
        assert WatcherOk(w);
        InListIfStarted(w, p);
      }
    }

    /** Nothing of priority pri or above is pending. */
    ghost predicate Quiet(pri: int)
      requires 0 <= pri
      reads pend`pendings
    {
      forall p | pri <= p < NUMPRI && p < |pend.pendings| :: pend.pendings[p] == []
    }

    /** The most urgent idle watchers, if nothing of their priority or above is pending. */
    ghost predicate MayRun(pri: nat)
      requires |lists| == LISTS
      reads this`lists, pend`pendings
    {
      pri < NUMPRI && lists[pri] != [] && (forall p | pri < p < NUMPRI :: lists[p] == []) && Quiet(pri)
    }

    /** idle_reify's loop. */
    method MostUrgent() returns (found: bool, pri: nat)
      requires Valid()
      ensures pri < LISTS && if found then MayRun(pri) else forall p: nat :: !MayRun(p)
    {
      found, pri := false, NUMPRI;
      while pri > 0
        invariant pri <= NUMPRI && !found && Quiet(pri)
        invariant forall p | pri <= p < NUMPRI :: lists[p] == []
      {
        pri := pri - 1;
        if pend.pendings[pri] != [] {
          return;
        }
        if lists[pri] != [] {
          found := true;
          return;
        }
      }
    }

    /** idle_reify: exactly the idle watchers that may run, if there are any, become pending. */
    method IdleReify() returns (found: bool, pri: nat)
      requires Valid()
      modifies pend`pendings, pend`pendingpri, pend`history, kinds.Keys`pending
      ensures Valid() && pri < LISTS
      ensures if found then old(MayRun(pri)) else forall p: nat :: !old(MayRun(p))
      ensures
        var ws := if found then lists[pri] else [];
        AllGiven(old(pend.history), pend.history, ws, EV_IDLE, pend.universe) && Raised(old(Slots()), Slots(), ws)
        && ExtendsBy(old(pend.history), pend.history, kinds.Keys)
    {
      found, pri := false, 0;
      if idleall != 0 {
        found, pri := MostUrgent();
        assert forall p: nat :: old(MayRun(p)) ==> MayRun(p);
        if found {
          QueueEvents(pri, EV_IDLE);
        }
      } else {
        forall p: nat ensures !MayRun(p) {
          assert p >= NUMPRI || p == 0 || p == 1 || p == 2 || p == 3 || p == 4;
        }
      }
    }

    /** queue_events for the check watchers, if there are any. */
    method QueueChecks()
      requires Valid()
      modifies pend`pendings, pend`pendingpri, pend`history, kinds.Keys`pending
      ensures Valid() && AllGiven(old(pend.history), pend.history, lists[CHECKS], EV_CHECK, pend.universe)
      ensures Raised(old(Slots()), Slots(), lists[CHECKS])
      ensures OnTop(Risen(old(Slots()), lists[CHECKS]), Except(lists[CHECKS]))
      ensures ExtendsBy(old(pend.history), pend.history, kinds.Keys)
    {
      if lists[CHECKS] != [] {
        QueueEvents(CHECKS, EV_CHECK);
      }
    }

    /**
     Between h and h2 the check watchers were fed EV_CHECK and, if found, the idle watchers of one
     priority EV_IDLE.
     */
    ghost predicate Fed(lists: seq<seq<Watcher>>, h: History, h2: History, found: bool, q: nat, idle: seq<Watcher>) {
      && |lists| == LISTS && (if found then q < NUMPRI && idle == lists[q] else idle == [])
      && forall v | v in kinds ::
           BitsSince(h2, v) ==
           BitsSince(h, v) + (if v in idle then EV_IDLE else {}) + (if v in lists[CHECKS] then EV_CHECK else {})
    }

    /**
     They are pending then, at the places p2, and if found, none of the other watchers is with this or
     a higher priority. The check watchers that were not pending at the places p are above all others.
     */
    ghost predicate PassMade(h: History, h2: History, p: Places, p2: Places, found: bool, q: nat, idle: seq<Watcher>)
      reads this`lists
    {
      && Fed(lists, h, h2, found, q, idle) && (found ==> NothingElse(p2, q, idle + lists[CHECKS]))
      && (forall v | v in idle + lists[CHECKS] :: v in kinds && v in p2 && p2[v].slot > 0)
      && PlacedOnTop(p2, IdleIn(p, lists[CHECKS]), Except(lists[CHECKS]))
    }

    /** What happened to other watchers before does not matter. */
    lemma PassStays(h0: History, h: History, h2: History, p0: Places, p: Places, p2: Places,
                    found: bool, q: nat, idle: seq<Watcher>)
      requires PassMade(h, h2, p, p2, found, q, idle) && Untouched(h0, h, kinds.Keys) && Unmoved(p0, p, kinds.Keys)
      requires forall v | v in lists[CHECKS] :: v in p
      ensures PassMade(h0, h2, p0, p2, found, q, idle)
    {
      assert IdleIn(p0, lists[CHECKS]) == IdleIn(p, lists[CHECKS]);
    }

    lemma NothingThere(q: nat)
      requires Valid() && MayRun(q)
      ensures NothingFrom(pend.Where(), q)
    {
      forall u | u in pend.universe ensures PointerOk(pend.pendings, u) {
      }
    }

    /** Both, as far as bits and slots go. */
    method IdleThenChecks() returns (found: bool, ghost q: nat, ghost idle: seq<Watcher>)
      requires Valid()
      modifies pend`pendings, pend`pendingpri, pend`history, kinds.Keys`pending
      ensures Valid() && ExtendsBy(old(pend.history), pend.history, kinds.Keys)
      ensures if found then old(MayRun(q)) && idle == lists[q] && NothingFrom(old(pend.Where()), q) else idle == []
      ensures !found ==> forall r: nat :: !old(MayRun(r))
      ensures forall v | v in pend.universe ::
                BitsSince(pend.history, v) ==
                BitsSince(old(pend.history), v) + (if v in idle then EV_IDLE else {})
                + (if v in lists[CHECKS] then EV_CHECK else {})
      ensures Raised(old(Slots()), Slots(), idle + lists[CHECKS]) && forall v | v in idle + lists[CHECKS] :: v in kinds
      ensures OnTop(Risen(old(Slots()), lists[CHECKS]), Except(lists[CHECKS]))
    {
      ghost var h, was := pend.history, Slots();
      found, q, idle := PassIdle();
      ghost var mid, slots := pend.history, Slots();
      InItsList(CHECKS);
      InItsList(q);
      QueueChecks();
      GivenTwice(h, mid, pend.history, idle, EV_IDLE, lists[CHECKS], EV_CHECK, pend.universe);
      RaisedTwice(was, slots, Slots(), idle, lists[CHECKS]);
      ExtendsByOn(h, mid, pend.history, kinds.Keys);
    }

    /** idle_reify; the idle watchers run only if nothing of their priority or above is pending. */
    method PassIdle() returns (found: bool, ghost q: nat, ghost idle: seq<Watcher>)
      requires Valid()
      modifies pend`pendings, pend`pendingpri, pend`history, kinds.Keys`pending
      ensures Valid() && ExtendsBy(old(pend.history), pend.history, kinds.Keys) && q < NUMPRI
      ensures if found then old(MayRun(q)) && idle == lists[q] && NothingFrom(old(pend.Where()), q) else idle == []
      ensures !found ==> forall r: nat :: !old(MayRun(r))
      ensures AllGiven(old(pend.history), pend.history, idle, EV_IDLE, pend.universe)
      ensures Raised(old(Slots()), Slots(), idle)
    {
      forall r: nat | MayRun(r) ensures NothingFrom(pend.Where(), r) {
        NothingThere(r);
      }
      var pri;
      found, pri := IdleReify();
      q, idle := if found then pri else 0, if found then lists[pri] else [];
    }

    /** What happened to the slots, for the places. */
    lemma PlacedToo(was: map<Watcher, nat>, p: Places, found: bool, q: nat, idle: seq<Watcher>)
      requires Valid() && was.Keys == kinds.Keys && Raised(was, Slots(), idle + lists[CHECKS])
      requires p.Keys == pend.universe && forall v | v in kinds :: p[v].slot == was[v]
      requires Unmoved(p, pend.Where(), pend.universe - kinds.Keys) && (found ==> NothingFrom(p, q))
      requires forall v | v in kinds :: p[v].priority == v.priority
      requires forall v | v in idle + lists[CHECKS] :: v in kinds
      requires OnTop(Risen(was, lists[CHECKS]), Except(lists[CHECKS]))
      ensures forall v | v in idle + lists[CHECKS] :: v in pend.Where() && pend.Where()[v].slot > 0
      ensures found ==> NothingElse(pend.Where(), q, idle + lists[CHECKS])
      ensures PlacedOnTop(pend.Where(), IdleIn(p, lists[CHECKS]), Except(lists[CHECKS]))
    {
      forall v, u | v in IdleIn(p, lists[CHECKS]) && u in Except(lists[CHECKS]) && u.pending > 0
        ensures Higher(pend.Where()[v], pend.Where()[u])
      {
        assert v in Risen(was, lists[CHECKS]) && Above(v, u);
      }
      forall u | found && u in pend.universe && u !in idle + lists[CHECKS] && u.priority - EV_MINPRI >= q
        ensures u.pending == 0
      {
        if u in kinds {
          assert Slots()[u] == was[u] && p[u].slot == 0;
        } else {
          assert pend.Where()[u] == p[u];
        }
      }
    }

    /** idle_reify and queue_events for the check watchers. */
    method Pass() returns (found: bool, ghost q: nat, ghost idle: seq<Watcher>)
      requires Valid()
      modifies pend`pendings, pend`pendingpri, pend`history, kinds.Keys`pending
      ensures Valid() && ExtendsBy(old(pend.history), pend.history, kinds.Keys)
      ensures PassMade(old(pend.history), pend.history, old(pend.Where()), pend.Where(), found, q, idle)
      ensures found ==> old(MayRun(q))
      ensures !found ==> forall r: nat :: !old(MayRun(r))
      ensures Unmoved(old(pend.Where()), pend.Where(), pend.universe - kinds.Keys)
    {
      ghost var h, was, p := pend.history, Slots(), pend.Where();
      found, q, idle := IdleThenChecks();
      PlacedToo(was, p, found, q, idle);
    }
  }
}
