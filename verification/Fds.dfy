/**
 The table of file descriptors, the list of descriptors that changed, and fd_reify, which tells
 the backend about the changes while the backend may kill descriptors.
 */
module Fds {
  import opened Watchers
  import opened Pending
  import ArraySize

  const ANFD_SIZE := 16
  const IOFDSET_BIT: nat := 7  // of EV__IOFDSET

  /** An ANFD: the started watchers of a descriptor, the events last worked out for it, its reify flags. */
  datatype Anfd = Anfd(head: seq<Watcher>, events: Events, reify: Events)

  /** The backend_modify calls made so far. */
  datatype Calls = None | Call(before: Calls, fd: nat, oev: Events, nev: Events)

  /** What the backend was last told about fd. */
  ghost function Registered(c: Calls, fd: nat): Events {
    match c
    case None => {}
    case Call(before, f, _, nev) => if f == fd then nev else Registered(before, fd)
  }

  /** Every call named as old events what the backend had been told. */
  ghost predicate Chained(c: Calls) {
    match c
    case None => true
    case Call(before, f, oev, _) => Chained(before) && oev == Registered(before, f)
  }

  /** The calls in d are those in c and some later ones. */
  ghost predicate Continues(c: Calls, d: Calls) {
    d == c || (d.Call? && Continues(c, d.before))
  }

  lemma {:induction false} ContinuesOn(c: Calls, d: Calls, e: Calls)
    requires Continues(c, d) && Continues(d, e)
    ensures Continues(c, e)
  {
    if e != d {
      ContinuesOn(c, d, e.before);
    }
  }

  /** The backend kills fd in some round. */
  ghost predicate Victim(victims: nat -> seq<nat>, fd: int) {
    exists i: nat :: fd in victims(i)
  }

  /** Whether a watcher is a started io watcher, its pending slot and its pending bits. */
  datatype Fate = Fate(started: bool, pending: nat, bits: Events)

  /** Only some started watchers were touched: they were stopped, and are pending with an error. */
  ghost predicate OnlyKilled(was: map<Watcher, Fate>, here: map<Watcher, Fate>) {
    && was.Keys == here.Keys
    && forall v | v in was ::
         if was[v].started && !here[v].started then here[v].pending > 0 && here[v].bits == EV_ERROR + EV_READ + EV_WRITE
         else here[v] == was[v]
  }

  /** What fd_kill changes only in part. */
  datatype Past = Past(fates: map<Watcher, Fate>, started: set<Watcher>, fdchanges: seq<nat>, size: nat, excess: int)

  /** Only kills lie between. */
  ghost predicate KillsOnly(was: Past, here: Past) {
    && OnlyKilled(was.fates, here.fates) && here.size == was.size && here.excess == was.excess
    && was.fdchanges <= here.fdchanges && here.started <= was.started
    && (here.started == was.started ==> here.fdchanges == was.fdchanges)
  }

  lemma KilledOn(was: Past, mid: Past, here: Past)
    requires KillsOnly(was, mid) && KillsOnly(mid, here)
    ensures KillsOnly(was, here)
  {
    assert here.started == was.started ==> mid.started == was.started;
  }

  /** The or of the masks of ws. */
  ghost function UnionOf(ws: seq<Watcher>): Events
    reads ws`events
  {
    if ws == [] then {} else UnionOf(ws[..|ws| - 1]) + ws[|ws| - 1].events
  }

  lemma {:induction false} UnionMeans(ws: seq<Watcher>, bit: nat)
    ensures bit in UnionOf(ws) <==> exists w :: w in ws && bit in w.events
  {
    if ws != [] {
      UnionMeans(ws[..|ws| - 1], bit);
      assert ws == ws[..|ws| - 1] + [ws[|ws| - 1]];
    }
  }

  ghost predicate InQueue(changes: seq<nat>, from: nat, fd: nat) {
    exists j :: from <= j < |changes| && changes[j] == fd
  }

  /** The descriptors with reify flags are exactly the entries of the list from that index on, each once. */
  ghost predicate Marked(anfds: seq<Anfd>, changes: seq<nat>, from: nat) {
    && from <= |changes|
    && (forall j | from <= j < |changes| :: changes[j] < |anfds| && anfds[changes[j]].reify != {})
    && (forall i, j | from <= i < j < |changes| :: changes[i] != changes[j])
    && (forall fd | 0 <= fd < |anfds| && anfds[fd].reify != {} :: InQueue(changes, from, fd))
  }

  /** A descriptor without reify flags has the events of its watchers. */
  ghost predicate Synced(a: Anfd, watchers: set<Watcher>)
    reads watchers`events
  {
    (forall w | w in a.head :: w in watchers) && (a.reify != {} || a.events == UnionOf(a.head))
  }

  ghost predicate AllSynced(anfds: seq<Anfd>, watchers: set<Watcher>)
    reads watchers`events
  {
    forall fd {:trigger Synced(anfds[fd], watchers)} | 0 <= fd < |anfds| :: Synced(anfds[fd], watchers)
  }

  /** The list of fd holds started watchers for fd, each once. */
  ghost predicate HeadOk(head: seq<Watcher>, fd: int, started: set<Watcher>)
    reads started`fd
  {
    Distinct(head) && forall w | w in head :: w in started && w.fd == fd
  }

  /** w is in the list of its descriptor. */
  ghost predicate Listed(anfds: seq<Anfd>, w: Watcher)
    reads w`fd
  {
    0 <= w.fd < |anfds| && w in anfds[w.fd].head
  }

  /** Every started watcher is in the list of its descriptor, once, and no other watcher is in a list. */
  ghost predicate HeadsOk(anfds: seq<Anfd>, started: set<Watcher>)
    reads started`fd
  {
    && (forall fd {:trigger HeadOk(anfds[fd].head, fd, started)} | 0 <= fd < |anfds| ::
          HeadOk(anfds[fd].head, fd, started))
    && (forall w {:trigger Listed(anfds, w)} | w in started :: Listed(anfds, w))
  }

  /** The backend has been told the events of every descriptor. */
  ghost predicate AllRegistered(anfds: seq<Anfd>, calls: Calls) {
    && Chained(calls)
    && (forall fd | 0 <= fd < |anfds| :: Registered(calls, fd) == anfds[fd].events)
    && (forall fd: nat | fd >= |anfds| :: Registered(calls, fd) == {})
  }

  /** The part of wlist_del that unlinks w, if it is there. */
  method WlistDel(head: seq<Watcher>, w: Watcher) returns (r: seq<Watcher>)
    requires Distinct(head)
    ensures Distinct(r) && forall v :: v in r <==> v in head && v != w
  {
    var k := 0;
    while k < |head|
      invariant k <= |head| && w !in head[..k]
    {
      if head[k] == w {
        r := head[..k] + head[k + 1..];
        assert head == head[..k] + [w] + head[k + 1..];
        return;
      }
      k := k + 1;
    }
    r := head;
  }

  /** All but fd are in sync. */
  ghost predicate SyncedBut(anfds: seq<Anfd>, fd: nat, watchers: set<Watcher>)
    reads watchers`events
  {
    forall f {:trigger Synced(anfds[f], watchers)} | 0 <= f < |anfds| && f != fd :: Synced(anfds[f], watchers)
  }

  /** The list for fd is another one, and fd is flagged. */
  ghost function Relisted(anfds: seq<Anfd>, fd: nat, head: seq<Watcher>, flags: Events): seq<Anfd>
    requires fd < |anfds|
  {
    anfds[fd := Anfd(head, anfds[fd].events, anfds[fd].reify + flags)]
  }

  ghost function Requeued(anfds: seq<Anfd>, changes: seq<nat>, fd: nat): seq<nat>
    requires fd < |anfds|
  {
    if anfds[fd].reify == {} then changes + [fd] else changes
  }

  lemma HeadRemoved(anfds: seq<Anfd>, started: set<Watcher>, w: Watcher, r: seq<Watcher>, flags: Events)
    requires HeadsOk(anfds, started) && w in started && Listed(anfds, w)
    requires Distinct(r) && forall v :: v in r <==> v in anfds[w.fd].head && v != w
    ensures HeadsOk(Relisted(anfds, w.fd, r, flags), started - {w})
  {
    var after := Relisted(anfds, w.fd, r, flags);
    forall fd | 0 <= fd < |after| ensures HeadOk(after[fd].head, fd, started - {w}) {
      assert HeadOk(anfds[fd].head, fd, started);
    }
    forall v | v in started - {w} ensures Listed(after, v) {
      assert Listed(anfds, v);
    }
  }

  lemma HeadAdded(anfds: seq<Anfd>, started: set<Watcher>, w: Watcher, flags: Events)
    requires HeadsOk(anfds, started) && w !in started && 0 <= w.fd < |anfds|
    ensures HeadsOk(Relisted(anfds, w.fd, [w] + anfds[w.fd].head, flags), started + {w})
  {
    var after := Relisted(anfds, w.fd, [w] + anfds[w.fd].head, flags);
    forall fd | 0 <= fd < |after| ensures HeadOk(after[fd].head, fd, started + {w}) {
      assert HeadOk(anfds[fd].head, fd, started);
    }
    forall v | v in started + {w} ensures Listed(after, v) {
      assert v != w ==> Listed(anfds, v);
    }
  }

  lemma OthersSynced(anfds: seq<Anfd>, started: set<Watcher>, w: Watcher, watchers: set<Watcher>)
    requires HeadsOk(anfds, started) && w !in started && 0 <= w.fd < |anfds| && AllSynced(anfds, watchers)
    ensures SyncedBut(anfds, w.fd, watchers - {w})
  {
    forall f | 0 <= f < |anfds| && f != w.fd ensures Synced(anfds[f], watchers - {w}) {
      assert Synced(anfds[f], watchers) && HeadOk(anfds[f].head, f, started);
    }
  }

  /** What is in sync does not depend on a watcher that is not started. */
  lemma Unaffected(anfds: seq<Anfd>, started: set<Watcher>, w: Watcher, watchers: set<Watcher>)
    requires HeadsOk(anfds, started) && w !in started && AllSynced(anfds, watchers)
    ensures AllSynced(anfds, watchers - {w})
  {
    forall f | 0 <= f < |anfds| ensures Synced(anfds[f], watchers - {w}) {
      assert Synced(anfds[f], watchers) && HeadOk(anfds[f].head, f, started);
    }
  }

  lemma Widened(anfds: seq<Anfd>, some: set<Watcher>, watchers: set<Watcher>)
    requires AllSynced(anfds, some) && some <= watchers
    ensures AllSynced(anfds, watchers)
  {
    forall f | 0 <= f < |anfds| ensures Synced(anfds[f], watchers) {
      assert Synced(anfds[f], some);
    }
  }

  lemma RelistedSynced(anfds: seq<Anfd>, fd: nat, head: seq<Watcher>, flags: Events,
                       some: set<Watcher>, watchers: set<Watcher>)
    requires fd < |anfds| && SyncedBut(anfds, fd, some) && some <= watchers && flags != {}
    requires forall w | w in head :: w in watchers
    ensures AllSynced(Relisted(anfds, fd, head, flags), watchers)
  {
    var after := Relisted(anfds, fd, head, flags);
    forall f | 0 <= f < |after| ensures Synced(after[f], watchers) {
      if f == fd {
        var b :| b in flags;
        assert b in after[f].reify;
      } else {
        assert after[f] == anfds[f] && Synced(anfds[f], some);
      }
    }
  }

  /** Flagging fd, and appending it unless it was flagged before, keeps the list of changes right. */
  lemma RelistedMarked(anfds: seq<Anfd>, changes: seq<nat>, from: nat, fd: nat, head: seq<Watcher>,
                       flags: Events, calls: Calls)
    requires Marked(anfds, changes, from) && fd < |anfds| && flags != {} && AllRegistered(anfds, calls)
    ensures Marked(Relisted(anfds, fd, head, flags), Requeued(anfds, changes, fd), from)
    ensures AllRegistered(Relisted(anfds, fd, head, flags), calls)
  {
    var after, longer := Relisted(anfds, fd, head, flags), Requeued(anfds, changes, fd);
    assert after[fd].reify != {} by { var b :| b in flags; assert b in after[fd].reify; }
    forall f | 0 <= f < |after| && after[f].reify != {} ensures InQueue(longer, from, f) {
      if anfds[f].reify != {} {
        var j :| from <= j < |changes| && changes[j] == f;
        assert longer[j] == f;
      } else {
        assert longer[|changes|] == f;
      }
    }
  }

  /** The flags that ev_io_start gives a descriptor. */
  function StartFlags(events: Events): (flags: Events)
    ensures flags != {} && (IOFDSET_BIT in flags <==> IOFDSET_BIT in events)
  {
    events * EV_IOFDSET + EV_ANFD_REIFY
  }

  /** The table entry of f, all zero where the table has not grown yet. */
  ghost function At(anfds: seq<Anfd>, f: nat): Anfd {
    if f < |anfds| then anfds[f] else Anfd([], {}, {})
  }

  /** w has joined the list for fd, in front, fd got w's flags and was queued, and that is all. */
  ghost predicate Joined(was: seq<Anfd>, anfds: seq<Anfd>, queue: seq<nat>, changes: seq<nat>,
                         w: Watcher, fd: nat, events: Events)
  {
    var a := At(was, fd);
    && |was| <= |anfds| && fd < |anfds| && anfds[fd] == Anfd([w] + a.head, a.events, a.reify + StartFlags(events))
    && changes == (if a.reify == {} then queue + [fd] else queue)
    && forall f: nat | f != fd :: At(anfds, f) == At(was, f)
  }

  /** array_init_zero */
  function Zeroed(n: nat): (z: seq<Anfd>)
    ensures |z| == n && forall f | 0 <= f < n :: z[f] == Anfd([], {}, {})
  {
    seq(n, _ => Anfd([], {}, {}))
  }

  lemma Grown(anfds: seq<Anfd>, n: nat, changes: seq<nat>, from: nat, started: set<Watcher>,
              watchers: set<Watcher>, calls: Calls)
    requires HeadsOk(anfds, started) && AllSynced(anfds, watchers)
    requires Marked(anfds, changes, from) && AllRegistered(anfds, calls)
    ensures
      var after := anfds + Zeroed(n);
      && HeadsOk(after, started) && AllSynced(after, watchers)
      && Marked(after, changes, from) && AllRegistered(after, calls)
  {
    var after := anfds + Zeroed(n);
    forall f | 0 <= f < |after|
      ensures HeadOk(after[f].head, f, started) && Synced(after[f], watchers)
    {
      if f < |anfds| {
        assert after[f] == anfds[f] && HeadOk(anfds[f].head, f, started) && Synced(anfds[f], watchers);
      }
    }
    forall w | w in started ensures Listed(after, w) {
      assert Listed(anfds, w);
    }
  }

  lemma HasIoFdSet(flags: Events)
    ensures flags * EV_IOFDSET != {} <==> IOFDSET_BIT in flags
  {
    assert IOFDSET_BIT in flags ==> IOFDSET_BIT in flags * EV_IOFDSET;
  }

  /** Working out the events of the first entry of the list and telling the backend takes it off the list. */
  lemma Resettled(anfds: seq<Anfd>, changes: seq<nat>, from: nat, fd: nat, events: Events, started: set<Watcher>,
                  watchers: set<Watcher>, calls: Calls)
    requires HeadsOk(anfds, started) && AllSynced(anfds, watchers)
    requires Marked(anfds, changes, from) && AllRegistered(anfds, calls)
    requires from < |changes| && fd == changes[from] && fd < |anfds| && events == UnionOf(anfds[fd].head)
    ensures
      var after := anfds[fd := anfds[fd].(reify := {}, events := events)];
      && HeadsOk(after, started) && AllSynced(after, watchers) && Marked(after, changes, from + 1)
      && AllRegistered(after, Call(calls, fd, anfds[fd].events, events))
      && (events == anfds[fd].events ==> AllRegistered(after, calls))
  {
    var after := anfds[fd := anfds[fd].(reify := {}, events := events)];
    forall f | 0 <= f < |after|
      ensures HeadOk(after[f].head, f, started) && Synced(after[f], watchers)
      ensures after[f].reify != {} ==> InQueue(changes, from + 1, f)
    {
      assert HeadOk(anfds[f].head, f, started) && Synced(anfds[f], watchers);
      if f != fd && after[f].reify != {} {
        var j :| from <= j < |changes| && changes[j] == f;
        assert j != from;
      }
    }
    forall w | w in started ensures Listed(after, w) {
      assert Listed(anfds, w);
    }
  }

  /** Nothing but the list and the flags of fd is different. */
  ghost predicate OnlyFlagged(was: seq<Anfd>, anfds: seq<Anfd>, fd: nat) {
    && |anfds| == |was| && fd < |was| && anfds[fd].events == was[fd].events
    && forall f | 0 <= f < |was| && f != fd :: anfds[f] == was[f]
  }

  ghost function Rearmed(a: Anfd): Anfd {
    if a.events == {} then a else Anfd(a.head, {}, a.reify + (EV_IOFDSET + EV_ANFD_REIFY))
  }

  lemma RearmedOne(anfds: seq<Anfd>, changes: seq<nat>, from: nat, fd: nat, started: set<Watcher>,
                   watchers: set<Watcher>)
    requires HeadsOk(anfds, started) && AllSynced(anfds, watchers) && Marked(anfds, changes, from)
    requires fd < |anfds| && anfds[fd].events != {}
    ensures
      var after := anfds[fd := Rearmed(anfds[fd])];
      HeadsOk(after, started) && AllSynced(after, watchers) && Marked(after, Requeued(anfds, changes, fd), from)
  {
    var after := anfds[fd := Rearmed(anfds[fd])];
    var longer := Requeued(anfds, changes, fd);
    assert 0 in after[fd].reify;
    forall f | 0 <= f < |after|
      ensures HeadOk(after[f].head, f, started) && Synced(after[f], watchers)
      ensures after[f].reify != {} ==> InQueue(longer, from, f)
    {
      assert HeadOk(anfds[f].head, f, started) && Synced(anfds[f], watchers);
      if anfds[f].reify != {} {
        var j :| from <= j < |changes| && changes[j] == f;
        assert longer[j] == f;
      } else if f == fd {
        assert longer[|changes|] == f;
      }
    }
    forall w | w in started ensures Listed(after, w) {
      assert Listed(anfds, w);
    }
  }

  class FdTable {
    const pend: Pendings
    ghost const watchers: set<Watcher>  // the initialised io watchers
    var anfds: seq<Anfd>
    var fdchanges: seq<nat>
    var activecnt: int
    ghost var walked: nat               // the entries of fdchanges that a running fd_reify is done with
    ghost var started: set<Watcher>     // the active io watchers
    var calls: Calls                    // a log of the calls of backend_modify

    ghost predicate ActiveOk()
      reads this`started, watchers`active
    {
      started <= watchers && forall w {:trigger w in watchers} | w in watchers :: w.active != 0 <==> w in started
    }

    ghost predicate TableOk()
      reads this`anfds, this`fdchanges, this`walked, this`started, this`calls
      reads watchers`active, watchers`events, watchers`fd, started`fd
    {
      && ActiveOk() && HeadsOk(anfds, started) && AllSynced(anfds, watchers)
      && Marked(anfds, fdchanges, walked) && AllRegistered(anfds, calls)
    }

    ghost predicate Valid()
      reads this`anfds, this`fdchanges, this`walked, this`started, this`calls
      reads watchers`active, watchers`events, watchers`fd, started`fd
      reads pend`pendings, pend`pendingpri, pend`scripts, pend`history, pend.universe`pending, pend.universe`priority
    {
      TableOk() && pend.Valid() && watchers <= pend.universe
    }

    constructor (pend: Pendings, ghost watchers: set<Watcher>)
      requires pend.Valid() && watchers <= pend.universe && forall w | w in watchers :: w.active == 0
      ensures Valid() && this.pend == pend && this.watchers == watchers
      ensures anfds == [] && fdchanges == [] && walked == 0 && started == {} && calls == None && activecnt == 0
    {
      this.pend, this.watchers := pend, watchers;
      anfds, fdchanges, activecnt, walked, started, calls := [], [], 0, 0, {}, None;
    }

    /** ev_io_set, which is allowed only for a watcher that is not active, and notes that fd is new. */
    method IoSet(w: Watcher, fd: int, events: Events)
      requires Valid() && w in watchers && w.active == 0
      modifies w`fd, w`events
      ensures Valid() && w.fd == fd && w.events == events + EV_IOFDSET
    {
      assert w !in started;
      Unaffected(anfds, started, w, watchers);
      w.fd := fd;
      w.events := events + EV_IOFDSET;
      Widened(anfds, watchers - {w}, watchers);
    }

    /** fd_change */
    method FdChange(fd: nat, flags: Events)
      requires fd < |anfds|
      modifies this`anfds, this`fdchanges
      ensures anfds == Relisted(old(anfds), fd, old(anfds)[fd].head, flags)
      ensures fdchanges == Requeued(old(anfds), old(fdchanges), fd)
    {
      var reify := anfds[fd].reify;
      anfds := anfds[fd := anfds[fd].(reify := reify + flags)];
      if reify == {} {
        fdchanges := fdchanges + [fd];
      }
    }

    /** wlist_add or wlist_del, which made head, and fd_change. */
    method Relist(fd: nat, head: seq<Watcher>, flags: Events)
      requires fd < |anfds|
      modifies this`anfds, this`fdchanges
      ensures anfds == Relisted(old(anfds), fd, head, flags)
      ensures fdchanges == Requeued(old(anfds), old(fdchanges), fd)
    {
      anfds := anfds[fd := anfds[fd].(head := head)];
      FdChange(fd, flags);
    }

    /** The part of ev_io_stop that changes the table. */
    method Detach(w: Watcher)
      requires TableOk() && w in started
      modifies this`anfds, this`fdchanges, this`started, w`active
      ensures TableOk() && w.active == 0 && started == old(started) - {w}
      ensures |anfds| == |old(anfds)| && old(fdchanges) <= fdchanges
      ensures 0 <= w.fd < |anfds| && forall v :: v in anfds[w.fd].head <==> v in old(anfds)[w.fd].head && v != w
      ensures anfds == Relisted(old(anfds), w.fd, anfds[w.fd].head, EV_ANFD_REIFY)
      ensures fdchanges == Requeued(old(anfds), old(fdchanges), w.fd)
    {
      var fd := w.fd;
      assert Listed(anfds, w) && HeadOk(anfds[fd].head, fd, started);
      var r := WlistDel(anfds[fd].head, w);
      HeadRemoved(anfds, started, w, r, EV_ANFD_REIFY);
      RelistedSynced(anfds, fd, r, EV_ANFD_REIFY, watchers, watchers);
      RelistedMarked(anfds, fdchanges, walked, fd, r, EV_ANFD_REIFY, calls);
      w.active := 0;
      started := started - {w};
      Relist(fd, r, EV_ANFD_REIFY);
    }

    /** ev_io_stop, which also makes w no longer pending. */
    method IoStop(w: Watcher)
      requires Valid() && w in watchers
      modifies this`anfds, this`fdchanges, this`activecnt, this`started, w`active
      modifies pend`pendings, pend`history, w`pending
      ensures Valid() && w.pending == 0 && w.active == 0 && started == old(started) - {w}
      ensures |anfds| == |old(anfds)| && old(fdchanges) <= fdchanges
      ensures w !in old(started) ==> anfds == old(anfds) && fdchanges == old(fdchanges)
      ensures w in old(started) ==>
                && 0 <= w.fd < |anfds|
                && (forall v :: v in anfds[w.fd].head <==> v in old(anfds)[w.fd].head && v != w)
                && anfds == Relisted(old(anfds), w.fd, anfds[w.fd].head, EV_ANFD_REIFY)
                && fdchanges == Requeued(old(anfds), old(fdchanges), w.fd)
      ensures activecnt == old(activecnt) - if w in old(started) then 1 else 0
      ensures pend.history == if old(w.pending) > 0 then Then(old(pend.history), Cleared(w)) else old(pend.history)
      ensures Total(pend.pendings) == Total(old(pend.pendings))
    {
      assert PointerOk(pend.pendings, w);
      var _ := pend.Clear(w);
      if w.active == 0 {
        assert w !in started;
        return;
      }
      Detach(w);
      activecnt := activecnt - 1;
    }

    /** array_needsize for anfds, which fills the new entries with zeros. */
    method NeedSize(cnt: nat)
      requires TableOk()
      modifies this`anfds
      ensures TableOk() && |anfds| >= cnt && old(anfds) <= anfds
      ensures forall f | |old(anfds)| <= f < |anfds| :: anfds[f] == Anfd([], {}, {})
    {
      if cnt > |anfds| {
        var ncur := ArraySize.NextSize(ANFD_SIZE, |anfds|, cnt);
        Grown(anfds, ncur - |anfds|, fdchanges, walked, started, watchers, calls);
        anfds := anfds + Zeroed(ncur - |anfds|);
      }
    }

    /** The part of ev_io_start that changes the table once it has room. */
    method Attach(w: Watcher)
      requires TableOk() && w in watchers && w !in started && 0 <= w.fd < |anfds|
      modifies this`anfds, this`fdchanges, this`started, w`active, w`events
      ensures TableOk() && started == old(started) + {w} && w.events == old(w.events) - EV_IOFDSET
      ensures anfds == Relisted(old(anfds), w.fd, [w] + old(anfds)[w.fd].head, StartFlags(old(w.events)))
      ensures fdchanges == Requeued(old(anfds), old(fdchanges), w.fd)
    {
      var fd, flags := w.fd, StartFlags(w.events);
      var head := [w] + anfds[fd].head;
      ghost var before := anfds;
      assert 0 in flags;
      HeadAdded(anfds, started, w, flags);
      RelistedMarked(anfds, fdchanges, walked, fd, head, flags, calls);
      OthersSynced(anfds, started, w, watchers);
      assert HeadOk(anfds[fd].head, fd, started);
      w.active := 1;
      started := started + {w};
      Relist(fd, head, flags);
      w.events := w.events - EV_IOFDSET;
      RelistedSynced(before, fd, head, flags, watchers - {w}, watchers);
    }

    /** ev_io_start; assertions of ev.c demand a descriptor that is not negative and a legal mask. */
    method IoStart(w: Watcher)
      requires Valid() && w in watchers
      requires w.active == 0 ==> w.fd >= 0 && w.events <= EV_IOFDSET + EV_READ + EV_WRITE
      modifies this`anfds, this`fdchanges, this`activecnt, this`started, w`active, w`events
      ensures Valid() && started == old(started) + {w}
      ensures w.events == if w in old(started) then old(w.events) else old(w.events) - EV_IOFDSET
      ensures w in old(started) ==> anfds == old(anfds) && fdchanges == old(fdchanges)
      ensures w !in old(started) ==>
                0 <= w.fd && Joined(old(anfds), anfds, old(fdchanges), fdchanges, w, w.fd, old(w.events))
      ensures activecnt == old(activecnt) + if w in old(started) then 0 else 1
    {
      if w.active != 0 {
        assert w in started;
        return;
      }
      assert w !in started;
      activecnt := activecnt + 1;
      Join(w);
    }

    /** The part of ev_io_start that makes room in the table and changes it. */
    method Join(w: Watcher)
      requires TableOk() && w in watchers && w !in started && w.fd >= 0
      modifies this`anfds, this`fdchanges, this`started, w`active, w`events
      ensures TableOk() && started == old(started) + {w} && w.events == old(w.events) - EV_IOFDSET
      ensures Joined(old(anfds), anfds, old(fdchanges), fdchanges, w, w.fd, old(w.events))
    {
      NeedSize(w.fd + 1);
      Attach(w);
    }

    /** What fd_kill changes only in part, as it is now. */
    ghost function Now(): (p: Past)
      reads this`started, this`fdchanges, this`anfds, this`activecnt, pend`history, pend.universe`pending
    {
      var fates := map v | v in pend.universe :: Fate(v in started, v.pending, BitsSince(pend.history, v));
      Past(fates, started, fdchanges, |anfds|, activecnt - |started|)
    }

    /** What kills made of w. */
    lemma FateOf(was: map<Watcher, Fate>, w: Watcher)
      requires OnlyKilled(was, Now().fates) && w in pend.universe
      ensures w in was
      ensures
        if was[w].started && w !in started then
          w.pending > 0 && BitsSince(pend.history, w) == EV_ERROR + EV_READ + EV_WRITE
        else
          was[w] == Fate(w in started, w.pending, BitsSince(pend.history, w))
    {
    }

    /** fd_kill: all watchers of fd are stopped and become pending with an error, and nothing else. */
    method FdKill(fd: nat)
      requires Valid() && fd < |anfds|
      modifies this`anfds, this`fdchanges, this`activecnt, this`started, watchers`active
      modifies pend`pendings, pend`pendingpri, pend`history, watchers`pending
      ensures Valid() && KillsOnly(old(Now()), Now()) && OnlyFlagged(old(anfds), anfds, fd)
      ensures anfds[fd].head == [] && forall v | v in old(started) :: v in started <==> v !in old(anfds)[fd].head
    {
      ghost var all, was := anfds[fd].head, Now();
      assert HeadOk(all, fd, started);
      while anfds[fd].head != []
        invariant Valid() && KillsOnly(was, Now()) && OnlyFlagged(old(anfds), anfds, fd)
        invariant forall v | v in anfds[fd].head :: v in all
        invariant forall v | v in old(started) :: v in started <==> v !in all || v in anfds[fd].head
        decreases started
      {
        KillNext(fd, was);
      }
    }

    /** The body of fd_kill's loop, after some kills. */
    method KillNext(fd: nat, ghost was: Past)
      requires Valid() && KillsOnly(was, Now()) && fd < |anfds| && anfds[fd].head != []
      modifies this`anfds, this`fdchanges, this`activecnt, this`started, watchers`active
      modifies pend`pendings, pend`pendingpri, pend`history, watchers`pending
      ensures Valid() && KillsOnly(was, Now()) && OnlyFlagged(old(anfds), anfds, fd)
      ensures
        var w := old(anfds)[fd].head[0];
        && w in old(started) && started == old(started) - {w}
        && (forall v :: v in anfds[fd].head <==> v in old(anfds)[fd].head && v != w)
    {
      ghost var mid := Now();
      KillOne(fd);
      KilledOn(was, mid, Now());
    }

    /** The body of fd_kill's loop. */
    method KillOne(fd: nat)
      requires Valid() && fd < |anfds| && anfds[fd].head != []
      modifies this`anfds, this`fdchanges, this`activecnt, this`started, watchers`active
      modifies pend`pendings, pend`pendingpri, pend`history, watchers`pending
      ensures Valid() && |anfds| == |old(anfds)| && old(fdchanges) <= fdchanges && OnlyFlagged(old(anfds), anfds, fd)
      ensures
        var w := old(anfds)[fd].head[0];
        && w in old(started) && started == old(started) - {w} && activecnt == old(activecnt) - 1
        && (forall v :: v in anfds[fd].head <==> v in old(anfds)[fd].head && v != w)
        && w.pending > 0 && BitsSince(pend.history, w) == EV_ERROR + EV_READ + EV_WRITE
        && (forall v | v in pend.universe && v != w :: BitsSince(pend.history, v) == old(BitsSince(pend.history, v)))
        && (forall v | v in pend.universe && v != w :: v.pending == old(v.pending))
    {
      var w := anfds[fd].head[0];
      assert HeadOk(anfds[fd].head, fd, started);
      IoStop(w);
      pend.IdleHasNoBits(w);
      assert PointerOk(pend.pendings, w);
      pend.Feed(w, EV_ERROR + EV_READ + EV_WRITE);
    }

    /** The or of the masks of fd's watchers, as fd_reify works it out. */
    method UnionOfHead(fd: nat) returns (events: Events)
      requires fd < |anfds|
      ensures events == UnionOf(anfds[fd].head)
    {
      events := {};
      var head := anfds[fd].head;
      for k := 0 to |head|
        invariant events == UnionOf(head[..k])
      {
        assert head[..k + 1][..k] == head[..k];
        events := events + head[k].events;
      }
      Whole(head);
    }

    /** Of the watchers in was exactly those of other descriptors are started. */
    ghost predicate Spared(was: set<Watcher>, victims: seq<nat>)
      reads this`started, was`fd
    {
      started <= was && forall v | v in was :: v in started <==> v.fd !in victims
    }

    /** fd_kill, if the descriptor has ever had a watcher, after the dead were killed. */
    method Kill(fd: nat, ghost was: Past, ghost dead: seq<nat>)
      requires Valid() && KillsOnly(was, Now()) && Spared(was.started, dead)
      modifies this`anfds, this`fdchanges, this`activecnt, this`started, watchers`active
      modifies pend`pendings, pend`pendingpri, pend`history, watchers`pending
      ensures Valid() && KillsOnly(was, Now()) && Spared(was.started, dead + [fd])
    {
      forall v | v in started ensures v.fd == fd ==> fd < |anfds| && v in anfds[fd].head {
        assert Listed(anfds, v);
      }
      if fd < |anfds| {
        assert HeadOk(anfds[fd].head, fd, started);
        ghost var mid := Now();
        FdKill(fd);
        KilledOn(was, mid, Now());
      }
    }

    /** What a backend may do while it is told about a change: kill descriptors, this one or others. */
    method KillSome(victims: seq<nat>, ghost was: Past)
      requires Valid() && was == Now()
      modifies this`anfds, this`fdchanges, this`activecnt, this`started, watchers`active
      modifies pend`pendings, pend`pendingpri, pend`history, watchers`pending
      ensures Valid() && KillsOnly(was, Now()) && Spared(was.started, victims)
    {
      for k := 0 to |victims|
        invariant Valid() && KillsOnly(was, Now()) && Spared(was.started, victims[..k])
      {
        Prefixes(victims, k);
        Kill(victims[k], was, victims[..k]);
      }
      Whole(victims);
    }

    /** fd_reify's loop body up to the call of backend_modify, which it makes a note of. */
    method Settle(fd: nat) returns (modified: bool)
      requires TableOk() && walked < |fdchanges| && fd == fdchanges[walked] && fd < |anfds|
      modifies this`anfds, this`walked, this`calls
      ensures TableOk() && walked == old(walked) + 1 && Now() == old(Now())
      ensures anfds == old(anfds)[fd := Anfd(old(anfds)[fd].head, UnionOf(old(anfds)[fd].head), {})]
      ensures modified <==> anfds[fd].events != old(anfds)[fd].events || IOFDSET_BIT in old(anfds)[fd].reify
      ensures calls == if modified then Call(old(calls), fd, old(anfds)[fd].events, anfds[fd].events) else old(calls)
    {
      var o_events, o_reify := anfds[fd].events, anfds[fd].reify;
      var events := UnionOfHead(fd);
      if o_events != events {
        o_reify := EV_IOFDSET;
      }
      HasIoFdSet(o_reify);
      modified := o_reify * EV_IOFDSET != {};
      Store(fd, events, modified);
    }

    /** Stores the events of the first entry of the list, which it takes off the list. */
    method Store(fd: nat, events: Events, modified: bool)
      requires TableOk() && walked < |fdchanges| && fd == fdchanges[walked] && fd < |anfds|
      requires events == UnionOf(anfds[fd].head) && (modified || events == anfds[fd].events)
      modifies this`anfds, this`walked, this`calls
      ensures TableOk() && walked == old(walked) + 1
      ensures anfds == old(anfds)[fd := Anfd(old(anfds)[fd].head, events, {})]
      ensures calls == if modified then Call(old(calls), fd, old(anfds)[fd].events, events) else old(calls)
    {
      Resettled(anfds, fdchanges, walked, fd, events, started, watchers, calls);
      var o_events := anfds[fd].events;
      anfds := anfds[fd := anfds[fd].(reify := {}, events := events)];
      walked := walked + 1;
      calls := if modified then Call(calls, fd, o_events, events) else calls;
    }

    /** One round of fd_reify's loop, after some kills; the backend kills the victims. */
    method ReifyEntry(fd: nat, victims: seq<nat>, ghost was: Past)
      requires Valid() && KillsOnly(was, Now()) && walked < |fdchanges| && fd == fdchanges[walked]
      modifies this`anfds, this`fdchanges, this`activecnt, this`started, this`walked, this`calls, watchers`active
      modifies pend`pendings, pend`pendingpri, pend`history, watchers`pending
      ensures Valid() && KillsOnly(was, Now()) && walked == old(walked) + 1 && Continues(old(calls), calls)
      ensures KillsOnly(old(Now()), Now()) && forall v | v in old(started) && v !in started :: v.fd in victims
    {
      ghost var mid := Now();
      var modified := Settle(fd);
      if modified {
        KillSome(victims, mid);
      }
      KilledOn(was, mid, Now());
    }

    /** The end of fd_reify: the list of changes is empty again. */
    method FinishReify()
      requires TableOk() && walked == |fdchanges|
      modifies this`fdchanges, this`walked
      ensures TableOk() && walked == 0 && fdchanges == []
      ensures forall fd | 0 <= fd < |anfds| ::
                && anfds[fd].reify == {} && anfds[fd].events == UnionOf(anfds[fd].head)
                && Registered(calls, fd) == UnionOf(anfds[fd].head)
    {
      fdchanges := [];
      walked := 0;
      assert forall fd | 0 <= fd < |anfds| :: Synced(anfds[fd], watchers);
    }

    /** fd_reify's loop, which ends although the list may grow meanwhile. */
    method ReifyChanges(victims: nat -> seq<nat>)
      requires Valid() && walked == 0
      modifies this`anfds, this`fdchanges, this`activecnt, this`started, this`walked, this`calls, watchers`active
      modifies pend`pendings, pend`pendingpri, pend`history, watchers`pending
      ensures Valid() && KillsOnly(old(Now()), Now()) && walked == |fdchanges| && Continues(old(calls), calls)
      ensures forall v | v in old(started) && v !in started :: Victim(victims, v.fd)
    {
      ghost var was := Now();
      var i := 0;
      while i < |fdchanges|
        invariant Valid() && KillsOnly(was, Now()) && walked == i && Continues(old(calls), calls)
        invariant forall v | v in old(started) && v !in started :: Victim(victims, v.fd)
        decreases started, |fdchanges| - i
      {
        ghost var log := calls;
        ReifyEntry(fdchanges[i], victims(i), was);
        ContinuesOn(old(calls), log, calls);
        i := i + 1;
      }
    }

    /**
     fd_reify; the backend kills the descriptors in victims(i) if it is called in round i. It ends
     although the list may grow meanwhile; then no descriptor is flagged, every descriptor has the or
     of its watchers' masks as events, and the backend has been told just that. Watchers of killed
     descriptors only have been stopped, and are pending with an error; no other watcher was touched.
     */
    method FdReify(victims: nat -> seq<nat>)
      requires Valid() && walked == 0
      modifies this`anfds, this`fdchanges, this`activecnt, this`started, this`walked, this`calls, watchers`active
      modifies pend`pendings, pend`pendingpri, pend`history, watchers`pending
      ensures Valid() && walked == 0 && fdchanges == []
      ensures forall fd | 0 <= fd < |anfds| ::
                && anfds[fd].reify == {} && anfds[fd].events == UnionOf(anfds[fd].head)
                && Registered(calls, fd) == UnionOf(anfds[fd].head)
      ensures Continues(old(calls), calls) && OnlyKilled(old(Now().fates), Now().fates)
      ensures |anfds| == |old(anfds)| && activecnt - |started| == old(activecnt - |started|)
      ensures started <= old(started) && forall v | v in old(started) && v !in started :: Victim(victims, v.fd)
    {
      ReifyChanges(victims);
      FinishReify();
    }

    /** Each of ws was fed the events that it wants, and no other watcher any. */
    ghost predicate FedWanted(was: map<Watcher, Fate>, here: map<Watcher, Fate>, ws: seq<Watcher>, revents: Events)
      reads ws`events
    {
      && was.Keys == here.Keys
      && forall v | v in was ::
           if v in ws then
             && here[v].bits == was[v].bits + v.events * revents
             && (was[v].pending > 0 || v.events * revents != {} ==> here[v].pending > 0)
           else here[v] == was[v]
    }

    lemma FedFate(was: map<Watcher, Fate>, ws: seq<Watcher>, revents: Events, w: Watcher)
      requires FedWanted(was, Now().fates, ws, revents) && w in pend.universe
      ensures w in was
      ensures
        if w in ws then was[w].pending > 0 || w.events * revents != {} ==> w.pending > 0
        else w.pending == was[w].pending
    {
    }

    lemma FedOneMore(was: map<Watcher, Fate>, mid: map<Watcher, Fate>, here: map<Watcher, Fate>,
                     ws: seq<Watcher>, w: Watcher, revents: Events)
      requires FedWanted(was, mid, ws, revents) && w in mid && w !in ws
      requires mid.Keys == here.Keys && forall v | v in mid && v != w :: here[v] == mid[v]
      requires here[w].bits == mid[w].bits + w.events * revents
      requires mid[w].pending > 0 || w.events * revents != {} ==> here[w].pending > 0
      ensures FedWanted(was, here, ws + [w], revents)
    {
    }

    /** The body of fd_event_nocheck's loop, after ws. */
    method FeedWanted(w: Watcher, revents: Events, ghost was: map<Watcher, Fate>, ghost ws: seq<Watcher>)
      requires Valid() && w in watchers && w !in ws && FedWanted(was, Now().fates, ws, revents)
      modifies pend`pendings, pend`pendingpri, pend`history, w`pending
      ensures Valid() && FedWanted(was, Now().fates, ws + [w], revents)
    {
      ghost var mid := Now().fates;
      var ev := w.events * revents;
      if ev != {} {
        assert PointerOk(pend.pendings, w);
        pend.Feed(w, ev);
      }
      FedOneMore(was, mid, Now().fates, ws, w, revents);
    }

    /** fd_event_nocheck: every watcher of fd is fed the events it is interested in, and no other. */
    method FdEventNocheck(fd: nat, revents: Events)
      requires Valid() && fd < |anfds|
      modifies pend`pendings, pend`pendingpri, pend`history, watchers`pending
      ensures Valid() && FedWanted(old(Now().fates), Now().fates, anfds[fd].head, revents)
    {
      ghost var was := Now().fates;
      var head := anfds[fd].head;
      assert HeadOk(head, fd, started);
      for k := 0 to |head|
        invariant Valid() && FedWanted(was, Now().fates, head[..k], revents)
      {
        assert head[k] in started && head[k] !in head[..k];
        Prefixes(head, k);
        FeedWanted(head[k], revents, was, head[..k]);
      }
      Whole(head);
    }

    /** fd_event, for events from the kernel: none for a descriptor that changed since it was polled. */
    method FdEvent(fd: nat, revents: Events)
      requires Valid() && fd < |anfds|
      modifies pend`pendings, pend`pendingpri, pend`history, watchers`pending
      ensures Valid()
      ensures FedWanted(old(Now().fates), Now().fates, if anfds[fd].reify == {} then anfds[fd].head else [], revents)
    {
      if anfds[fd].reify == {} {
        FdEventNocheck(fd, revents);
      }
    }

    /**
     fd_rearm_all, for a backend that starts anew and has been told nothing: every descriptor with
     events is to be reified, as if its events were new.
     */
    method RearmAll()
      requires TableOk()
      modifies this`anfds, this`fdchanges, this`calls
      ensures TableOk() && calls == None && |anfds| == |old(anfds)| && old(fdchanges) <= fdchanges
      ensures forall fd | 0 <= fd < |anfds| :: anfds[fd] == Rearmed(old(anfds)[fd])
    {
      for fd := 0 to |anfds|
        invariant |anfds| == |old(anfds)| && old(fdchanges) <= fdchanges
        invariant HeadsOk(anfds, started) && AllSynced(anfds, watchers) && Marked(anfds, fdchanges, walked)
        invariant forall f | 0 <= f < |anfds| :: anfds[f] == if f < fd then Rearmed(old(anfds)[f]) else old(anfds)[f]
      {
        RearmOne(fd);
      }
      calls := None;
    }

    /** The body of fd_rearm_all's loop. */
    method RearmOne(fd: nat)
      requires HeadsOk(anfds, started) && AllSynced(anfds, watchers) && Marked(anfds, fdchanges, walked)
      requires fd < |anfds|
      modifies this`anfds, this`fdchanges
      ensures HeadsOk(anfds, started) && AllSynced(anfds, watchers) && Marked(anfds, fdchanges, walked)
      ensures anfds == old(anfds)[fd := Rearmed(old(anfds)[fd])] && old(fdchanges) <= fdchanges
    {
      if anfds[fd].events == {} {
        assert anfds[fd := Rearmed(anfds[fd])] == anfds;
        return;
      }
      RearmedOne(anfds, fdchanges, walked, fd, started, watchers);
      ghost var after := anfds[fd := Rearmed(anfds[fd])];
      anfds := anfds[fd := anfds[fd].(events := {})];
      FdChange(fd, EV_IOFDSET + EV_ANFD_REIFY);
      assert anfds == after;
    }
  }
}
