/** fd_reify, loop_fork and fd_event with the epoll backend: the descriptor table and the kernel together. */
module EpollLoop {
  import opened Watchers
  import opened Pending
  import opened Fds
  import Epoll

  /** Both parts of the table agree, and emask is what epoll was last told for a descriptor with events. */
  ghost predicate Coupled(anfds: seq<Anfd>, efds: seq<Epoll.Efd>, events: seq<Events>) {
    && |anfds| == |efds| == |events|
    && forall fd | 0 <= fd < |anfds| ::
         events[fd] == anfds[fd].events && (events[fd] != {} ==> efds[fd].emask == events[fd])
  }

  /** fd was killed and has yet to be reified. */
  ghost predicate Doomed(a: Anfd) {
    a.head == [] && a.reify != {}
  }

  /**
   If fd has events and was not killed, the kernel watches it for exactly these events, or fd_reify is
   to tell the kernel about it in any case, as it may stand for another file by now.
   */
  ghost predicate InOrder(anfds: seq<Anfd>, efds: seq<Epoll.Efd>, k: Epoll.Kernel, fd: nat)
    requires fd < |anfds| == |efds|
  {
    || anfds[fd].events == {} || Doomed(anfds[fd]) || IOFDSET_BIT in anfds[fd].reify
    || Epoll.Watches(k, fd, efds[fd], anfds[fd].events)
  }

  ghost predicate AllInOrder(anfds: seq<Anfd>, efds: seq<Epoll.Efd>, k: Epoll.Kernel, fds: set<nat>)
    requires |anfds| == |efds|
  {
    forall fd | fd in fds && fd < |anfds| :: InOrder(anfds, efds, k, fd)
  }

  /** Nothing happens to the file behind fd and its entry, and the kernel has memory for another one. */
  ghost predicate Calm(k: Epoll.Kernel, w: Epoll.World, fd: nat) {
    && !k.full && !w.full && fd in k.open && fd in w.open && w.open[fd] == k.open[fd]
    && Epoll.Key(fd, k.open[fd]) !in w.lost
  }

  ghost predicate AlwaysCalm(k: Epoll.Kernel, ws: nat -> Epoll.World, fd: nat) {
    forall i: nat :: Calm(k, ws(i), fd)
  }

  ghost predicate AllCalm(k: Epoll.Kernel, ws: nat -> Epoll.World, fds: set<nat>) {
    forall fd | fd in fds :: AlwaysCalm(k, ws, fd)
  }

  /** epoll_modify kills no descriptor to which nothing happens. */
  lemma CalmNotKilled(k: Epoll.Kernel, e: Epoll.Efd, fd: nat, oev: Events, nev: Events, w: Epoll.World)
    requires Calm(k, w, fd)
    ensures !Epoll.Modified(k, e, fd, oev, nev, w).killed
  {
  }

  /** epoll_modify for one descriptor leaves what the kernel watches for another one alone. */
  lemma OthersStillWatched(k: Epoll.Kernel, e: Epoll.Efd, fd: nat, oev: Events, nev: Events, w: Epoll.World,
                           f: nat, ef: Epoll.Efd, events: Events)
    requires Calm(k, w, f) && f != fd && Epoll.Watches(k, f, ef, events)
    ensures Epoll.Watches(Epoll.Modified(k, e, fd, oev, nev, w).kernel, f, ef, events)
  {
  }

  /** The kernel's open files are those before the call, or those of the world meanwhile. */
  lemma StaysCalm(k: Epoll.Kernel, e: Epoll.Efd, fd: nat, oev: Events, nev: Events, ws: nat -> Epoll.World, i: nat,
                  f: nat)
    requires AlwaysCalm(k, ws, f)
    ensures AlwaysCalm(Epoll.Modified(k, e, fd, oev, nev, ws(i)).kernel, ws, f)
  {
    var after := Epoll.Modified(k, e, fd, oev, nev, ws(i)).kernel;
    assert Calm(k, ws(i), f);
    forall j: nat ensures Calm(after, ws(j), f) {
      assert Calm(k, ws(j), f);
    }
  }

  lemma AllStayCalm(k: Epoll.Kernel, e: Epoll.Efd, fd: nat, oev: Events, nev: Events, ws: nat -> Epoll.World, i: nat,
                    fds: set<nat>)
    requires AllCalm(k, ws, fds)
    ensures AllCalm(Epoll.Modified(k, e, fd, oev, nev, ws(i)).kernel, ws, fds)
  {
    forall f | f in fds ensures AlwaysCalm(Epoll.Modified(k, e, fd, oev, nev, ws(i)).kernel, ws, f) {
      StaysCalm(k, e, fd, oev, nev, ws, i, f);
    }
  }

  /** What epoll_modify for fd, and a kill if it fails, do to what is watched. */
  lemma InOrderNext(was: seq<Anfd>, anfds: seq<Anfd>, k: Epoll.Kernel, efds: seq<Epoll.Efd>, fd: nat, oev: Events,
                    ws: nat -> Epoll.World, i: nat, fds: set<nat>)
    requires fd < |was| == |anfds| == |efds| && Epoll.Tidy(k) && Epoll.Current(k, fd, efds[fd])
    requires AllCalm(k, ws, fds) && AllInOrder(was, efds, k, fds - {fd}) && OnlyFlagged(was, anfds, fd)
    requires Epoll.Modified(k, efds[fd], fd, oev, anfds[fd].events, ws(i)).killed ==> Doomed(anfds[fd])
    ensures
      var after := Epoll.Modified(k, efds[fd], fd, oev, anfds[fd].events, ws(i));
      AllInOrder(anfds, efds[fd := after.efd], after.kernel, fds)
  {
    var nev := anfds[fd].events;
    var after := Epoll.Modified(k, efds[fd], fd, oev, nev, ws(i));
    Epoll.ModifyIsExact(k, efds[fd], fd, oev, nev, ws(i));
    forall f | f in fds && f < |anfds|
      ensures InOrder(anfds, efds[fd := after.efd], after.kernel, f)
    {
      if f != fd && Epoll.Watches(k, f, efds[f], anfds[f].events) {
        assert Calm(k, ws(i), f);
        OthersStillWatched(k, efds[fd], fd, oev, nev, ws(i), f, efds[f], anfds[f].events);
      } else if f != fd {
        assert InOrder(was, efds, k, f) && anfds[f] == was[f];
      }
    }
  }

  ghost predicate CoupledBut(anfds: seq<Anfd>, efds: seq<Epoll.Efd>, events: seq<Events>, fd: nat) {
    && |anfds| == |efds| == |events|
    && forall f | 0 <= f < |anfds| && f != fd ::
         events[f] == anfds[f].events && (events[f] != {} ==> efds[f].emask == events[f])
  }

  lemma CoupledNext(was: seq<Anfd>, anfds: seq<Anfd>, efds: seq<Epoll.Efd>, events: seq<Events>, fd: nat,
                    k: Epoll.Kernel, oev: Events, w: Epoll.World)
    requires CoupledBut(was, efds, events, fd) && OnlyFlagged(was, anfds, fd) && events[fd] == was[fd].events
    ensures
      var after := Epoll.Modified(k, efds[fd], fd, oev, events[fd], w);
      Coupled(anfds, efds[fd := after.efd], events)
  {
    assert events[fd] != {} ==> Epoll.Modified(k, efds[fd], fd, oev, events[fd], w).efd.emask == events[fd];
  }

  /** fd_kill, if epoll_modify asked for it, after some kills. */
  method KillIf(killed: bool, t: FdTable, fd: nat, ghost past: Past)
    requires t.Valid() && fd < |t.anfds| && (killed ==> t.anfds[fd].events != {}) && KillsOnly(past, t.Now())
    modifies t`anfds, t`fdchanges, t`activecnt, t`started, t.watchers`active
    modifies t.pend`pendings, t.pend`pendingpri, t.pend`history, t.watchers`pending
    ensures t.Valid() && OnlyFlagged(old(t.anfds), t.anfds, fd) && KillsOnly(past, t.Now())
    ensures if killed then Doomed(t.anfds[fd]) else t.anfds == old(t.anfds)
    ensures t.started <= old(t.started) && (t.started == old(t.started) ==> t.fdchanges == old(t.fdchanges))
    ensures forall v | v in old(t.started) :: v in t.started <==> !(killed && v.fd == fd)
  {
    if killed {
      forall v | v in t.started ensures v.fd == fd <==> v in t.anfds[fd].head {
        assert Listed(t.anfds, v) && HeadOk(t.anfds[fd].head, fd, t.started);
      }
      ghost var mid := t.Now();
      t.FdKill(fd);
      KilledOn(past, mid, t.Now());
      assert Synced(t.anfds[fd], t.watchers);
    }
  }

  /** Only watchers of other descriptors were stopped. */
  ghost predicate Safe(was: set<Watcher>, started: set<Watcher>, fds: set<nat>)
    reads was`fd
  {
    started <= was && forall v | v in was && v !in started :: v.fd !in fds
  }

  /**
   fd_reify, after some of its work: table and backend agree, nothing but kills was done to watchers,
   and the calm descriptors were spared; those that were in order are so still.
   */
  ghost predicate Midway(t: FdTable, ep: Epoll.EpollBackend, ws: nat -> Epoll.World, past: Past,
                         calm: set<nat>)
    reads t, t.watchers, t.started, t.pend, t.pend.universe, ep, past.started
  {
    && t.Valid() && ep.InStep() && |t.anfds| == |ep.efds| && KillsOnly(past, t.Now())
    && AllCalm(ep.kernel, ws, calm) && Safe(past.started, t.started, calm)
  }

  /** epoll_modify, which asks for no kill of a calm descriptor and keeps calm what was. */
  method ModifyCalm(ep: Epoll.EpollBackend, fd: nat, oev: Events, nev: Events, ws: nat -> Epoll.World, i: nat,
                    ghost calm: set<nat>)
    returns (killed: bool)
    requires ep.InStep() && fd < |ep.efds| && AllCalm(ep.kernel, ws, calm)
    modifies ep`kernel, ep`efds
    ensures ep.InStep() && AllCalm(ep.kernel, ws, calm) && !(killed && fd in calm) && (killed ==> nev != {})
    ensures ep.efds == old(ep.efds)[fd := ep.efds[fd]]
    ensures Epoll.Outcome(ep.kernel, ep.efds[fd], killed)
            == Epoll.Modified(old(ep.kernel), old(ep.efds)[fd], fd, oev, nev, ws(i))
  {
    ghost var k, e := ep.kernel, ep.efds[fd];
    killed := ep.ModifyKept(fd, oev, nev, ws(i));
    if fd in calm {
      assert Calm(k, ws(i), fd);
      CalmNotKilled(k, e, fd, oev, nev, ws(i));
    }
    AllStayCalm(k, e, fd, oev, nev, ws, i, calm);
  }

  /** fd_kill, if epoll_modify asked for it; k and efds are from before the call of epoll_modify. */
  method KillTold(killed: bool, t: FdTable, ep: Epoll.EpollBackend, fd: nat, ghost oev: Events,
                  ghost ws: nat -> Epoll.World, ghost i: nat, ghost k: Epoll.Kernel, ghost efds: seq<Epoll.Efd>,
                  ghost past: Past, ghost calm: set<nat>, ghost good: set<nat>)
    requires Midway(t, ep, ws, past, calm) && CoupledBut(t.anfds, efds, ep.events, fd) && good <= calm
    requires fd < |t.anfds| && ep.events[fd] == t.anfds[fd].events
    requires AllInOrder(t.anfds, efds, k, good - {fd})
    requires Epoll.Tidy(k) && Epoll.Current(k, fd, efds[fd]) && AllCalm(k, ws, good)
    requires !(killed && fd in calm) && (killed ==> t.anfds[fd].events != {}) && ep.efds == efds[fd := ep.efds[fd]]
    requires Epoll.Outcome(ep.kernel, ep.efds[fd], killed)
             == Epoll.Modified(k, efds[fd], fd, oev, t.anfds[fd].events, ws(i))
    modifies t`anfds, t`fdchanges, t`activecnt, t`started, t.watchers`active
    modifies t.pend`pendings, t.pend`pendingpri, t.pend`history, t.watchers`pending
    ensures Midway(t, ep, ws, past, calm) && Coupled(t.anfds, ep.efds, ep.events)
    ensures AllInOrder(t.anfds, ep.efds, ep.kernel, good)
    ensures t.started <= old(t.started) && (t.started == old(t.started) ==> t.fdchanges == old(t.fdchanges))
  {
    ghost var was := t.anfds;
    KillIf(killed, t, fd, past);
    CoupledNext(was, t.anfds, efds, ep.events, fd, k, oev, ws(i));
    InOrderNext(was, t.anfds, k, efds, fd, oev, ws, i, good);
  }

  /** epoll_modify for a descriptor whose events have just been worked out, and fd_kill if it fails. */
  method Tell(t: FdTable, ep: Epoll.EpollBackend, fd: nat, oev: Events, ws: nat -> Epoll.World, i: nat,
              ghost past: Past, ghost calm: set<nat>, ghost good: set<nat>)
    requires Midway(t, ep, ws, past, calm) && CoupledBut(t.anfds, ep.efds, ep.events, fd) && good <= calm
    requires fd < |t.anfds| && ep.events[fd] == t.anfds[fd].events
    requires AllInOrder(t.anfds, ep.efds, ep.kernel, good - {fd})
    modifies t`anfds, t`fdchanges, t`activecnt, t`started, t.watchers`active
    modifies t.pend`pendings, t.pend`pendingpri, t.pend`history, t.watchers`pending
    modifies ep`kernel, ep`efds
    ensures Midway(t, ep, ws, past, calm) && Coupled(t.anfds, ep.efds, ep.events)
    ensures AllInOrder(t.anfds, ep.efds, ep.kernel, good)
    ensures t.started <= old(t.started) && (t.started == old(t.started) ==> t.fdchanges == old(t.fdchanges))
  {
    ghost var k, efds := ep.kernel, ep.efds;
    var killed := ModifyCalm(ep, fd, oev, t.anfds[fd].events, ws, i, calm);
    KillTold(killed, t, ep, fd, oev, ws, i, k, efds, past, calm, good);
  }

  /** The same events are wanted as before, by some watcher if they are not empty, and of the same file. */
  ghost predicate Unchanged(was: Anfd, a: Anfd) {
    && a.events == was.events && a.head == was.head && (a.head == [] ==> a.events == {})
    && IOFDSET_BIT !in was.reify
  }

  lemma SettledCoupled(was: seq<Anfd>, anfds: seq<Anfd>, efds: seq<Epoll.Efd>, events: seq<Events>, fd: nat,
                       k: Epoll.Kernel, good: set<nat>)
    requires Coupled(was, efds, events) && |anfds| == |was| && fd < |was|
    requires (forall f | 0 <= f < |was| && f != fd :: anfds[f] == was[f]) && AllInOrder(was, efds, k, good)
    ensures CoupledBut(anfds, efds, events[fd := anfds[fd].events], fd)
    ensures AllInOrder(anfds, efds, k, good - {fd})
    ensures anfds[fd].events == was[fd].events ==> Coupled(anfds, efds, events)
    ensures Unchanged(was[fd], anfds[fd]) ==> AllInOrder(anfds, efds, k, good)
  {
    forall f | f in good && f < |anfds| && (f != fd || Unchanged(was[fd], anfds[fd]))
      ensures InOrder(anfds, efds, k, f)
    {
      assert InOrder(was, efds, k, f);
    }
  }

  /** What the backend keeps of a descriptor's events. */
  method NoteEvents(ep: Epoll.EpollBackend, fd: nat, events: Events)
    requires ep.InStep() && fd < |ep.events|
    modifies ep`events
    ensures ep.InStep() && ep.events == old(ep.events)[fd := events]
  {
    ep.events := ep.events[fd := events];
  }

  /** The part of fd_reify's loop body before the call of backend_modify. */
  method SettleNext(t: FdTable, ep: Epoll.EpollBackend, fd: nat, ghost ws: nat -> Epoll.World,
                    ghost past: Past, ghost calm: set<nat>, ghost good: set<nat>)
    returns (oev: Events, modified: bool)
    requires Midway(t, ep, ws, past, calm) && Coupled(t.anfds, ep.efds, ep.events)
    requires AllInOrder(t.anfds, ep.efds, ep.kernel, good)
    requires t.walked < |t.fdchanges| && fd == t.fdchanges[t.walked]
    modifies t`anfds, t`walked, t`calls, ep`events
    ensures Midway(t, ep, ws, past, calm) && t.walked == old(t.walked) + 1
    ensures fd < |t.anfds| && CoupledBut(t.anfds, ep.efds, ep.events, fd) && ep.events[fd] == t.anfds[fd].events
    ensures AllInOrder(t.anfds, ep.efds, ep.kernel, good - {fd})
    ensures !modified ==> Coupled(t.anfds, ep.efds, ep.events) && AllInOrder(t.anfds, ep.efds, ep.kernel, good)
  {
    oev := t.anfds[fd].events;
    ghost var was := t.anfds;
    modified := t.Settle(fd);
    SettledCoupled(was, t.anfds, ep.efds, ep.events, fd, ep.kernel, good);
    NoteEvents(ep, fd, t.anfds[fd].events);
  }

  /** One round of fd_reify's loop with the epoll backend. */
  method ReifyEntry(t: FdTable, ep: Epoll.EpollBackend, fd: nat, ws: nat -> Epoll.World, i: nat,
                    ghost past: Past, ghost calm: set<nat>, ghost good: set<nat>)
    requires Midway(t, ep, ws, past, calm) && Coupled(t.anfds, ep.efds, ep.events) && good <= calm
    requires AllInOrder(t.anfds, ep.efds, ep.kernel, good)
    requires t.walked < |t.fdchanges| && fd == t.fdchanges[t.walked]
    modifies t`anfds, t`fdchanges, t`activecnt, t`started, t`walked, t`calls, t.watchers`active
    modifies t.pend`pendings, t.pend`pendingpri, t.pend`history, t.watchers`pending
    modifies ep`kernel, ep`efds, ep`events
    ensures Midway(t, ep, ws, past, calm) && Coupled(t.anfds, ep.efds, ep.events)
    ensures AllInOrder(t.anfds, ep.efds, ep.kernel, good)
    ensures t.walked == old(t.walked) + 1
    ensures t.started <= old(t.started) && (t.started == old(t.started) ==> t.fdchanges == old(t.fdchanges))
  {
    var oev, modified := SettleNext(t, ep, fd, ws, past, calm, good);
    if modified {
      Tell(t, ep, fd, oev, ws, i, past, calm, good);
    }
  }

  /** The kernel watches the good descriptors, and any other for exactly its events if for anything. */
  ghost predicate WatchedOrGone(anfds: seq<Anfd>, efds: seq<Epoll.Efd>, k: Epoll.Kernel, good: set<nat>)
    requires |anfds| == |efds|
  {
    forall fd | 0 <= fd < |anfds| && anfds[fd].events != {} ::
      || Epoll.Watches(k, fd, efds[fd], anfds[fd].events)
      || (fd !in good && Epoll.NoEntry(k, fd))
  }

  /** Once everything is reified, every entry for a descriptor with events is for exactly these. */
  lemma ReifiedIsWatched(anfds: seq<Anfd>, ep: Epoll.EpollBackend, good: set<nat>)
    requires ep.InStep() && Coupled(anfds, ep.efds, ep.events) && AllInOrder(anfds, ep.efds, ep.kernel, good)
    requires forall fd | 0 <= fd < |anfds| :: anfds[fd].reify == {}
    ensures WatchedOrGone(anfds, ep.efds, ep.kernel, good)
  {
    forall fd | 0 <= fd < |anfds| && anfds[fd].events != {} && !Epoll.NoEntry(ep.kernel, fd)
      ensures Epoll.Watches(ep.kernel, fd, ep.efds[fd], anfds[fd].events)
    {
      var key :| key in ep.kernel.entries && key.fd == fd;
      assert Epoll.IsOpen(ep.kernel.open, key) && key == Epoll.Key(fd, ep.kernel.open[fd]);
      assert Epoll.Current(ep.kernel, fd, ep.efds[fd]);
    }
    forall fd | fd in good && fd < |anfds| && anfds[fd].events != {}
      ensures Epoll.Watches(ep.kernel, fd, ep.efds[fd], anfds[fd].events)
    {
      assert InOrder(anfds, ep.efds, ep.kernel, fd);
    }
  }

  lemma StartedInTable(t: FdTable)
    requires t.Valid()
    ensures forall v | v in t.started :: 0 <= v.fd < |t.anfds|
  {
    forall v | v in t.started ensures 0 <= v.fd < |t.anfds| {
      assert Listed(t.anfds, v);
    }
  }

  /** fd_reify's loop with the epoll backend. */
  method ReifyChanges(t: FdTable, ep: Epoll.EpollBackend, ws: nat -> Epoll.World,
                      ghost calm: set<nat>, ghost good: set<nat>)
    requires t.Valid() && ep.InStep() && Coupled(t.anfds, ep.efds, ep.events) && t.walked == 0
    requires AllCalm(ep.kernel, ws, calm) && good <= calm && AllInOrder(t.anfds, ep.efds, ep.kernel, good)
    modifies t`anfds, t`fdchanges, t`activecnt, t`started, t`walked, t`calls, t.watchers`active
    modifies t.pend`pendings, t.pend`pendingpri, t.pend`history, t.watchers`pending
    modifies ep`kernel, ep`efds, ep`events
    ensures Midway(t, ep, ws, old(t.Now()), calm) && Coupled(t.anfds, ep.efds, ep.events)
    ensures AllInOrder(t.anfds, ep.efds, ep.kernel, good) && t.walked == |t.fdchanges|
  {
    ghost var past := t.Now();
    var i := 0;
    while i < |t.fdchanges|
      invariant Midway(t, ep, ws, past, calm) && Coupled(t.anfds, ep.efds, ep.events) && t.walked == i
      invariant AllInOrder(t.anfds, ep.efds, ep.kernel, good)
      decreases t.started, |t.fdchanges| - i
    {
      ReifyEntry(t, ep, t.fdchanges[i], ws, i, past, calm, good);
      i := i + 1;
    }
  }

  /** fd_reify with the epoll backend, of which the good descriptors are in order and calm. */
  method ReifyAll(t: FdTable, ep: Epoll.EpollBackend, ws: nat -> Epoll.World,
                  ghost calm: set<nat>, ghost good: set<nat>)
    requires t.Valid() && ep.InStep() && Coupled(t.anfds, ep.efds, ep.events) && t.walked == 0
    requires AllCalm(ep.kernel, ws, calm) && good <= calm && AllInOrder(t.anfds, ep.efds, ep.kernel, good)
    modifies t`anfds, t`fdchanges, t`activecnt, t`started, t`walked, t`calls, t.watchers`active
    modifies t.pend`pendings, t.pend`pendingpri, t.pend`history, t.watchers`pending
    modifies ep`kernel, ep`efds, ep`events
    ensures t.Valid() && ep.InStep() && Coupled(t.anfds, ep.efds, ep.events) && t.walked == 0 && t.fdchanges == []
    ensures |t.anfds| == |old(t.anfds)| && t.activecnt - |t.started| == old(t.activecnt - |t.started|)
    ensures OnlyKilled(old(t.Now().fates), t.Now().fates) && Safe(old(t.started), t.started, calm)
    ensures forall fd | 0 <= fd < |t.anfds| ::
              t.anfds[fd].reify == {} && t.anfds[fd].events == UnionOf(t.anfds[fd].head)
    ensures WatchedOrGone(t.anfds, ep.efds, ep.kernel, good)
  {
    ReifyChanges(t, ep, ws, calm, good);
    t.FinishReify();
    ReifiedIsWatched(t.anfds, ep, good);
  }

  /**
   fd_reify with the epoll backend, which may kill descriptors; ws is what happens meanwhile. Only
   watchers of descriptors to which something happened were stopped, and are pending with an error;
   no other watcher was touched. For every descriptor with started watchers the kernel then watches
   for exactly the or of their masks or has no entry; and it watches for it if nothing happened to
   the descriptor and it was in order before, as it is whenever a watcher set anew was started for it.
   */
  method FdReify(t: FdTable, ep: Epoll.EpollBackend, ws: nat -> Epoll.World)
    requires t.Valid() && ep.InStep() && Coupled(t.anfds, ep.efds, ep.events) && t.walked == 0
    modifies t`anfds, t`fdchanges, t`activecnt, t`started, t`walked, t`calls, t.watchers`active
    modifies t.pend`pendings, t.pend`pendingpri, t.pend`history, t.watchers`pending
    modifies ep`kernel, ep`efds, ep`events
    ensures t.Valid() && ep.InStep() && Coupled(t.anfds, ep.efds, ep.events) && t.walked == 0 && t.fdchanges == []
    ensures |t.anfds| == |old(t.anfds)| && t.activecnt - |t.started| == old(t.activecnt - |t.started|)
    ensures OnlyKilled(old(t.Now().fates), t.Now().fates) && t.started <= old(t.started)
    ensures forall v | v in old(t.started) && v !in t.started ::
              0 <= v.fd < |t.anfds| && !old(AlwaysCalm(ep.kernel, ws, v.fd))
    ensures forall fd | 0 <= fd < |t.anfds| ::
              t.anfds[fd].reify == {} && t.anfds[fd].events == UnionOf(t.anfds[fd].head)
    ensures forall fd | 0 <= fd < |t.anfds| && t.anfds[fd].events != {} ::
              if old(AlwaysCalm(ep.kernel, ws, fd) && InOrder(t.anfds, ep.efds, ep.kernel, fd)) then
                Epoll.Watches(ep.kernel, fd, ep.efds[fd], t.anfds[fd].events)
              else
                Epoll.Watches(ep.kernel, fd, ep.efds[fd], t.anfds[fd].events) || Epoll.NoEntry(ep.kernel, fd)
  {
    ghost var calm := set fd | 0 <= fd < |t.anfds| && AlwaysCalm(ep.kernel, ws, fd);
    ghost var good := set fd | fd in calm && InOrder(t.anfds, ep.efds, ep.kernel, fd);
    StartedInTable(t);
    ReifyAll(t, ep, ws, calm, good);
  }

  /** ev_io_stop, which tells the backend nothing. */
  method IoStop(t: FdTable, ep: Epoll.EpollBackend, w: Watcher)
    requires t.Valid() && w in t.watchers && Coupled(t.anfds, ep.efds, ep.events)
    modifies t`anfds, t`fdchanges, t`activecnt, t`started, w`active
    modifies t.pend`pendings, t.pend`history, w`pending
    ensures t.Valid() && w.active == 0 && t.started == old(t.started) - {w}
    ensures Coupled(t.anfds, ep.efds, ep.events)
  {
    t.IoStop(w);
  }

  /** The part of array_needsize for the backend's fields of the table. */
  method GrowBackend(ep: Epoll.EpollBackend, ghost was: seq<Anfd>, anfds: seq<Anfd>)
    requires ep.InStep() && Coupled(was, ep.efds, ep.events) && |was| <= |anfds|
    requires forall fd | 0 <= fd < |anfds| :: anfds[fd].events == At(was, fd).events
    modifies ep`efds, ep`events
    ensures ep.InStep() && Coupled(anfds, ep.efds, ep.events)
  {
    ep.Grow(|anfds| - |ep.efds|);
  }

  /** ev_io_start, with which the table may grow; a watcher that was set since it was last started is new. */
  method IoStart(t: FdTable, ep: Epoll.EpollBackend, w: Watcher)
    requires t.Valid() && ep.InStep() && Coupled(t.anfds, ep.efds, ep.events)
    requires w in t.watchers && (w.active == 0 ==> w.fd >= 0 && w.events <= EV_IOFDSET + EV_READ + EV_WRITE)
    modifies t`anfds, t`fdchanges, t`activecnt, t`started, w`active, w`events
    modifies ep`efds, ep`events
    ensures t.Valid() && ep.InStep() && Coupled(t.anfds, ep.efds, ep.events) && t.started == old(t.started) + {w}
    ensures w.events == if w in old(t.started) then old(w.events) else old(w.events) - EV_IOFDSET
    ensures w !in old(t.started) && IOFDSET_BIT in old(w.events) ==>
              0 <= w.fd < |t.anfds| && InOrder(t.anfds, ep.efds, ep.kernel, w.fd)
  {
    ghost var was := t.anfds;
    t.IoStart(w);
    forall fd | 0 <= fd < |t.anfds| ensures t.anfds[fd].events == At(was, fd).events {
      assert At(t.anfds, fd) == t.anfds[fd];
    }
    GrowBackend(ep, was, t.anfds);
  }

  lemma WantedIsInUnion(t: FdTable, w: Watcher)
    requires t.Valid() && w in t.started && forall fd | 0 <= fd < |t.anfds| :: t.anfds[fd].reify == {}
    ensures 0 <= w.fd < |t.anfds| && w.events <= t.anfds[w.fd].events == UnionOf(t.anfds[w.fd].head)
  {
    assert Listed(t.anfds, w) && Synced(t.anfds[w.fd], t.watchers);
    forall bit | bit in w.events ensures bit in t.anfds[w.fd].events {
      UnionMeans(t.anfds[w.fd].head, bit);
    }
  }

  /** ev_io_stop, w happens to the kernel, ev_io_set and ev_io_start. */
  method Restart(t: FdTable, ep: Epoll.EpollBackend, w: Watcher, fd: nat, events: Events, between: Epoll.World)
    requires t.Valid() && ep.InStep() && Coupled(t.anfds, ep.efds, ep.events)
    requires w in t.watchers && events <= EV_READ + EV_WRITE
    modifies t`anfds, t`fdchanges, t`activecnt, t`started, w`active, w`fd, w`events
    modifies t.pend`pendings, t.pend`history, w`pending
    modifies ep`kernel, ep`efds, ep`events
    ensures t.Valid() && ep.InStep() && Coupled(t.anfds, ep.efds, ep.events)
    ensures w in t.started && w.fd == fd && w.events == events
    ensures ep.kernel == Epoll.Evolve(old(ep.kernel), between)
    ensures fd < |t.anfds| && InOrder(t.anfds, ep.efds, ep.kernel, fd)
  {
    IoStop(t, ep, w);
    ep.Meanwhile(between);
    t.IoSet(w, fd, events);
    assert IOFDSET_BIT in w.events && w.events - EV_IOFDSET == events;
    IoStart(t, ep, w);
  }

  /**
   Changing the file of a watcher: it is stopped, the descriptor closed and perhaps reopened, for the
   same number or another, and the watcher is set and started again. Whatever the kernel watched for
   before, the next fd_reify makes it watch the new file for exactly the or of the descriptor's masks.
   */
  method SwitchFile(t: FdTable, ep: Epoll.EpollBackend, w: Watcher, fd: nat, events: Events,
                    between: Epoll.World, ws: nat -> Epoll.World)
    requires t.Valid() && ep.InStep() && Coupled(t.anfds, ep.efds, ep.events) && t.walked == 0
    requires w in t.watchers && events <= EV_READ + EV_WRITE
    modifies t`anfds, t`fdchanges, t`activecnt, t`started, t`walked, t`calls
    modifies t.watchers`active, w`fd, w`events
    modifies t.pend`pendings, t.pend`pendingpri, t.pend`history, t.watchers`pending
    modifies ep`kernel, ep`efds, ep`events
    ensures t.Valid() && ep.InStep() && Coupled(t.anfds, ep.efds, ep.events) && w.fd == fd && w.events == events
    ensures AlwaysCalm(Epoll.Evolve(old(ep.kernel), between), ws, fd) ==>
              && w in t.started && fd < |t.anfds| && events <= t.anfds[fd].events == UnionOf(t.anfds[fd].head)
              && (t.anfds[fd].events != {} ==> Epoll.Watches(ep.kernel, fd, ep.efds[fd], t.anfds[fd].events))
  {
    Restart(t, ep, w, fd, events, between);
    FdReify(t, ep, ws);
    if w in t.started {
      WantedIsInUnion(t, w);
    }
  }

  // ----- from the kernel to the watchers -----

  /** The report is for a descriptor that did not change since, and w is one of its watchers. */
  ghost predicate Concerns(anfds: seq<Anfd>, r: Epoll.Report, w: Watcher) {
    r.fd < |anfds| && anfds[r.fd].reify == {} && w in anfds[r.fd].head
  }

  /** Some report of this event concerns w, which is interested in it. */
  ghost predicate Hears(anfds: seq<Anfd>, reports: seq<Epoll.Report>, w: Watcher, bit: nat)
    reads w`events
  {
    bit in w.events && exists i :: 0 <= i < |reports| && Concerns(anfds, reports[i], w) && bit in reports[i].got
  }

  /** The reports were passed on: each watcher got the events that it wants and were reported, and no other. */
  ghost predicate PassedOn(anfds: seq<Anfd>, was: map<Watcher, Fate>, here: map<Watcher, Fate>,
                           reports: seq<Epoll.Report>)
    reads was.Keys`events
  {
    && was.Keys == here.Keys
    && forall w, bit: nat {:trigger Hears(anfds, reports, w, bit)} | w in was ::
         bit in here[w].bits <==> bit in was[w].bits || Hears(anfds, reports, w, bit)
  }

  lemma PassedOnOne(anfds: seq<Anfd>, was: map<Watcher, Fate>, mid: map<Watcher, Fate>, here: map<Watcher, Fate>,
                    done: seq<Epoll.Report>, r: Epoll.Report, head: seq<Watcher>)
    requires PassedOn(anfds, was, mid, done) && r.fd < |anfds|
    requires head == if anfds[r.fd].reify == {} then anfds[r.fd].head else []
    requires mid.Keys == here.Keys && forall w | w in mid ::
               here[w].bits == if w in head then mid[w].bits + w.events * r.got else mid[w].bits
    ensures PassedOn(anfds, was, here, done + [r])
  {
    var all := done + [r];
    forall w, bit: nat | w in was
      ensures bit in here[w].bits <==> bit in was[w].bits || Hears(anfds, all, w, bit)
    {
      assert bit in mid[w].bits <==> bit in was[w].bits || Hears(anfds, done, w, bit);
      if Hears(anfds, done, w, bit) {
        var i :| 0 <= i < |done| && Concerns(anfds, done[i], w) && bit in done[i].got;
        assert all[i] == done[i];
      }
      if w in head && bit in w.events && bit in r.got {
        assert all[|done|] == r && Concerns(anfds, r, w);
      }
      if Hears(anfds, all, w, bit) {
        var i :| 0 <= i < |all| && Concerns(anfds, all[i], w) && bit in all[i].got;
        assert all[i] == if i < |done| then done[i] else r;
      }
    }
  }

  /** fd_event, for all that epoll_poll reports. */
  method PassOn(t: FdTable, reports: seq<Epoll.Report>)
    requires t.Valid() && forall r | r in reports :: r.fd < |t.anfds|
    modifies t.pend`pendings, t.pend`pendingpri, t.pend`history, t.watchers`pending
    ensures t.Valid() && PassedOn(t.anfds, old(t.Now().fates), t.Now().fates, reports)
  {
    ghost var was := t.Now().fates;
    for k := 0 to |reports|
      invariant t.Valid() && PassedOn(t.anfds, was, t.Now().fates, reports[..k])
    {
      Prefixes(reports, k);
      PassOnOne(t, reports[k], was, reports[..k]);
    }
    Whole(reports);
  }

  method PassOnOne(t: FdTable, r: Epoll.Report, ghost was: map<Watcher, Fate>, ghost done: seq<Epoll.Report>)
    requires t.Valid() && r.fd < |t.anfds| && PassedOn(t.anfds, was, t.Now().fates, done)
    modifies t.pend`pendings, t.pend`pendingpri, t.pend`history, t.watchers`pending
    ensures t.Valid() && PassedOn(t.anfds, was, t.Now().fates, done + [r])
  {
    ghost var mid := t.Now().fates;
    ghost var head := if t.anfds[r.fd].reify == {} then t.anfds[r.fd].head else [];
    t.FdEvent(r.fd, r.got);
    PassedOnOne(t.anfds, was, mid, t.Now().fates, done, r, head);
  }

  /** An event of the descriptor's current generation tells a watcher of what it is interested in. */
  ghost predicate Tells(anfds: seq<Anfd>, ev: Epoll.Event, gens: seq<nat>, w: Watcher, bit: nat)
    requires Epoll.InTime(ev, gens)
    reads w`events
  {
    !Epoll.IsStale(ev, gens) && Concerns(anfds, Epoll.ReportOf(ev), w) && bit in w.events && bit in ev.got
  }

  ghost predicate Told(anfds: seq<Anfd>, evs: seq<Epoll.Event>, gens: seq<nat>, w: Watcher, bit: nat)
    requires Epoll.Aged(evs, gens)
    reads w`events
  {
    exists i :: 0 <= i < |evs| && Tells(anfds, evs[i], gens, w, bit)
  }

  /** What is heard was told by a current event. */
  lemma HeardIsTold(anfds: seq<Anfd>, evs: seq<Epoll.Event>, gens: seq<nat>, events: seq<Events>,
                    reports: seq<Epoll.Report>, missed: bool, w: Watcher, bit: nat)
    requires Epoll.Accounted(evs, gens, events, reports, missed) && Hears(anfds, reports, w, bit)
    ensures Told(anfds, evs, gens, w, bit)
  {
    var i :| 0 <= i < |reports| && Concerns(anfds, reports[i], w) && bit in reports[i].got;
    assert reports[i] in reports && Epoll.OfCurrent(reports[i], evs, gens);
    var j :| 0 <= j < |evs| && !Epoll.IsStale(evs[j], gens) && reports[i] == Epoll.ReportOf(evs[j]);
    assert Tells(anfds, evs[j], gens, w, bit);
  }

  /** What a current event tells is heard, if it tells of nothing but what is wanted. */
  lemma PlainIsHeard(anfds: seq<Anfd>, evs: seq<Epoll.Event>, gens: seq<nat>, events: seq<Events>,
                     reports: seq<Epoll.Report>, missed: bool, j: nat, w: Watcher, bit: nat)
    requires Epoll.Accounted(evs, gens, events, reports, missed)
    requires j < |evs| && Tells(anfds, evs[j], gens, w, bit) && Epoll.Plain(evs[j], events)
    ensures Hears(anfds, reports, w, bit)
  {
    var i :| 0 <= i < |reports| && reports[i] == Epoll.ReportOf(evs[j]);
    assert Concerns(anfds, reports[i], w);
  }

  /**
   epoll_poll and the calls of fd_event for what it reports. A watcher gets an event that it is
   interested in only if an event of its descriptor's current generation tells of it and the
   descriptor did not change since; and it does get it if that event tells of nothing unwanted.
   Whoever has got events is pending.
   */
  method Dispatch(t: FdTable, ep: Epoll.EpollBackend, evs: seq<Epoll.Event>, ws: seq<Epoll.World>,
                  ghost gens: seq<nat>)
    requires t.Valid() && ep.NotAhead() && ep.Generations(gens) && |gens| == |t.anfds|
    requires Epoll.Aged(evs, gens) && |ws| == |evs|
    modifies t.pend`pendings, t.pend`pendingpri, t.pend`history, t.watchers`pending
    modifies ep`kernel, ep`efds, ep`postfork
    ensures t.Valid() && ep.NotAhead() && ep.Generations(gens)
    ensures forall w, bit: nat {:trigger Told(t.anfds, evs, gens, w, bit)} | w in t.pend.universe ::
              bit in BitsSince(t.pend.history, w) ==>
                bit in old(BitsSince(t.pend.history, w)) || Told(t.anfds, evs, gens, w, bit)
    ensures forall i, w, bit: nat {:trigger Tells(t.anfds, evs[i], gens, w, bit)} |
              0 <= i < |evs| && w in t.pend.universe && Epoll.Plain(evs[i], ep.events) ::
              Tells(t.anfds, evs[i], gens, w, bit) ==> bit in BitsSince(t.pend.history, w)
    ensures forall w | w in t.pend.universe && BitsSince(t.pend.history, w) != {} :: w.pending > 0
  {
    ghost var was := t.Now().fates;
    var reports, missed := ep.Poll(evs, ws, gens);
    forall r | r in reports ensures r.fd < |t.anfds| {
      assert Epoll.OfCurrent(r, evs, gens);
    }
    PassOn(t, reports);
    Delivered(t, was, evs, gens, ep.events, reports, missed);
  }

  lemma Delivered(t: FdTable, was: map<Watcher, Fate>, evs: seq<Epoll.Event>, gens: seq<nat>, events: seq<Events>,
                  reports: seq<Epoll.Report>, missed: bool)
    requires t.Valid() && Epoll.Accounted(evs, gens, events, reports, missed)
    requires PassedOn(t.anfds, was, t.Now().fates, reports)
    ensures forall w, bit: nat {:trigger Told(t.anfds, evs, gens, w, bit)} | w in t.pend.universe ::
              bit in BitsSince(t.pend.history, w) ==> bit in was[w].bits || Told(t.anfds, evs, gens, w, bit)
    ensures forall i, w, bit: nat {:trigger Tells(t.anfds, evs[i], gens, w, bit)} |
              0 <= i < |evs| && w in t.pend.universe && Epoll.Plain(evs[i], events) ::
              Tells(t.anfds, evs[i], gens, w, bit) ==> bit in BitsSince(t.pend.history, w)
    ensures forall w | w in t.pend.universe && BitsSince(t.pend.history, w) != {} :: w.pending > 0
  {
    forall w, bit: nat | w in t.pend.universe && bit in BitsSince(t.pend.history, w)
      ensures bit in was[w].bits || Told(t.anfds, evs, gens, w, bit)
    {
      assert bit in t.Now().fates[w].bits;
      if Hears(t.anfds, reports, w, bit) {
        HeardIsTold(t.anfds, evs, gens, events, reports, missed, w, bit);
      }
    }
    forall i, w, bit: nat | 0 <= i < |evs| && w in t.pend.universe && Epoll.Plain(evs[i], events)
                            && Tells(t.anfds, evs[i], gens, w, bit)
      ensures bit in BitsSince(t.pend.history, w)
    {
      PlainIsHeard(t.anfds, evs, gens, events, reports, missed, i, w, bit);
      assert bit in t.Now().fates[w].bits;
    }
    forall w | w in t.pend.universe && BitsSince(t.pend.history, w) != {} ensures w.pending > 0 {
      if w.pending == 0 { t.pend.IdleHasNoBits(w); }
    }
  }

  /**
   The part of loop_fork for epoll: a new, empty epoll set, and every descriptor with events is to
   be reified. The two parts of the table agree, so that fd_reify will tell the kernel everything again.
   */
  method Fork(t: FdTable, ep: Epoll.EpollBackend)
    requires t.Valid() && |t.anfds| == |ep.efds| == |ep.events| && !ep.kernel.shared
    modifies t`anfds, t`fdchanges, t`calls, ep
    ensures t.Valid() && ep.InStep() && Coupled(t.anfds, ep.efds, ep.events)
    ensures ep.kernel == old(ep.kernel).(entries := map[])
    ensures forall fd | 0 <= fd < |t.anfds| :: InOrder(t.anfds, ep.efds, ep.kernel, fd)
    ensures |t.anfds| == |old(t.anfds)| && forall fd | 0 <= fd < |t.anfds| :: t.anfds[fd] == Rearmed(old(t.anfds)[fd])
  {
    ep.Fork();
    t.RearmAll();
  }

  /** After a fork: the new process has its own epoll set, in which the next fd_reify puts everything again. */
  method ForkAndReify(t: FdTable, ep: Epoll.EpollBackend, ws: nat -> Epoll.World)
    requires t.Valid() && |t.anfds| == |ep.efds| == |ep.events| && !ep.kernel.shared && t.walked == 0
    modifies t`anfds, t`fdchanges, t`activecnt, t`started, t`walked, t`calls, t.watchers`active
    modifies t.pend`pendings, t.pend`pendingpri, t.pend`history, t.watchers`pending
    modifies ep
    ensures t.Valid() && ep.InStep() && Coupled(t.anfds, ep.efds, ep.events) && |t.anfds| == |old(t.anfds)|
    ensures forall fd | 0 <= fd < |t.anfds| && AlwaysCalm(old(ep.kernel).(entries := map[]), ws, fd) ::
              && t.anfds[fd].events == UnionOf(t.anfds[fd].head)
              && (t.anfds[fd].events != {} ==> Epoll.Watches(ep.kernel, fd, ep.efds[fd], t.anfds[fd].events))
    ensures forall v | v in old(t.started) && v !in t.started ::
              0 <= v.fd < |t.anfds| && !AlwaysCalm(old(ep.kernel).(entries := map[]), ws, v.fd)
  {
    Fork(t, ep);
    FdReify(t, ep, ws);
  }
}
