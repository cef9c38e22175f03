/** What the poll and the select backend make of the same calls of backend_modify. */
module Backends {
  import opened Watchers
  import opened Fds
  import opened Poll
  import opened Select

  const EV_IO: Events := EV_READ + EV_WRITE

  /** Both backends ask the kernel for what they were last told about fd. */
  ghost predicate Agree(p: PollBackend, s: SelectBackend, c: Calls, fd: nat)
    requires p.Valid()
    reads p, s
  {
    p.Interest(fd) == Registered(c, fd) * EV_IO && s.Interest(fd) == Registered(c, fd) * EV_IO
  }

  /** Makes one more call to both. */
  method Tell(p: PollBackend, s: SelectBackend, ghost before: Calls, fd: nat, oev: Events, nev: Events)
    requires p.Valid() && s.Valid() && oev == Registered(before, fd)
    requires forall f: nat :: Agree(p, s, before, f)
    modifies p, s
    ensures p.Valid() && s.Valid() && forall f: nat :: Agree(p, s, Call(before, fd, oev, nev), f)
  {
    assert Agree(p, s, before, fd);
    p.Modify(fd, oev, nev);
    s.Modify(fd, oev, nev);
    forall f: nat ensures Agree(p, s, Call(before, fd, oev, nev), f) {
      assert old(Agree(p, s, before, f));
    }
  }

  /** Makes the calls to new backends. */
  method Replay(c: Calls, p: PollBackend, s: SelectBackend)
    requires Chained(c) && p.Valid() && s.Valid()
    requires forall fd: nat :: p.Interest(fd) == {} && s.Interest(fd) == {}
    modifies p, s
    ensures p.Valid() && s.Valid() && forall fd: nat :: Agree(p, s, c, fd)
    decreases c
  {
    match c
    case None =>
    case Call(before, fd, oev, nev) =>
      Replay(before, p, s);
      Tell(p, s, before, fd, oev, nev);
  }

  /** fd_reify with a backend that kills no descriptor. */
  method ReifyQuietly(t: FdTable)
    requires t.Valid() && t.walked == 0
    modifies t`anfds, t`fdchanges, t`activecnt, t`started, t`walked, t`calls, t.watchers`active
    modifies t.pend`pendings, t.pend`pendingpri, t.pend`history, t.watchers`pending
    ensures t.Valid() && t.started == old(t.started) && t.Now().fates == old(t.Now().fates)
    ensures forall fd | 0 <= fd < |t.anfds| :: Registered(t.calls, fd) == UnionOf(t.anfds[fd].head)
  {
    ghost var was := t.Now().fates;
    t.FdReify(i => []);
    forall v | v in was ensures t.Now().fates[v] == was[v] {
      t.FateOf(was, v);
    }
  }

  /**
   Whatever was started, stopped and killed before: once fd_reify has run with a backend that kills
   no descriptor, as neither of the two does, either one asks the kernel for exactly what the watchers
   of each descriptor want; and no watcher was stopped or touched.
   */
  method ReifyWith(t: FdTable, p: PollBackend, s: SelectBackend)
    requires t.Valid() && t.walked == 0 && p.Valid() && s.Valid()
    requires forall fd: nat :: p.Interest(fd) == {} && s.Interest(fd) == {}
    modifies p, s
    modifies t`anfds, t`fdchanges, t`activecnt, t`started, t`walked, t`calls, t.watchers`active
    modifies t.pend`pendings, t.pend`pendingpri, t.pend`history, t.watchers`pending
    ensures p.Valid() && s.Valid() && t.Valid()
    ensures t.started == old(t.started) && t.Now().fates == old(t.Now().fates)
    ensures forall fd | 0 <= fd < |t.anfds| ::
              p.Interest(fd) == s.Interest(fd) == UnionOf(t.anfds[fd].head) * EV_IO
    ensures forall fd: nat | fd >= |t.anfds| :: p.Interest(fd) == s.Interest(fd) == {}
  {
    ReifyQuietly(t);
    Replay(t.calls, p, s);
    forall fd: nat
      ensures p.Interest(fd) == s.Interest(fd) == if fd < |t.anfds| then UnionOf(t.anfds[fd].head) * EV_IO else {}
    {
      assert Agree(p, s, t.calls, fd);
    }
  }
}
