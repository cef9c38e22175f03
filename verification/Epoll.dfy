/**
 The epoll backend. It keeps for every descriptor what it last told the kernel, skips removals,
 and is never told when a descriptor is closed. The kernel keeps its entries by descriptor number
 and open file; a file can outlive the closing of a descriptor if it was duplicated or inherited.
 Descriptors that epoll does not support (EPERM) are not modelled.
 */
module Epoll {
  import opened Watchers

  const GENERATIONS: nat := 0x1_0000_0000  // the generation is kept in 32 bits

  datatype Errno = Ok | ENOENT | EEXIST | EBADF | ENOMEM
  datatype Op = ADD | MOD | DEL

  /** A descriptor number and an open file. */
  datatype Key = Key(fd: nat, file: nat)

  /** What the kernel was told for a key: a mask, and the generation it was told with. */
  datatype Entry = Entry(mask: Events, born: nat)

  datatype Kernel = Kernel(
    open: map<nat, nat>,       // the files behind the open descriptors
    entries: map<Key, Entry>,
    full: bool,                // no memory for further entries
    shared: bool)              // files may outlive their descriptors

  datatype Reply = Reply(kernel: Kernel, errno: Errno)

  /** epoll_ctl */
  function Ctl(k: Kernel, op: Op, fd: nat, mask: Events, born: nat): Reply {
    if fd !in k.open then Reply(k, EBADF)
    else
      var key := Key(fd, k.open[fd]);
      match op
      case ADD =>
        if key in k.entries then Reply(k, EEXIST)
        else if k.full then Reply(k, ENOMEM)
        else Reply(k.(entries := k.entries[key := Entry(mask, born)]), Ok)
      case MOD =>
        if key !in k.entries then Reply(k, ENOENT)
        else Reply(k.(entries := k.entries[key := Entry(mask, born)]), Ok)
      case DEL =>
        if key !in k.entries then Reply(k, ENOENT)
        else Reply(k.(entries := k.entries - {key}), Ok)
  }

  /** What others did meanwhile: opened and closed descriptors and thereby lost entries. */
  datatype World = World(open: map<nat, nat>, lost: set<Key>, full: bool)

  /** The key is for the file that is open under its descriptor. */
  predicate IsOpen(open: map<nat, nat>, key: Key) {
    key.fd in open && open[key.fd] == key.file
  }

  function Evolve(k: Kernel, w: World): Kernel {
    k.(open := w.open, full := w.full,
       entries := map key | key in k.entries && key !in w.lost && (k.shared || IsOpen(w.open, key)) :: k.entries[key])
  }

  /** The epoll fields of an ANFD. */
  datatype Efd = Efd(emask: Events, egen: nat)

  datatype Outcome = Outcome(kernel: Kernel, efd: Efd, killed: bool)

  /** The second call of epoll_ctl that epoll_modify makes. */
  function Retried(k: Kernel, op: Op, e: Efd, fd: nat, nev: Events): Outcome {
    var second := Ctl(k, op, fd, nev, e.egen + 1);
    if second.errno == Ok then Outcome(second.kernel, Efd(nev, e.egen + 1), false)
    else Outcome(second.kernel, Efd(nev, e.egen), true)
  }

  function FirstOp(e: Efd, oev: Events, nev: Events): Op {
    if oev != {} && e.emask != nev then MOD else ADD
  }

  /** What epoll_modify does; w happens between its first and its second call of epoll_ctl. */
  function Modified(k: Kernel, e: Efd, fd: nat, oev: Events, nev: Events, w: World): Outcome {
    if nev == {} then Outcome(k, e, false)
    else
      var first := Ctl(k, FirstOp(e, oev, nev), fd, nev, e.egen + 1);
      match first.errno
      case Ok => Outcome(first.kernel, Efd(nev, e.egen + 1), false)
      case ENOENT => Retried(Evolve(first.kernel, w), ADD, e, fd, nev)
      case EEXIST =>
        if e.emask == nev then Outcome(first.kernel, Efd(nev, e.egen), false)
        else Retried(Evolve(first.kernel, w), MOD, e, fd, nev)
      case _ => Outcome(first.kernel, Efd(nev, e.egen), true)
  }

  /** The kernel watches the file behind fd for exactly these events, under fd's current generation. */
  ghost predicate Watches(k: Kernel, fd: nat, e: Efd, events: Events) {
    && fd in k.open && Key(fd, k.open[fd]) in k.entries
    && k.entries[Key(fd, k.open[fd])] == Entry(events, e.egen)
  }

  /** Whatever entries the kernel has for fd are what it was last told. */
  ghost predicate Current(k: Kernel, fd: nat, e: Efd) {
    forall key | key in k.entries && key.fd == fd :: k.entries[key] == Entry(e.emask, e.egen)
  }

  /** No entry outlives its descriptor. */
  ghost predicate Tidy(k: Kernel) {
    !k.shared && forall key | key in k.entries :: IsOpen(k.open, key)
  }

  ghost predicate NoEntry(k: Kernel, fd: nat) {
    forall key | key in k.entries :: key.fd != fd
  }

  /** Other descriptors' entries can only be lost. */
  ghost predicate OthersKept(k: Kernel, after: Kernel, fd: nat) {
    forall key | key in after.entries && key.fd != fd :: key in k.entries && after.entries[key] == k.entries[key]
  }

  /** In a tidy kernel a call for fd that succeeds gives fd its only entry, and one that fails changes nothing. */
  lemma CtlTidy(k: Kernel, op: Op, fd: nat, mask: Events, born: nat)
    requires Tidy(k)
    ensures
      var r := Ctl(k, op, fd, mask, born);
      && Tidy(r.kernel) && OthersKept(k, r.kernel, fd)
      && (r.errno == Ok && op != DEL ==>
            Current(r.kernel, fd, Efd(mask, born)) && Watches(r.kernel, fd, Efd(mask, born), mask))
      && (r.errno == Ok && op == DEL ==> NoEntry(r.kernel, fd))
      && (r.errno != Ok ==> r.kernel == k)
      && (r.errno != Ok && r.errno != EEXIST ==> NoEntry(k, fd))
  {
  }

  lemma EvolveTidy(k: Kernel, w: World, fd: nat)
    requires Tidy(k)
    ensures Tidy(Evolve(k, w)) && OthersKept(k, Evolve(k, w), fd) && (NoEntry(k, fd) ==> NoEntry(Evolve(k, w), fd))
  {
  }

  lemma ThenKept(k: Kernel, m: Kernel, after: Kernel, fd: nat)
    requires OthersKept(k, m, fd) && OthersKept(m, after, fd)
    ensures OthersKept(k, after, fd)
  {
  }

  /** The promise of epoll_modify for a mask that is not empty, where no file outlives its descriptor. */
  ghost predicate Exact(k: Kernel, fd: nat, nev: Events, after: Outcome) {
    && Tidy(after.kernel) && Current(after.kernel, fd, after.efd) && OthersKept(k, after.kernel, fd)
    && if after.killed then NoEntry(after.kernel, fd) else Watches(after.kernel, fd, after.efd, nev)
  }

  lemma RetryIsExact(k: Kernel, w: World, op: Op, e: Efd, fd: nat, nev: Events)
    requires Tidy(k) && op != DEL && (op == ADD ==> NoEntry(k, fd))
    ensures Exact(k, fd, nev, Retried(Evolve(k, w), op, e, fd, nev))
  {
    var k2 := Evolve(k, w);
    EvolveTidy(k, w, fd);
    CtlTidy(k2, op, fd, nev, e.egen + 1);
    ThenKept(k, k2, Ctl(k2, op, fd, nev, e.egen + 1).kernel, fd);
  }

  /**
   If no file outlives its descriptor, epoll_modify keeps all entries current, whatever is closed
   or reopened and when; and for a non-empty mask it either leaves the kernel watching for exactly
   this mask, or kills a descriptor for which the kernel has no entry.
   */
  lemma ModifyIsExact(k: Kernel, e: Efd, fd: nat, oev: Events, nev: Events, w: World)
    requires Tidy(k) && Current(k, fd, e)
    ensures
      var after := Modified(k, e, fd, oev, nev, w);
      if nev == {} then after == Outcome(k, e, false) else Exact(k, fd, nev, after)
  {
    if nev != {} {
      var op := FirstOp(e, oev, nev);
      CtlTidy(k, op, fd, nev, e.egen + 1);
      match Ctl(k, op, fd, nev, e.egen + 1).errno
      case ENOENT => RetryIsExact(k, w, ADD, e, fd, nev);
      case EEXIST =>
        if e.emask != nev {
          RetryIsExact(k, w, MOD, e, fd, nev);
        } else {
          assert fd in k.open && Key(fd, k.open[fd]) in k.entries;
        }
      case _ =>
    }
  }

  /**
   In general epoll_modify without a kill leaves the kernel watching for the new mask if and only
   if it did not take a stale entry for a current one: if the mask it last told is the new one,
   then an entry that the kernel has for the file must be of that mask and generation.
   */
  lemma ModifyIsExactUnlessStale(k: Kernel, e: Efd, fd: nat, oev: Events, nev: Events, w: World)
    requires nev != {} && !Modified(k, e, fd, oev, nev, w).killed
    ensures
      var after := Modified(k, e, fd, oev, nev, w);
      Watches(after.kernel, fd, after.efd, nev)
      <==> (e.emask == nev && fd in k.open && Key(fd, k.open[fd]) in k.entries ==> Watches(k, fd, e, nev))
  {
  }

  /**
   A file that comes back under a descriptor after another one can lose interest: file 1 is watched
   for reading, file 2 takes its descriptor and is watched for writing, file 1 returns and shall be
   watched for writing; the kernel goes on watching it for reading only.
   */
  lemma ReturningFileIsNotWatched(fd: nat)
    ensures
      var quiet := (file: nat) => World(map[fd := file], {}, false);
      var k0 := Kernel(map[fd := 1], map[], false, true);
      var a := Modified(k0, Efd({}, 0), fd, {}, EV_READ, quiet(1));
      var b := Modified(Evolve(a.kernel, quiet(2)), a.efd, fd, {}, EV_WRITE, quiet(2));
      var c := Modified(Evolve(b.kernel, quiet(1)), b.efd, fd, {}, EV_WRITE, quiet(1));
      && !a.killed && !b.killed && !c.killed
      && Watches(a.kernel, fd, a.efd, EV_READ) && Watches(b.kernel, fd, b.efd, EV_WRITE)
      && c.kernel.open[fd] == 1 && c.kernel.entries[Key(fd, 1)] == Entry(EV_READ, 1)
      && !Watches(c.kernel, fd, c.efd, EV_WRITE)
  {
    var quiet := (file: nat) => World(map[fd := file], {}, false);
    var k0 := Kernel(map[fd := 1], map[], false, true);
    var a := Modified(k0, Efd({}, 0), fd, {}, EV_READ, quiet(1));
    assert a.kernel.entries == map[Key(fd, 1) := Entry(EV_READ, 1)];
    var b := Modified(Evolve(a.kernel, quiet(2)), a.efd, fd, {}, EV_WRITE, quiet(2));
    assert 0 in EV_READ && 0 !in EV_WRITE;
    assert b.kernel.entries[Key(fd, 1)] == Entry(EV_READ, 1);
    assert b.kernel.entries[Key(fd, 2)] == Entry(EV_WRITE, 2);
  }

  /** Each entry is an old one, or one for fd of no later generation than given. */
  ghost predicate OldOrUpTo(k: Kernel, after: Kernel, fd: nat, egen: nat) {
    forall key | key in after.entries ::
      (key in k.entries && after.entries[key] == k.entries[key]) || (key.fd == fd && after.entries[key].born <= egen)
  }

  lemma CtlNotAhead(k: Kernel, op: Op, fd: nat, mask: Events, born: nat)
    ensures
      var r := Ctl(k, op, fd, mask, born);
      OldOrUpTo(k, r.kernel, fd, born) && (r.errno != Ok ==> r.kernel == k)
  {
  }

  lemma RetryNotAhead(k: Kernel, w: World, op: Op, e: Efd, fd: nat, nev: Events)
    ensures
      var after := Retried(Evolve(k, w), op, e, fd, nev);
      after.efd.egen >= e.egen && OldOrUpTo(k, after.kernel, fd, after.efd.egen)
  {
    CtlNotAhead(Evolve(k, w), op, fd, nev, e.egen + 1);
  }

  /** epoll_modify never leaves an entry of a later generation than fd's. */
  lemma ModifyNotAhead(k: Kernel, e: Efd, fd: nat, oev: Events, nev: Events, w: World)
    ensures
      var after := Modified(k, e, fd, oev, nev, w);
      after.efd.egen >= e.egen && OldOrUpTo(k, after.kernel, fd, after.efd.egen)
  {
    if nev != {} {
      var op := FirstOp(e, oev, nev);
      CtlNotAhead(k, op, fd, nev, e.egen + 1);
      match Ctl(k, op, fd, nev, e.egen + 1).errno
      case ENOENT => RetryNotAhead(k, w, ADD, e, fd, nev);
      case EEXIST => RetryNotAhead(k, w, MOD, e, fd, nev);
      case _ =>
    }
  }

  /** An event from the kernel: the descriptor and generation it was told about, and what happened. */
  datatype Event = Event(fd: nat, born: nat, got: Events)

  /** What fd_event is told. */
  datatype Report = Report(fd: nat, got: Events)

  datatype Handling = Handling(kernel: Kernel, efd: Efd, delivered: bool)

  /** What epoll_poll does with an event for a descriptor with these epoll fields and events wanted. */
  function Handled(k: Kernel, e: Efd, want: Events, ev: Event): Handling {
    if e.egen % GENERATIONS != ev.born % GENERATIONS then Handling(k, e, false)
    else if ev.got - want != {} then
      var r := Ctl(k, if want != {} then MOD else DEL, ev.fd, want, ev.born);
      Handling(r.kernel, e.(emask := want), r.errno == Ok)
    else Handling(k, e, true)
  }

  /** The kernel will report no event for fd beyond those wanted. */
  ghost predicate OnlyWanted(k: Kernel, fd: nat, want: Events) {
    forall key | key in k.entries && key.fd == fd :: want != {} && k.entries[key].mask == want
  }

  /**
   The mask repair of epoll_poll keeps entries current, and after an event that was not wanted the
   kernel only watches for what is, so that such events do not go on.
   */
  lemma RepairIsExact(k: Kernel, e: Efd, want: Events, ev: Event)
    requires Tidy(k) && Current(k, ev.fd, e) && ev.born == e.egen
    ensures
      var after := Handled(k, e, want, ev);
      && Tidy(after.kernel) && Current(after.kernel, ev.fd, after.efd) && OthersKept(k, after.kernel, ev.fd)
      && after.efd.egen == e.egen
      && (ev.got - want != {} ==> OnlyWanted(after.kernel, ev.fd, want))
      && (!after.delivered ==> NoEntry(after.kernel, ev.fd))
  {
    if ev.got - want != {} {
      CtlTidy(k, if want != {} then MOD else DEL, ev.fd, want, ev.born);
    }
  }

  /** Unless an entry is 2**32 generations old, only events of the current generation are delivered. */
  lemma DeliveredIsCurrent(k: Kernel, e: Efd, want: Events, ev: Event)
    requires Handled(k, e, want, ev).delivered && ev.born <= e.egen < ev.born + GENERATIONS
    ensures ev.born == e.egen
  {
  }

  /** An event of an earlier generation changes nothing and is not delivered. */
  lemma Stale(k: Kernel, e: Efd, want: Events, ev: Event)
    requires ev.born < e.egen < ev.born + GENERATIONS
    ensures Handled(k, e, want, ev) == Handling(k, e, false)
  {
  }

  /** The kernel has an entry for the file that is open under fd. */
  predicate HasEntry(k: Kernel, fd: nat) {
    fd in k.open && Key(fd, k.open[fd]) in k.entries
  }

  /** fd is watched for these events, and what was registered for it earlier is of an earlier generation. */
  ghost predicate Anew(k: Kernel, fd: nat, was: Efd, e: Efd, events: Events) {
    && Watches(k, fd, e, events) && was.egen < e.egen
    && forall key | key in k.entries && key.fd == fd && key.file != k.open[fd] :: k.entries[key].born < e.egen
  }

  /**
   Whenever epoll_modify succeeds, either the kernel accepted the new mask under a generation of its
   own, or the mask last told was the same and the kernel had an entry already, which is left alone.
   */
  lemma AcceptedIsAnew(k: Kernel, e: Efd, fd: nat, oev: Events, nev: Events, w: World)
    requires forall key | key in k.entries && key.fd == fd :: k.entries[key].born <= e.egen
    requires nev != {} && !Modified(k, e, fd, oev, nev, w).killed
    ensures
      var after := Modified(k, e, fd, oev, nev, w);
      if e.emask == nev && HasEntry(k, fd) then after == Outcome(k, e, false)
      else Anew(after.kernel, fd, e, after.efd, nev)
  {
    var after := Modified(k, e, fd, oev, nev, w);
    if !(e.emask == nev && HasEntry(k, fd)) {
      forall key | key in after.kernel.entries && key.fd == fd && key.file != after.kernel.open[fd]
        ensures after.kernel.entries[key].born < after.efd.egen
      {
        assert key in k.entries && after.kernel.entries[key] == k.entries[key];
      }
    }
  }

  /**
   After the kernel accepted a mask for fd, no event of an entry that another file left under fd, and
   none that was on its way before, is reported for it, unless it is 2**32 generations old.
   */
  lemma EarlierIsNotReported(k: Kernel, e: Efd, fd: nat, oev: Events, nev: Events, w: World, want: Events, ev: Event)
    requires forall key | key in k.entries && key.fd == fd :: k.entries[key].born <= e.egen
    requires nev != {} && !(e.emask == nev && HasEntry(k, fd)) && !Modified(k, e, fd, oev, nev, w).killed
    requires ev.fd == fd && Modified(k, e, fd, oev, nev, w).efd.egen < ev.born + GENERATIONS
    requires
      var after := Modified(k, e, fd, oev, nev, w).kernel;
      || ev.born <= e.egen
      || exists key :: key in after.entries && key.fd == fd && key.file != after.open[fd]
                       && after.entries[key].born == ev.born
    ensures
      var after := Modified(k, e, fd, oev, nev, w);
      Handled(after.kernel, after.efd, want, ev) == Handling(after.kernel, after.efd, false)
  {
    AcceptedIsAnew(k, e, fd, oev, nev, w);
    var after := Modified(k, e, fd, oev, nev, w);
    Stale(after.kernel, after.efd, want, ev);
  }

  /** Nothing is watched for anew: what is not watched for stays so. */
  ghost predicate NothingNew(k: Kernel, after: Kernel, events: seq<Events>) {
    && (forall fd: nat {:trigger NoEntry(after, fd)} | NoEntry(k, fd) :: NoEntry(after, fd))
    && (forall fd {:trigger OnlyWanted(after, fd, events[fd])} | 0 <= fd < |events| && OnlyWanted(k, fd, events[fd]) ::
          OnlyWanted(after, fd, events[fd]))
  }

  lemma EvolveNothingNew(k: Kernel, w: World, events: seq<Events>)
    ensures NothingNew(k, Evolve(k, w), events)
  {
  }

  lemma HandledNothingNew(k: Kernel, e: Efd, ev: Event, events: seq<Events>)
    requires Tidy(k) && Current(k, ev.fd, e) && ev.born == e.egen && ev.fd < |events|
    ensures NothingNew(k, Handled(k, e, events[ev.fd], ev).kernel, events)
  {
    var after := Handled(k, e, events[ev.fd], ev).kernel;
    RepairIsExact(k, e, events[ev.fd], ev);
    forall fd: nat | NoEntry(k, fd) ensures NoEntry(after, fd) {
    }
    forall fd | 0 <= fd < |events| && OnlyWanted(k, fd, events[fd]) ensures OnlyWanted(after, fd, events[fd]) {
    }
  }

  function ReportOf(ev: Event): Report {
    Report(ev.fd, ev.got)
  }

  /** What fd_event is told if all events are delivered. */
  ghost function Reports(evs: seq<Event>): (reports: seq<Report>)
    ensures |reports| == |evs|
  {
    if evs == [] then [] else Reports(evs[..|evs| - 1]) + [ReportOf(evs[|evs| - 1])]
  }

  /** The event is of this or an earlier generation of its descriptor, but not 2**32 generations old. */
  ghost predicate InTime(ev: Event, gens: seq<nat>) {
    ev.fd < |gens| && ev.born <= gens[ev.fd] < ev.born + GENERATIONS
  }

  ghost predicate Aged(evs: seq<Event>, gens: seq<nat>) {
    forall i | 0 <= i < |evs| :: InTime(evs[i], gens)
  }

  ghost predicate IsStale(ev: Event, gens: seq<nat>)
    requires InTime(ev, gens)
  {
    ev.born != gens[ev.fd]
  }

  /** A report of one of these events, which is of the current generation. */
  ghost predicate OfCurrent(r: Report, evs: seq<Event>, gens: seq<nat>)
    requires Aged(evs, gens)
  {
    exists i :: 0 <= i < |evs| && !IsStale(evs[i], gens) && r == ReportOf(evs[i])
  }

  /** The event tells of nothing but what was wanted. */
  predicate Plain(ev: Event, events: seq<Events>)
    requires ev.fd < |events|
  {
    ev.got <= events[ev.fd]
  }

  /**
   Only current events are reported, among them all those that tell of nothing unwanted, and the
   loop is told to start over if and only if some event is not reported.
   */
  ghost predicate Accounted(evs: seq<Event>, gens: seq<nat>, events: seq<Events>, reports: seq<Report>, missed: bool) {
    && Aged(evs, gens) && |events| == |gens|
    && (forall i | 0 <= i < |evs| && IsStale(evs[i], gens) :: missed)
    && (forall i | 0 <= i < |evs| && !IsStale(evs[i], gens) && Plain(evs[i], events) :: ReportOf(evs[i]) in reports)
    && (forall r | r in reports :: OfCurrent(r, evs, gens))
    && if missed then |reports| < |evs| else reports == Reports(evs)
  }

  lemma AccountOne(done: seq<Event>, gens: seq<nat>, events: seq<Events>, before: seq<Report>, missed: bool,
                   ev: Event, delivered: bool)
    requires InTime(ev, gens) && Accounted(done, gens, events, before, missed)
    requires if IsStale(ev, gens) then !delivered else Plain(ev, events) ==> delivered
    ensures Accounted(done + [ev], gens, events, if delivered then before + [ReportOf(ev)] else before,
                      missed || !delivered)
  {
    var evs := done + [ev];
    var reports := if delivered then before + [ReportOf(ev)] else before;
    assert evs[|done|] == ev && evs[..|done|] == done;
    forall r | r in reports ensures OfCurrent(r, evs, gens) {
      if r in before {
        assert OfCurrent(r, done, gens);
        var i :| 0 <= i < |done| && !IsStale(done[i], gens) && r == ReportOf(done[i]);
        assert evs[i] == done[i];
      }
    }
  }

  /** ev was delivered or its entry is gone, and the kernel reports nothing it was not wanted for. */
  ghost predicate Served(k: Kernel, events: seq<Events>, ev: Event, reports: seq<Report>)
    requires ev.fd < |events|
  {
    && (ReportOf(ev) in reports || NoEntry(k, ev.fd))
    && (ev.got - events[ev.fd] != {} ==> OnlyWanted(k, ev.fd, events[ev.fd]))
  }

  ghost predicate AllServed(k: Kernel, events: seq<Events>, evs: seq<Event>, gens: seq<nat>, reports: seq<Report>) {
    && Aged(evs, gens) && |events| == |gens|
    && forall i | 0 <= i < |evs| && !IsStale(evs[i], gens) :: Served(k, events, evs[i], reports)
  }

  lemma ServeOne(k: Kernel, after: Kernel, events: seq<Events>, done: seq<Event>, gens: seq<nat>,
                 before: seq<Report>, ev: Event, reports: seq<Report>)
    requires AllServed(k, events, done, gens, before) && NothingNew(k, after, events) && InTime(ev, gens)
    requires before <= reports && (IsStale(ev, gens) || Served(after, events, ev, reports))
    ensures AllServed(after, events, done + [ev], gens, reports)
  {
    forall i | 0 <= i < |done| && !IsStale(done[i], gens) ensures Served(after, events, done[i], reports) {
      assert Served(k, events, done[i], before);
    }
  }

  function Zeros(n: nat): (z: seq<Efd>)
    ensures |z| == n && forall i | 0 <= i < n :: z[i] == Efd({}, 0)
  {
    seq(n, _ => Efd({}, 0))
  }

  function Nothing(n: nat): (z: seq<Events>)
    ensures |z| == n && forall i | 0 <= i < n :: z[i] == {}
  {
    seq(n, _ => {})
  }

  class EpollBackend {
    var kernel: Kernel
    var efds: seq<Efd>
    var events: seq<Events>  // anfds[fd].events
    var postfork: bool

    /** Every entry of the kernel is for an open file, with the mask and generation that were last told. */
    ghost predicate InStep()
      reads this
    {
      && |efds| == |events| && Tidy(kernel)
      && (forall key | key in kernel.entries :: key.fd < |efds|)
      && (forall fd | 0 <= fd < |efds| :: Current(kernel, fd, efds[fd]))
    }

    /** No entry of the kernel is of a later generation than its descriptor, whatever files outlive. */
    ghost predicate NotAhead()
      reads this
    {
      && |efds| == |events|
      && forall key | key in kernel.entries :: key.fd < |efds| && kernel.entries[key].born <= efds[key.fd].egen
    }

    /** A change for one descriptor that keeps the others' entries keeps the backend in step. */
    lemma StillInStep(before: Kernel, olds: seq<Efd>, fd: nat)
      requires |efds| == |events| == |olds| && Tidy(kernel) && fd < |efds|
      requires Tidy(before) && (forall key | key in before.entries :: key.fd < |olds|)
      requires forall f | 0 <= f < |olds| :: Current(before, f, olds[f])
      requires OthersKept(before, kernel, fd) && efds == olds[fd := efds[fd]] && Current(kernel, fd, efds[fd])
      ensures InStep()
    {
      forall f | 0 <= f < |efds| ensures Current(kernel, f, efds[f]) {
        assert Current(before, f, olds[f]);
      }
    }

    /** array_needsize for the table, whose new entries are zero. */
    method Grow(n: nat)
      modifies this`efds, this`events
      ensures efds == old(efds) + Zeros(n) && events == old(events) + Nothing(n)
      ensures old(InStep()) ==> InStep()
    {
      efds, events := efds + Zeros(n), events + Nothing(n);
      if old(InStep()) {
        forall fd | 0 <= fd < |efds| ensures Current(kernel, fd, efds[fd]) {
          if fd < |old(efds)| { assert efds[fd] == old(efds)[fd]; }
        }
      }
    }

    /** What others do between our system calls. */
    method Meanwhile(w: World)
      modifies this`kernel
      ensures kernel == Evolve(old(kernel), w)
      ensures (old(InStep()) ==> InStep()) && (old(NotAhead()) ==> NotAhead())
      ensures NothingNew(old(kernel), kernel, events)
    {
      EvolveNothingNew(kernel, w, events);
      kernel := Evolve(kernel, w);
    }

    /** A call of epoll_ctl. */
    method Call(op: Op, fd: nat, mask: Events, born: nat) returns (errno: Errno)
      modifies this`kernel
      ensures Reply(kernel, errno) == Ctl(old(kernel), op, fd, mask, born)
    {
      var r := Ctl(kernel, op, fd, mask, born);
      kernel := r.kernel;
      errno := r.errno;
    }

    /** epoll_modify; killed says whether it calls fd_kill. */
    method Modify(fd: nat, oev: Events, nev: Events, w: World) returns (killed: bool)
      requires fd < |efds|
      modifies this`kernel, this`efds
      ensures |efds| == |old(efds)| && efds == old(efds)[fd := efds[fd]]
      ensures Outcome(kernel, efds[fd], killed) == Modified(old(kernel), old(efds)[fd], fd, oev, nev, w)
    {
      killed := false;
      if nev == {} {
        return;
      }
      var oldmask := efds[fd].emask;
      var egen := efds[fd].egen + 1;
      efds := efds[fd := Efd(nev, egen)];
      var errno := Call(if oev != {} && oldmask != nev then MOD else ADD, fd, nev, egen);
      if errno == Ok {
        return;
      }
      if errno == ENOENT {
        Meanwhile(w);
        errno := Call(ADD, fd, nev, egen);
        if errno == Ok {
          return;
        }
        killed := true;
      } else if errno == EEXIST {
        if oldmask != nev {
          Meanwhile(w);
          errno := Call(MOD, fd, nev, egen);
          if errno == Ok {
            return;
          }
          killed := true;
        }
      } else {
        killed := true;
      }
      efds := efds[fd := Efd(nev, egen - 1)];
    }

    /** What every call of epoll_modify keeps, and its promise if the backend is in step: see ModifyIsExact. */
    method ModifyKept(fd: nat, oev: Events, nev: Events, w: World) returns (killed: bool)
      requires NotAhead() && fd < |efds|
      modifies this`kernel, this`efds
      ensures NotAhead() && |efds| == |old(efds)| && efds == old(efds)[fd := efds[fd]]
      ensures Outcome(kernel, efds[fd], killed) == Modified(old(kernel), old(efds)[fd], fd, oev, nev, w)
      ensures old(InStep()) ==>
                && InStep() && OthersKept(old(kernel), kernel, fd)
                && (nev != {} ==> if killed then NoEntry(kernel, fd) else Watches(kernel, fd, efds[fd], nev))
      ensures nev != {} && !killed && !(old(efds)[fd].emask == nev && HasEntry(old(kernel), fd)) ==>
                Anew(kernel, fd, old(efds)[fd], efds[fd], nev)
    {
      ghost var inStep := InStep();
      if nev != {} && !Modified(kernel, efds[fd], fd, oev, nev, w).killed {
        AcceptedIsAnew(kernel, efds[fd], fd, oev, nev, w);
      }
      if inStep {
        ModifyIsExact(kernel, efds[fd], fd, oev, nev, w);
      }
      ModifyNotAhead(kernel, efds[fd], fd, oev, nev, w);
      killed := Modify(fd, oev, nev, w);
      if inStep {
        StillInStep(old(kernel), old(efds), fd);
      }
    }

    /** One round of epoll_poll's loop. */
    method Handle(ev: Event) returns (delivered: bool)
      requires ev.fd < |efds| == |events|
      modifies this`kernel, this`efds, this`postfork
      ensures |efds| == |old(efds)| && efds == old(efds)[ev.fd := efds[ev.fd]]
      ensures Handling(kernel, efds[ev.fd], delivered) == Handled(old(kernel), old(efds)[ev.fd], events[ev.fd], ev)
      ensures postfork == (old(postfork) || !delivered)
      ensures old(NotAhead()) && ev.born <= old(efds)[ev.fd].egen ==> NotAhead()
    {
      var fd, want := ev.fd, events[ev.fd];
      if efds[fd].egen % GENERATIONS != ev.born % GENERATIONS {
        postfork := true;
        return false;
      }
      if ev.got - want != {} {
        efds := efds[fd := efds[fd].(emask := want)];
        var errno := Call(if want != {} then MOD else DEL, fd, want, ev.born);
        if errno != Ok {
          postfork := true;
          return false;
        }
      }
      delivered := true;
    }

    /** What is known about the round: in any case, and if the backend is in step. */
    lemma HandledWell(ev: Event)
      requires NotAhead() && ev.fd < |efds| && ev.born <= efds[ev.fd].egen < ev.born + GENERATIONS
      ensures
        var after := Handled(kernel, efds[ev.fd], events[ev.fd], ev);
        && after.efd.egen == efds[ev.fd].egen && (after.delivered ==> ev.born == efds[ev.fd].egen)
        && (ev.born == efds[ev.fd].egen && Plain(ev, events) ==> after.delivered)
        && (InStep() ==>
              && Tidy(after.kernel) && Current(after.kernel, ev.fd, after.efd)
              && OthersKept(kernel, after.kernel, ev.fd) && NothingNew(kernel, after.kernel, events))
        && (InStep() && ev.born == efds[ev.fd].egen ==>
              && (ev.got - events[ev.fd] != {} ==> OnlyWanted(after.kernel, ev.fd, events[ev.fd]))
              && (!after.delivered ==> NoEntry(after.kernel, ev.fd)))
    {
      var e := efds[ev.fd];
      if ev.born != e.egen {
        Stale(kernel, e, events[ev.fd], ev);
      } else if InStep() {
        RepairIsExact(kernel, e, events[ev.fd], ev);
        HandledNothingNew(kernel, e, ev, events);
      }
    }

    /** One round of epoll_poll's loop, whether or not files outlive their descriptors. */
    method HandleAny(ev: Event) returns (delivered: bool)
      requires NotAhead() && ev.fd < |efds| && ev.born <= efds[ev.fd].egen < ev.born + GENERATIONS
      modifies this`kernel, this`efds, this`postfork
      ensures NotAhead() && |efds| == |old(efds)| && (delivered ==> ev.born == efds[ev.fd].egen)
      ensures ev.born == efds[ev.fd].egen && Plain(ev, events) ==> delivered
      ensures forall f | 0 <= f < |efds| :: efds[f].egen == old(efds)[f].egen
      ensures postfork == (old(postfork) || !delivered)
      ensures old(InStep()) ==> InStep() && NothingNew(old(kernel), kernel, events)
      ensures old(InStep()) && ev.born == efds[ev.fd].egen ==>
                && (ev.got - events[ev.fd] != {} ==> OnlyWanted(kernel, ev.fd, events[ev.fd]))
                && (!delivered ==> NoEntry(kernel, ev.fd))
    {
      ghost var tidy := InStep();
      HandledWell(ev);
      delivered := Handle(ev);
      if tidy {
        StillInStep(old(kernel), old(efds), ev.fd);
      }
    }

    /** The same after others did w. */
    method HandleNext(ev: Event, w: World) returns (delivered: bool)
      requires NotAhead() && ev.fd < |efds| && ev.born <= efds[ev.fd].egen < ev.born + GENERATIONS
      modifies this`kernel, this`efds, this`postfork
      ensures NotAhead() && |efds| == |old(efds)| && (delivered ==> ev.born == efds[ev.fd].egen)
      ensures ev.born == efds[ev.fd].egen && Plain(ev, events) ==> delivered
      ensures forall f | 0 <= f < |efds| :: efds[f].egen == old(efds)[f].egen
      ensures postfork == (old(postfork) || !delivered)
      ensures old(InStep()) ==> InStep() && NothingNew(old(kernel), kernel, events)
      ensures old(InStep()) && ev.born == efds[ev.fd].egen ==>
                && (ev.got - events[ev.fd] != {} ==> OnlyWanted(kernel, ev.fd, events[ev.fd]))
                && (!delivered ==> NoEntry(kernel, ev.fd))
    {
      Meanwhile(w);
      delivered := HandleAny(ev);
    }

    /** The descriptors' generations. */
    ghost predicate Generations(gens: seq<nat>)
      reads this`efds
    {
      |efds| == |gens| && forall fd | 0 <= fd < |efds| :: efds[fd].egen == gens[fd]
    }

    /** The events have been gone through, and the loop is told to start over if some was not reported. */
    ghost predicate Polled(evs: seq<Event>, gens: seq<nat>, reports: seq<Report>, was: bool, missed: bool)
      reads this
    {
      NotAhead() && Generations(gens) && Accounted(evs, gens, events, reports, missed) && postfork == (was || missed)
    }

    /** The backend is in step, and every event that is not stale was served. */
    ghost predicate ServedInStep(evs: seq<Event>, gens: seq<nat>, reports: seq<Report>)
      reads this
    {
      InStep() && AllServed(kernel, events, evs, gens, reports)
    }

    /**
     epoll_poll's loop over the events that epoll_wait returned; ws says what happens in between.
     Every event delivered is of its descriptor's current generation, and if any was not delivered,
     as a stale one never is, the loop is told to start over. If the backend is in step, it stays so,
     every event that is not stale was delivered or its entry is gone, and the kernel no longer
     watches for anything that turned out not to be wanted.
     */
    method Poll(evs: seq<Event>, ws: seq<World>, ghost gens: seq<nat>)
      returns (reports: seq<Report>, ghost missed: bool)
      requires NotAhead() && Generations(gens) && Aged(evs, gens) && |ws| == |evs|
      modifies this`kernel, this`efds, this`postfork
      ensures Polled(evs, gens, reports, old(postfork), missed)
      ensures old(InStep()) ==> ServedInStep(evs, gens, reports)
    {
      reports, missed := [], false;
      for i := 0 to |evs|
        invariant Polled(evs[..i], gens, reports, old(postfork), missed)
        invariant old(InStep()) ==> ServedInStep(evs[..i], gens, reports)
      {
        Prefixes(evs, i);
        reports, missed := PollOne(evs[i], ws[i], evs[..i], gens, reports, old(postfork), missed);
      }
      Whole(evs);
    }

    /** The loop body: ev, after the events in done. */
    method PollOne(ev: Event, w: World, ghost done: seq<Event>, ghost gens: seq<nat>, before: seq<Report>,
                   ghost was: bool, ghost missed: bool)
      returns (reports: seq<Report>, ghost missing: bool)
      requires Polled(done, gens, before, was, missed) && InTime(ev, gens)
      modifies this`kernel, this`efds, this`postfork
      ensures Polled(done + [ev], gens, reports, was, missing)
      ensures old(ServedInStep(done, gens, before)) ==> ServedInStep(done + [ev], gens, reports)
    {
      ghost var k := kernel;
      var delivered := HandleNext(ev, w);
      reports := if delivered then before + [ReportOf(ev)] else before;
      missing := missed || !delivered;
      AccountOne(done, gens, events, before, missed, ev, delivered);
      if old(ServedInStep(done, gens, before)) {
        ServeOne(k, kernel, events, done, gens, before, ev, reports);
      }
    }

    /** epoll_fork and fd_rearm_all: a new, empty epoll set, and everything is to be told again. */
    method Fork()
      requires |efds| == |events|
      modifies this
      ensures |efds| == |events| == |old(efds)| && kernel == old(kernel).(entries := map[])
      ensures !kernel.shared ==> InStep()
      ensures forall fd | 0 <= fd < |efds| :: events[fd] == {} && efds[fd].egen == old(efds)[fd].egen
      ensures NotAhead()
    {
      kernel := kernel.(entries := map[]);
      for fd := 0 to |efds|
        invariant |efds| == |events| == |old(efds)| && kernel == old(kernel).(entries := map[])
        invariant forall f | 0 <= f < |efds| :: efds[f].egen == old(efds)[f].egen && (f < fd ==> events[f] == {})
      {
        if events[fd] != {} {
          events := events[fd := {}];
          efds := efds[fd := efds[fd].(emask := {})];
        }
      }
    }
  }
}
