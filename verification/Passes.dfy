/**
 What a pass over the due timers and one over the due periodics have in common, and the order in
 which the watchers that they find due are called.
 */
module Passes {
  import opened Watchers
  import opened Pending
  import opened CallOrder

  /** A watcher at some moment: whether it runs, its time, how that is set, its priority, slot and bits. */
  datatype Status<How> = Status(running: bool, at: real, how: How, priority: int, pending: nat, bits: Events)

  /** The running watchers that are due before now. */
  ghost function Late<How>(m: map<Watcher, Status<How>>, now: real): set<Watcher> {
    set v | v in m && m[v].running && m[v].at < now
  }

  /** The watchers in done were due, in this order, and no other was due before them. */
  ghost predicate DoneInOrder<How>(done: seq<Watcher>, was: map<Watcher, Status<How>>, now: real) {
    && Distinct(done)
    && (forall v | v in done :: v in was && was[v].running && was[v].at < now)
    && (forall i, j | 0 <= i < j < |done| :: was[done[i]].at <= was[done[j]].at)
    && (forall v, u | v in done && u in was && was[u].running && u !in done :: was[v].at <= was[u].at)
  }

  /** The watcher that is due first when those in done no longer are comes next. */
  lemma DoneNext<How>(done: seq<Watcher>, w: Watcher, was: map<Watcher, Status<How>>,
                      here: map<Watcher, Status<How>>, now: real)
    requires DoneInOrder(done, was, now) && was.Keys == here.Keys
    requires forall v | v in was && v !in done :: here[v] == was[v]
    requires forall v | v in done :: v !in Late(here, now)
    requires w in Late(here, now) && forall u | u in here && here[u].running :: here[w].at <= here[u].at
    ensures DoneInOrder(done + [w], was, now) && w !in done
  {
    assert here[w] == was[w];
    forall u | u in was && was[u].running && u !in done ensures was[w].at <= was[u].at {
      assert here[u] == was[u];
    }
  }

  /** What feed_reverse_done does to a watcher: a due one becomes pending with the given bits. */
  ghost predicate Queued<How>(was: Status<How>, here: Status<How>, due: bool, bits: Events) {
    && here == was.(pending := here.pending, bits := was.bits + if due then bits else {})
    && if due then here.pending > 0 else here.pending == was.pending
  }

  ghost predicate AllQueued<How>(was: map<Watcher, Status<How>>, here: map<Watcher, Status<How>>, due: seq<Watcher>,
                                 bits: Events)
  {
    was.Keys == here.Keys && forall v | v in was :: Queued(was[v], here[v], v in due, bits)
  }

  /** Of the watchers that became pending an earlier due one is nearer to the top of a common queue. */
  ghost predicate Stacked(due: seq<Watcher>, risen: set<Watcher>)
    reads due`pending, due`priority
  {
    forall i, j | 0 <= i < j < |due| && due[i] in risen && due[j] in risen :: Above(due[i], due[j])
  }

  /** Feeding the due watchers in reverse puts those that were idle in order, and above all others. */
  lemma FedArranged(due: seq<Watcher>, risen: set<Watcher>, was: seq<nat>, start: seq<seq<Slot>>, ps: seq<seq<Slot>>,
                    others: set<Watcher>)
    requires FedFrom(due, 0, was, start, ps) && forall v | v in risen :: v in due
    requires forall i | 0 <= i < |due| && due[i] in risen :: was[i] == 0
    requires forall u | u in others :: PointerOk(start, u)
    ensures Stacked(due, risen) && OnTop(risen, others)
  {
    forall v, u | v in risen && u in others && u.pending > 0 ensures Above(v, u) {
      var i :| 0 <= i < |due| && due[i] == v;
      assert Settled(due[i], was[i], start, ps) && PointerOk(start, u);
    }
  }

  lemma PlacedToo(pend: Pendings, due: seq<Watcher>, risen: set<Watcher>, others: set<Watcher>)
    requires Stacked(due, risen) && OnTop(risen, others) && forall v | v in due :: v in pend.universe
    ensures PlacedInOrder(pend.Where(), due, risen) && PlacedOnTop(pend.Where(), risen, others)
  {
    forall i, j | 0 <= i < j < |due| && due[i] in risen && due[j] in risen
      ensures Higher(pend.Where()[due[i]], pend.Where()[due[j]])
    {
      assert Above(due[i], due[j]);
    }
    forall v, u | v in risen && u in others && v in pend.universe && u in pend.universe && u.pending > 0
      ensures Higher(pend.Where()[v], pend.Where()[u])
    {
      assert Above(v, u);
    }
  }

  /** The watchers in risen are pending with these bits only, and of the priority that they had. */
  ghost predicate Waits<How>(was: map<Watcher, Status<How>>, risen: set<Watcher>, bits: Events,
                             ps: seq<seq<Slot>>)
    reads risen`pending, risen`priority
  {
    forall v | v in risen :: v in was && v.priority == was[v].priority && v.pending > 0 && Waiting(ps, v) == bits
  }

  /** The watchers have the bits that m says. */
  ghost predicate BitsLike<How>(m: map<Watcher, Status<How>>, h: History) {
    forall v | v in m :: BitsSince(h, v) == m[v].bits
  }

  /** The order of the calls: watchers of one priority that became pending, by their times. */
  ghost predicate CalledInOrder<How>(was: map<Watcher, Status<How>>, due: seq<Watcher>, risen: set<Watcher>,
                                     bits: Events, calls: seq<Event>)
    requires forall v | v in due :: v in was
  {
    forall i, j | 0 <= i < j < |due| && due[i] in risen && due[j] in risen
                  && was[due[i]].priority == was[due[j]].priority ::
      Precedes(calls, Invoked(due[i], bits), Invoked(due[j], bits))
  }

  /** The places of the watchers decide the order of the calls. */
  lemma PlacedAreCalled<How>(was: map<Watcher, Status<How>>, due: seq<Watcher>, risen: set<Watcher>, bits: Events,
                             pend: Pendings)
    requires pend.Valid() && risen <= pend.universe && forall v | v in due :: v in was
    requires PlacedInOrder(pend.Where(), due, risen) && Waits(was, risen, bits, pend.pendings)
    ensures CalledInOrder(was, due, risen, bits, AllCalls(pend.pendings, pend.dummy))
  {
    forall i, j | 0 <= i < j < |due| && due[i] in risen && due[j] in risen
                  && was[due[i]].priority == was[due[j]].priority
      ensures Precedes(AllCalls(pend.pendings, pend.dummy), Invoked(due[i], bits), Invoked(due[j], bits))
    {
      assert Higher(pend.Where()[due[i]], pend.Where()[due[j]]);
      AboveIsCalledFirst(pend.pendings, due[i], due[j], pend.universe, pend.dummy);
    }
  }
}
