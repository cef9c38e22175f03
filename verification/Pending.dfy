/**
 The pending queues: five stacks of fed watchers, one per priority, with back pointers.
 Callbacks may feed events, clear pending watchers, change priorities and invoke pending
 watchers themselves.
 */
module Pending {
  import opened Watchers

  /** ANPENDING: a pending watcher and its events. */
  datatype Slot = Slot(w: Watcher, events: Events)

  /** What happened to the queues so far: feeds with the queue used, clears, and callbacks run. */
  datatype Event =
    | Fed(w: Watcher, pri: int, bits: Events)
    | Cleared(w: Watcher)
    | Invoked(w: Watcher, bits: Events)

  datatype History = Start | Then(before: History, e: Event)

  /** w was fed and neither cleared nor invoked since. */
  ghost predicate IsPending(h: History, w: Watcher) {
    match h
    case Start => false
    case Then(before, e) => if e.w == w then e.Fed? else IsPending(before, w)
  }

  /** All bits fed to w since it was last cleared or invoked. */
  ghost function BitsSince(h: History, w: Watcher): Events {
    match h
    case Start => {}
    case Then(before, e) =>
      if e.w != w then BitsSince(before, w) else if e.Fed? then BitsSince(before, w) + e.bits else {}
  }

  /** The queue in which w became pending. */
  ghost function PriOf(h: History, w: Watcher): int {
    match h
    case Start => 0
    case Then(before, e) =>
      if e.Fed? && e.w == w && !IsPending(before, w) then e.pri else PriOf(before, w)
  }

  /** The watchers that h is about; no other watcher can be pending after h. */
  ghost function Mentioned(h: History): set<Watcher> {
    match h
    case Start => {}
    case Then(before, e) => Mentioned(before) + {e.w}
  }

  /** Invoking w with these bits is right after h: w is pending with them and nothing more urgent is. */
  ghost predicate Deliverable(h: History, w: Watcher, bits: Events) {
    && IsPending(h, w) && bits == BitsSince(h, w)
    && (forall v | v in Mentioned(h) && IsPending(h, v) :: PriOf(h, v) <= PriOf(h, w))
  }

  /** Every callback in h was run when it was right to. */
  ghost predicate Lawful(h: History) {
    match h
    case Start => true
    case Then(before, e) => Lawful(before) && (e.Invoked? ==> Deliverable(before, e.w, e.bits))
  }

  /** h2 is h with further events. */
  ghost predicate Extends(h: History, h2: History) {
    h2 == h || (h2.Then? && Extends(h, h2.before))
  }

  lemma {:induction false} ExtendsOn(h: History, h2: History, h3: History)
    requires Extends(h, h2) && Extends(h2, h3)
    ensures Extends(h, h3)
  {
    if h3 != h2 {
      ExtendsOn(h, h2, h3.before);
    }
  }

  /** h2 is h with further events, all of them about watchers in ws. */
  ghost predicate ExtendsBy(h: History, h2: History, ws: set<Watcher>) {
    h2 == h || (h2.Then? && h2.e.w in ws && ExtendsBy(h, h2.before, ws))
  }

  lemma {:induction false} ExtendsByOn(h: History, h2: History, h3: History, ws: set<Watcher>)
    requires ExtendsBy(h, h2, ws) && ExtendsBy(h2, h3, ws)
    ensures ExtendsBy(h, h3, ws)
  {
    if h3 != h2 {
      ExtendsByOn(h, h2, h3.before, ws);
    }
  }

  lemma {:induction false} ExtendsByMore(h: History, h2: History, ws: set<Watcher>, more: set<Watcher>)
    requires ExtendsBy(h, h2, ws) && ws <= more
    ensures ExtendsBy(h, h2, more)
  {
    if h2 != h {
      ExtendsByMore(h, h2.before, ws, more);
    }
  }

  lemma ExtendsByBoth(h: History, h2: History, h3: History, ws: set<Watcher>, more: set<Watcher>)
    requires ExtendsBy(h, h2, ws) && ExtendsBy(h2, h3, more)
    ensures ExtendsBy(h, h3, ws + more)
  {
    ExtendsByMore(h, h2, ws, ws + more);
    ExtendsByMore(h2, h3, more, ws + more);
    ExtendsByOn(h, h2, h3, ws + more);
  }

  /** Events about others leave v as it was. */
  lemma {:induction false} OthersUntouched(h: History, h2: History, ws: set<Watcher>, v: Watcher)
    requires ExtendsBy(h, h2, ws) && v !in ws
    ensures Extends(h, h2) && BitsSince(h2, v) == BitsSince(h, v) && (IsPending(h2, v) <==> IsPending(h, v))
  {
    if h2 != h {
      OthersUntouched(h, h2.before, ws, v);
    }
  }

  /** How often a pending watcher was cleared. */
  ghost function Clears(h: History): nat {
    match h
    case Start => 0
    case Then(before, e) => Clears(before) + if e.Cleared? then 1 else 0
  }

  lemma {:induction false} ClearsGrow(h: History, h2: History)
    requires Extends(h, h2)
    ensures Clears(h) <= Clears(h2)
  {
    if h2 != h {
      ClearsGrow(h, h2.before);
    }
  }

  /** How many callbacks were run. */
  ghost function Invokes(h: History): nat {
    match h
    case Start => 0
    case Then(before, e) => Invokes(before) + if e.Invoked? then 1 else 0
  }

  /** What was fed, and to which watchers. */
  ghost function FeedsMade(h: History): multiset<(Watcher, Events)> {
    match h
    case Start => multiset{}
    case Then(before, e) => FeedsMade(before) + if e.Fed? then multiset{(e.w, e.bits)} else multiset{}
  }

  /** Since h, w was invoked with at least the given bits. */
  ghost predicate InvokedSince(h: History, h2: History, w: Watcher, bits: Events) {
    && h2 != h && h2.Then?
    && ((h2.e.Invoked? && h2.e.w == w && bits <= h2.e.bits) || InvokedSince(h, h2.before, w, bits))
  }

  lemma {:induction false} BitsKept(h: History, h2: History, w: Watcher)
    requires Extends(h, h2) && Lawful(h2) && IsPending(h, w) && Clears(h2) == Clears(h)
    ensures InvokedSince(h, h2, w, BitsSince(h, w)) || (IsPending(h2, w) && BitsSince(h, w) <= BitsSince(h2, w))
  {
    if h2 != h {
      ClearsGrow(h, h2.before);
      BitsKept(h, h2.before, w);
    }
  }

  /** If nothing was cleared, what was pending and no longer is was invoked, with all that waited for it. */
  lemma PendingIsDelivered(h: History, h2: History, w: Watcher)
    requires Extends(h, h2) && Lawful(h2) && Clears(h2) == Clears(h) && IsPending(h, w) && !IsPending(h2, w)
    ensures InvokedSince(h, h2, w, BitsSince(h, w))
  {
    BitsKept(h, h2, w);
  }

  /** An operation that a callback may perform on the queues. */
  datatype Op =
    | FeedOp(w: Watcher, bits: Events)
    | ClearOp(w: Watcher)
    | PriorityOp(w: Watcher, priority: int)
    | InvokeOp

  ghost predicate OpOk(op: Op, universe: set<Watcher>) {
    match op
    case FeedOp(w, _) => w in universe
    case ClearOp(w) => w in universe
    case PriorityOp(w, priority) => w in universe && EV_MINPRI <= priority <= EV_MAXPRI
    case InvokeOp => true
  }

  ghost predicate ScriptOk(ops: seq<Op>, universe: set<Watcher>) {
    forall j | 0 <= j < |ops| :: OpOk(ops[j], universe)
  }

  ghost predicate ScriptsOk(scripts: seq<seq<Op>>, universe: set<Watcher>) {
    forall i | 0 <= i < |scripts| :: ScriptOk(scripts[i], universe)
  }

  /** How many clears a script asks for. */
  ghost function ClearsIn(ops: seq<Op>): nat {
    if ops == [] then 0 else ClearsIn(ops[..|ops| - 1]) + if ops[|ops| - 1].ClearOp? then 1 else 0
  }

  ghost function Planned(scripts: seq<seq<Op>>): nat {
    if scripts == [] then 0 else ClearsIn(scripts[0]) + Planned(scripts[1..])
  }

  /** The feeds that a script asks for. */
  ghost function FeedsIn(ops: seq<Op>): multiset<(Watcher, Events)> {
    if ops == [] then multiset{} else FeedsIn(ops[..|ops| - 1]) + FeedOf(ops[|ops| - 1])
  }

  ghost function FeedOf(op: Op): multiset<(Watcher, Events)> {
    if op.FeedOp? then multiset{(op.w, op.bits)} else multiset{}
  }

  ghost function FeedsPlanned(scripts: seq<seq<Op>>): multiset<(Watcher, Events)> {
    if scripts == [] then multiset{} else FeedsIn(scripts[0]) + FeedsPlanned(scripts[1..])
  }

  /** What happened so far, the scripts of the callbacks to come, and the priorities of the watchers. */
  datatype Account = Account(history: History, scripts: seq<seq<Op>>, priorities: map<Watcher, int>) {
    ghost function Clearing(): nat { Clears(history) + Planned(scripts) }
    ghost function Feeding(): multiset<(Watcher, Events)> { FeedsMade(history) + FeedsPlanned(scripts) }
    ghost function Turns(): nat { Invokes(history) + |scripts| }
  }

  /** The callbacks that ev_invoke_pending ran, each with what it did; mid is how things were before the last. */
  datatype Callbacks = NoCallback | Callback(before: Callbacks, mid: Account, w: Watcher, bits: Events, steps: Steps)

  /** The operations that a callback carried out; nested are the callbacks that one which invokes any ran. */
  datatype Steps = NoStep | Step(before: Steps, mid: Account, op: Op, nested: Callbacks)

  ghost function OpsOf(s: Steps): seq<Op> {
    match s
    case NoStep => []
    case Step(before, _, op, _) => OpsOf(before) + [op]
  }

  ghost predicate NonePending(h: History) {
    forall v | v in Mentioned(h) :: !IsPending(h, v)
  }

  /**
   From a to b callbacks were run, one after the other: each for a watcher of a highest pending
   priority with all its bits, and each carried out the script whose turn it was, if there was one.
   */
  ghost predicate Ran(a: Account, r: Callbacks, b: Account)
    decreases r, 0
  {
    match r
    case NoCallback => b == a
    case Callback(before, mid, w, bits, steps) =>
      && Ran(a, before, mid) && Deliverable(mid.history, w, bits)
      && var begun := mid.(history := Then(mid.history, Invoked(w, bits)));
         if mid.scripts == [] then b == begun && steps == NoStep
         else Did(begun.(scripts := mid.scripts[1..]), steps, b) && OpsOf(steps) == mid.scripts[0]
  }

  /** From a to b operations were carried out, one after the other. */
  ghost predicate Did(a: Account, s: Steps, b: Account)
    decreases s, 0
  {
    match s
    case NoStep => b == a
    case Step(before, mid, op, nested) => Did(a, before, mid) && OpDone(mid, op, nested, b)
  }

  /**
   What one operation does: a feed and a clear what ev_feed_event and ev_clear_pending do, and a
   recursive ev_invoke_pending runs callbacks until no watcher is pending.
   */
  ghost predicate OpDone(a: Account, op: Op, nested: Callbacks, b: Account)
    decreases nested, 1
  {
    match op
    case FeedOp(w, bits) =>
      w in a.priorities && b == a.(history := Then(a.history, Fed(w, a.priorities[w] - EV_MINPRI, bits)))
    case ClearOp(w) => b == if IsPending(a.history, w) then a.(history := Then(a.history, Cleared(w))) else a
    case PriorityOp(w, priority) =>
      b == if IsPending(a.history, w) then a else a.(priorities := a.priorities[w := priority])
    case InvokeOp => Ran(a, nested, b) && NonePending(b.history)
  }

  /** Callbacks without scripts leave the priorities alone. */
  lemma {:induction false} RanWithoutScripts(a: Account, r: Callbacks, b: Account)
    requires Ran(a, r, b) && a.scripts == []
    ensures b.scripts == [] && b.priorities == a.priorities
    decreases r
  {
    if r.Callback? {
      RanWithoutScripts(a, r.before, r.mid);
    }
  }

  /**
   Between was and here callbacks were run, and besides them the operations ops: the history only
   grew, no more was cleared than was asked for, just what was asked for was fed, and each callback
   used up one script, while there were any.
   */
  ghost predicate Carried(was: Account, here: Account, ops: seq<Op>) {
    && Extends(was.history, here.history) && |here.scripts| <= |was.scripts|
    && here.Clearing() <= was.Clearing() + ClearsIn(ops)
    && here.Feeding() == was.Feeding() + FeedsIn(ops)
    && (if here.scripts == [] then here.Turns() >= was.Turns() else here.Turns() == was.Turns())
  }

  lemma CarriedOn(was: Account, mid: Account, here: Account)
    requires Carried(was, mid, []) && Carried(mid, here, [])
    ensures Carried(was, here, [])
  {
    ExtendsOn(was.history, mid.history, here.history);
  }

  lemma OneMore(ops: seq<Op>, op: Op)
    ensures FeedsIn(ops + [op]) == FeedsIn(ops) + FeedsIn([op])
    ensures ClearsIn(ops + [op]) == ClearsIn(ops) + ClearsIn([op])
  {
    assert (ops + [op])[..|ops|] == ops;
    JustOne(op);
  }

  lemma JustOne(op: Op)
    ensures FeedsIn([op]) == FeedOf(op) && ClearsIn([op]) == if op.ClearOp? then 1 else 0
  {
    assert [op][..0] == [];
    assert FeedsIn([op]) == FeedsIn([]) + FeedOf(op);
  }

  lemma CarriedOne(was: Account, mid: Account, here: Account, ops: seq<Op>, op: Op)
    requires Carried(was, mid, ops) && Carried(mid, here, [op])
    ensures Carried(was, here, ops + [op])
  {
    ExtendsOn(was.history, mid.history, here.history);
    OneMore(ops, op);
  }

  lemma CarriedOp(a: Account, op: Op, nested: Callbacks, b: Account)
    requires OpDone(a, op, nested, b) && (op.InvokeOp? ==> Carried(a, b, []))
    ensures Carried(a, b, [op])
  {
    JustOne(op);
  }

  /** A callback was run for a slot of no dummy, and its script was carried out. */
  lemma CarriedOut(was: Account, begun: History, here: Account)
    requires was.scripts != [] && Extends(was.history, begun)
    requires Invokes(begun) == Invokes(was.history) + 1
    requires Clears(begun) == Clears(was.history) && FeedsMade(begun) == FeedsMade(was.history)
    requires Carried(Account(begun, was.scripts[1..], was.priorities), here, was.scripts[0])
    ensures Carried(was, here, [])
  {
    ExtendsOn(was.history, begun, here.history);
    var popped := Account(begun, was.scripts[1..], was.priorities);
    assert popped.Feeding() + FeedsIn(was.scripts[0]) == was.Feeding();
    assert popped.Turns() == was.Turns();
  }

  /** In sum: see Carried. */
  lemma {:induction false} RanIsCarried(a: Account, r: Callbacks, b: Account)
    requires Ran(a, r, b)
    ensures Carried(a, b, [])
    decreases r, 0
  {
    if r.Callback? {
      RanIsCarried(a, r.before, r.mid);
      var begun := Then(r.mid.history, Invoked(r.w, r.bits));
      if r.mid.scripts != [] {
        DidIsCarried(Account(begun, r.mid.scripts[1..], r.mid.priorities), r.steps, b);
        CarriedOut(r.mid, begun, b);
      }
      CarriedOn(a, r.mid, b);
    }
  }

  lemma {:induction false} DidIsCarried(a: Account, s: Steps, b: Account)
    requires Did(a, s, b)
    ensures Carried(a, b, OpsOf(s))
    decreases s, 0
  {
    if s.Step? {
      DidIsCarried(a, s.before, s.mid);
      if s.op.InvokeOp? {
        RanIsCarried(s.mid, s.nested, b);
      }
      CarriedOp(s.mid, s.op, s.nested, b);
      CarriedOne(a, s.mid, b, OpsOf(s.before), s.op);
    }
  }

  ghost function Total(ps: seq<seq<Slot>>): nat
    requires |ps| == NUMPRI
  {
    |ps[0]| + |ps[1]| + |ps[2]| + |ps[3]| + |ps[4]|
  }

  /** Slot i of queue p is cleared, or belongs to the watcher that points back at it. */
  ghost predicate SlotOk(ps: seq<seq<Slot>>, p: nat, i: nat, universe: set<Watcher>, dummy: Watcher)
    requires p < |ps| && i < |ps[p]|
    reads universe`pending, universe`priority
  {
    var w := ps[p][i].w;
    w != dummy ==> w in universe && w.pending == i + 1 && w.PriorityOk() && w.Abspri() == p
  }

  /** A pending watcher points at its slot. */
  ghost predicate PointerOk(ps: seq<seq<Slot>>, w: Watcher)
    requires |ps| == NUMPRI
    reads w`pending, w`priority
  {
    w.PriorityOk()
    && (w.pending > 0 ==> w.pending <= |ps[w.Abspri()]| && ps[w.Abspri()][w.pending - 1].w == w)
  }

  /** Slots and pending fields are mutually inverse. */
  ghost predicate Inverse(ps: seq<seq<Slot>>, universe: set<Watcher>, dummy: Watcher)
    reads universe`pending, universe`priority
  {
    && |ps| == NUMPRI && dummy !in universe
    && (forall p, i | 0 <= p < NUMPRI && 0 <= i < |ps[p]| :: SlotOk(ps, p, i, universe, dummy))
    && (forall w {:trigger PointerOk(ps, w)} | w in universe :: PointerOk(ps, w))
  }

  /** The bits waiting for w. */
  ghost function Waiting(ps: seq<seq<Slot>>, w: Watcher): Events
    reads w`pending, w`priority
  {
    if |ps| == NUMPRI && w.pending > 0 && PointerOk(ps, w) then ps[w.Abspri()][w.pending - 1].events else {}
  }

  /** The queues say of w what the history says. */
  ghost predicate Told(h: History, ps: seq<seq<Slot>>, w: Watcher)
    reads w`pending, w`priority
  {
    && (IsPending(h, w) <==> w.pending > 0)
    && BitsSince(h, w) == Waiting(ps, w)
    && (w.pending > 0 ==> PriOf(h, w) == w.priority - EV_MINPRI)
  }

  ghost predicate AllTold(h: History, ps: seq<seq<Slot>>, ws: set<Watcher>)
    reads ws`pending, ws`priority
  {
    forall w {:trigger Told(h, ps, w)} | w in ws :: Told(h, ps, w)
  }

  /** The queues hold what the history says. */
  ghost predicate Faithful(h: History, ps: seq<seq<Slot>>, universe: set<Watcher>)
    requires |ps| == NUMPRI
    reads universe`pending, universe`priority
  {
    Mentioned(h) <= universe && AllTold(h, ps, universe)
  }

  // What each change of the queues keeps. Here U stands for the watchers known to be consistent.

  /** A watcher that is not pending has no slot. */
  lemma WithoutIdle(ps: seq<seq<Slot>>, w: Watcher, U: set<Watcher>, dummy: Watcher)
    requires Inverse(ps, U, dummy) && w in U && w.pending == 0
    ensures Inverse(ps, U - {w}, dummy)
  {
    forall p, i | 0 <= p < NUMPRI && 0 <= i < |ps[p]| ensures SlotOk(ps, p, i, U - {w}, dummy) {
      assert SlotOk(ps, p, i, U, dummy);
    }
  }

  lemma WithIdle(ps: seq<seq<Slot>>, w: Watcher, U: set<Watcher>, dummy: Watcher)
    requires Inverse(ps, U - {w}, dummy) && w in U && w != dummy && w.pending == 0 && w.PriorityOk()
    ensures Inverse(ps, U, dummy)
  {
    forall p, i | 0 <= p < NUMPRI && 0 <= i < |ps[p]| ensures SlotOk(ps, p, i, U, dummy) {
      assert SlotOk(ps, p, i, U - {w}, dummy);
    }
  }

  /** Other bits in a slot change what one watcher waits for. */
  lemma MergeKeeps(ps: seq<seq<Slot>>, p: nat, i: nat, bits: Events, h: History, U: set<Watcher>, dummy: Watcher)
    requires Inverse(ps, U, dummy) && AllTold(h, ps, U) && p < NUMPRI && i < |ps[p]|
    ensures
      var after := ps[p := ps[p][i := Slot(ps[p][i].w, bits)]];
      Inverse(after, U, dummy) && AllTold(h, after, U - {ps[p][i].w})
  {
    var after := ps[p := ps[p][i := Slot(ps[p][i].w, bits)]];
    forall v | v in U
      ensures PointerOk(after, v) && (v != ps[p][i].w ==> Told(h, after, v))
    {
      assert PointerOk(ps, v) && Told(h, ps, v);
    }
    forall q, j | 0 <= q < NUMPRI && 0 <= j < |after[q]|
      ensures SlotOk(after, q, j, U, dummy)
    {
      assert |after[q]| == |ps[q]| && after[q][j].w == ps[q][j].w;
      assert SlotOk(ps, q, j, U, dummy);
    }
  }

  /** A new slot on top of a queue belongs to the watcher that was pointed at it. */
  lemma PushKeeps(ps: seq<seq<Slot>>, w: Watcher, bits: Events, h: History, U: set<Watcher>, dummy: Watcher)
    requires Inverse(ps, U - {w}, dummy) && AllTold(h, ps, U - {w}) && w in U && w != dummy
    requires w.PriorityOk() && w.pending == |ps[w.Abspri()]| + 1
    ensures
      var after := ps[w.Abspri() := ps[w.Abspri()] + [Slot(w, bits)]];
      Inverse(after, U, dummy) && AllTold(h, after, U - {w}) && Waiting(after, w) == bits
  {
    var after := ps[w.Abspri() := ps[w.Abspri()] + [Slot(w, bits)]];
    forall v | v in U - {w}
      ensures PointerOk(after, v) && Told(h, after, v)
    {
      assert PointerOk(ps, v) && Told(h, ps, v);
    }
    forall q, j | 0 <= q < NUMPRI && 0 <= j < |after[q]|
      ensures SlotOk(after, q, j, U, dummy)
    {
      assert j < |ps[q]| ==> after[q][j] == ps[q][j] && SlotOk(ps, q, j, U - {w}, dummy);
    }
    assert PointerOk(after, w);
  }

  /** Giving a slot to the dummy leaves its watcher without one. */
  lemma ClearKeeps(ps: seq<seq<Slot>>, p: nat, i: nat, h: History, U: set<Watcher>, dummy: Watcher)
    requires Inverse(ps, U, dummy) && AllTold(h, ps, U) && p < NUMPRI && i < |ps[p]|
    ensures
      var after := ps[p := ps[p][i := Slot(dummy, ps[p][i].events)]];
      Inverse(after, U - {ps[p][i].w}, dummy) && AllTold(h, after, U - {ps[p][i].w})
  {
    var w := ps[p][i].w;
    var after := ps[p := ps[p][i := Slot(dummy, ps[p][i].events)]];
    assert SlotOk(ps, p, i, U, dummy);
    forall v | v in U - {w}
      ensures PointerOk(after, v) && Told(h, after, v)
    {
      assert PointerOk(ps, v) && Told(h, ps, v);
    }
    forall q, j | 0 <= q < NUMPRI && 0 <= j < |after[q]|
      ensures SlotOk(after, q, j, U - {w}, dummy)
    {
      assert |after[q]| == |ps[q]| && SlotOk(ps, q, j, U, dummy);
      assert (q == p && j == i) || after[q][j] == ps[q][j];
    }
  }

  /** Taking the top slot off leaves its watcher without one. */
  lemma TakeKeeps(ps: seq<seq<Slot>>, p: nat, h: History, U: set<Watcher>, dummy: Watcher)
    requires Inverse(ps, U, dummy) && AllTold(h, ps, U) && p < NUMPRI && ps[p] != []
    ensures
      var after := ps[p := ps[p][..|ps[p]| - 1]];
      var w := ps[p][|ps[p]| - 1].w;
      Inverse(after, U - {w}, dummy) && AllTold(h, after, U - {w})
  {
    var w := ps[p][|ps[p]| - 1].w;
    var after := ps[p := ps[p][..|ps[p]| - 1]];
    assert SlotOk(ps, p, |ps[p]| - 1, U, dummy);
    forall v | v in U - {w}
      ensures PointerOk(after, v) && Told(h, after, v)
    {
      assert PointerOk(ps, v) && Told(h, ps, v);
    }
    forall q, j | 0 <= q < NUMPRI && 0 <= j < |after[q]|
      ensures SlotOk(after, q, j, U - {w}, dummy)
    {
      assert after[q][j] == ps[q][j] && SlotOk(ps, q, j, U, dummy);
    }
  }

  /** The queues are consistent and tell the history, which is lawful. */
  ghost predicate Sound(ps: seq<seq<Slot>>, h: History, universe: set<Watcher>, dummy: Watcher)
    reads universe`pending, universe`priority
  {
    Inverse(ps, universe, dummy) && Faithful(h, ps, universe) && Lawful(h)
  }

  /** Queues above priority p are empty. */
  ghost predicate EmptyAbove(ps: seq<seq<Slot>>, p: int) {
    |ps| == NUMPRI && -1 <= p && forall q | p < q < NUMPRI :: ps[q] == []
  }

  /** Taking the top slot brings the callbacks to come one nearer to their end. */
  lemma TopTaken(ps: seq<seq<Slot>>, ps2: seq<seq<Slot>>, h: History, h2: History, p: nat, dummy: Watcher)
    requires EmptyAbove(ps, p) && p < NUMPRI && ps[p] != [] && ps2 == ps[p := ps[p][..|ps[p]| - 1]]
    requires var slot := ps[p][|ps[p]| - 1]; h2 == if slot.w == dummy then h else Then(h, Invoked(slot.w, slot.events))
    ensures Extend(h2, AllCalls(ps2, dummy)) == Extend(h, AllCalls(ps, dummy))
    ensures EmptyAbove(ps2, p) && Total(ps2) < Total(ps)
  {
    var slot := ps[p][|ps[p]| - 1];
    CallsStep(ps, p, dummy);
    ExtendOne(h, Invoked(slot.w, slot.events), AllCalls(ps2, dummy));
    assert [] + AllCalls(ps2, dummy) == AllCalls(ps2, dummy);
  }

  /** h followed by the given events. */
  ghost function Extend(h: History, es: seq<Event>): History
    decreases |es|
  {
    if es == [] then h else Extend(Then(h, es[0]), es[1..])
  }

  /** The callbacks of queue q from its top to its bottom. */
  ghost function Calls(q: seq<Slot>, dummy: Watcher): seq<Event> {
    if q == [] then []
    else
      var top := q[|q| - 1];
      (if top.w == dummy then [] else [Invoked(top.w, top.events)]) + Calls(q[..|q| - 1], dummy)
  }

  /** The callbacks of queue p and all less urgent ones. */
  ghost function CallsFrom(ps: seq<seq<Slot>>, p: int, dummy: Watcher): seq<Event>
    requires p < |ps|
    decreases p
  {
    if p < 0 then [] else Calls(ps[p], dummy) + CallsFrom(ps, p - 1, dummy)
  }

  /** All callbacks that are due, in the order in which they will be run. */
  ghost function AllCalls(ps: seq<seq<Slot>>, dummy: Watcher): seq<Event> {
    CallsFrom(ps, |ps| - 1, dummy)
  }

  lemma {:induction false} CallsSkip(ps: seq<seq<Slot>>, p: int, q: int, dummy: Watcher)
    requires -1 <= p <= q < |ps| && forall r | p < r <= q :: ps[r] == []
    ensures CallsFrom(ps, q, dummy) == CallsFrom(ps, p, dummy)
    decreases q
  {
    if p < q { CallsSkip(ps, p, q - 1, dummy); }
  }

  lemma {:induction false} CallsSame(ps: seq<seq<Slot>>, qs: seq<seq<Slot>>, p: int, dummy: Watcher)
    requires p < |ps| && p < |qs| && forall r | 0 <= r <= p :: ps[r] == qs[r]
    ensures CallsFrom(ps, p, dummy) == CallsFrom(qs, p, dummy)
    decreases p
  {
    if p >= 0 { CallsSame(ps, qs, p - 1, dummy); }
  }

  /** The most urgent slot gives the first callback. */
  lemma CallsStep(ps: seq<seq<Slot>>, p: nat, dummy: Watcher)
    requires |ps| == NUMPRI && p < NUMPRI && ps[p] != [] && EmptyAbove(ps, p)
    ensures
      var top := ps[p][|ps[p]| - 1];
      AllCalls(ps, dummy)
      == (if top.w == dummy then [] else [Invoked(top.w, top.events)])
         + AllCalls(ps[p := ps[p][..|ps[p]| - 1]], dummy)
  {
    var q := ps[p];
    var r := q[..|q| - 1];
    var after := ps[p := r];
    var first := if q[|q| - 1].w == dummy then [] else [Invoked(q[|q| - 1].w, q[|q| - 1].events)];
    CallsSkip(ps, p, |ps| - 1, dummy);
    CallsSkip(after, p, |ps| - 1, dummy);
    CallsSame(ps, after, p - 1, dummy);
    CallsPush(q, first, r, CallsFrom(ps, p - 1, dummy), dummy);
  }

  lemma CallsPush(q: seq<Slot>, first: seq<Event>, r: seq<Slot>, rest: seq<Event>, dummy: Watcher)
    requires q != [] && r == q[..|q| - 1]
    requires first == if q[|q| - 1].w == dummy then [] else [Invoked(q[|q| - 1].w, q[|q| - 1].events)]
    ensures Calls(q, dummy) + rest == first + (Calls(r, dummy) + rest)
  {
    assert Calls(q, dummy) == first + Calls(r, dummy);
  }

  lemma ExtendOne(h: History, e: Event, es: seq<Event>)
    ensures Extend(h, [e] + es) == Extend(Then(h, e), es)
  {
    assert ([e] + es)[1..] == es;
  }

  /** h followed by the feeds of ws[n..], last first. */
  ghost function FeedAll(h: History, ws: seq<Watcher>, n: nat, bits: Events): History
    requires forall w | w in ws :: w.PriorityOk()
    reads ws`priority
    decreases |ws| - n
  {
    if n >= |ws| then h else Then(FeedAll(h, ws, n + 1, bits), Fed(ws[n], ws[n].Abspri(), bits))
  }

  /** Feeding each of ws[n..] gives them the bits on top of what they had, and no other watcher any. */
  lemma {:induction false} FeedAllBits(h: History, ws: seq<Watcher>, n: nat, bits: Events, v: Watcher)
    requires forall w | w in ws :: w.PriorityOk()
    ensures BitsSince(FeedAll(h, ws, n, bits), v)
            == BitsSince(h, v) + if exists i :: n <= i < |ws| && ws[i] == v then bits else {}
    decreases |ws| - n
  {
    if n < |ws| {
      FeedAllBits(h, ws, n + 1, bits, v);
      assert ws[n] == v || (exists i :: n <= i < |ws| && ws[i] == v)
                           == (exists i :: n + 1 <= i < |ws| && ws[i] == v);
    }
  }

  /** Between was and h exactly the watchers in ws were given the bits. */
  ghost predicate Given(was: History, h: History, ws: seq<Watcher>, bits: Events, v: Watcher) {
    BitsSince(h, v) == BitsSince(was, v) + if v in ws then bits else {}
  }

  ghost predicate AllGiven(was: History, h: History, ws: seq<Watcher>, bits: Events, universe: set<Watcher>) {
    forall v {:trigger Given(was, h, ws, bits, v)} | v in universe :: Given(was, h, ws, bits, v)
  }

  lemma GivenNext(was: History, h: History, ws: seq<Watcher>, bits: Events, universe: set<Watcher>,
                  w: Watcher, pri: int)
    requires AllGiven(was, h, ws, bits, universe)
    ensures AllGiven(was, Then(h, Fed(w, pri, bits)), ws + [w], bits, universe)
  {
    forall v | v in universe ensures Given(was, Then(h, Fed(w, pri, bits)), ws + [w], bits, v) {
      assert Given(was, h, ws, bits, v);
    }
  }

  lemma {:induction false} FeedAllExtends(h: History, ws: seq<Watcher>, n: nat, bits: Events, some: set<Watcher>)
    requires forall w | w in ws :: w.PriorityOk() && w in some
    ensures ExtendsBy(h, FeedAll(h, ws, n, bits), some)
    decreases |ws| - n
  {
    if n < |ws| {
      FeedAllExtends(h, ws, n + 1, bits, some);
    }
  }

  /** The pending fields of ws. */
  ghost function SlotsOf(ws: seq<Watcher>): (slots: seq<nat>)
    reads ws`pending
    ensures |slots| == |ws| && forall i | 0 <= i < |ws| :: slots[i] == ws[i].pending
  {
    if ws == [] then [] else [ws[0].pending] + SlotsOf(ws[1..])
  }

  /** w is pending: in its old slot, or on top of what its queue started out with. */
  ghost predicate Settled(w: Watcher, was: nat, start: seq<seq<Slot>>, ps: seq<seq<Slot>>)
    requires |start| == NUMPRI && |ps| == NUMPRI
    reads w`pending, w`priority
  {
    && w.PriorityOk() && 0 < w.pending <= |ps[w.Abspri()]|
    && (if was > 0 then w.pending == was else w.pending > |start[w.Abspri()]|)
  }

  /** v is nearer to the top than w, if they share a queue. */
  ghost predicate Above(v: Watcher, w: Watcher)
    reads v`pending, v`priority, w`pending, w`priority
  {
    v.priority == w.priority ==> v.pending > w.pending
  }

  /** Those that became pending are nearer to the top than any of the others in a common queue. */
  ghost predicate OnTop(risen: set<Watcher>, others: set<Watcher>)
    reads risen`pending, risen`priority, others`pending, others`priority
  {
    forall v, u | v in risen && u in others && u.pending > 0 :: Above(v, u)
  }

  /** The watchers from index n on were fed, the last one first; was holds their pending fields before that. */
  ghost predicate FedFrom(all: seq<Watcher>, n: nat, was: seq<nat>, start: seq<seq<Slot>>, ps: seq<seq<Slot>>)
    reads all`pending, all`priority
  {
    && |was| == |all| && n <= |all| && |start| == NUMPRI && |ps| == NUMPRI
    && (forall p | 0 <= p < NUMPRI :: |start[p]| <= |ps[p]|)
    && (forall i | 0 <= i < n :: all[i].pending == was[i])
    && (forall i | n <= i < |all| :: Settled(all[i], was[i], start, ps))
    && (forall i, j | n <= i < j < |all| && was[i] == 0 && was[j] == 0 :: Above(all[i], all[j]))
  }

  /** The priority and the pending slot of a watcher. */
  datatype Place = Place(priority: int, slot: nat)

  type Places = map<Watcher, Place>

  ghost predicate Higher(a: Place, b: Place) {
    a.priority == b.priority ==> a.slot > b.slot
  }

  /** OnTop and Stacked, for given places. */
  ghost predicate PlacedOnTop(p: Places, risen: set<Watcher>, others: set<Watcher>) {
    forall v, u | v in risen && u in others && v in p && u in p && p[u].slot > 0 :: Higher(p[v], p[u])
  }

  ghost predicate PlacedInOrder(p: Places, due: seq<Watcher>, risen: set<Watcher>) {
    && (forall v | v in due :: v in p)
    && forall i, j | 0 <= i < j < |due| && due[i] in risen && due[j] in risen :: Higher(p[due[i]], p[due[j]])
  }

  /** Nothing of priority q or above is pending. */
  ghost predicate NothingFrom(p: Places, q: nat) {
    forall u | u in p && p[u].priority - EV_MINPRI >= q :: p[u].slot == 0
  }

  /** Of the watchers not in ws none of priority q or above is pending. */
  ghost predicate NothingElse(p: Places, q: nat, ws: seq<Watcher>) {
    forall u | u in p && u !in ws && p[u].priority - EV_MINPRI >= q :: p[u].slot == 0
  }

  /** Those of ws that are not pending. */
  ghost function IdleIn(p: Places, ws: seq<Watcher>): set<Watcher> {
    set v | v in p && v in ws && p[v].slot == 0
  }

  /** These watchers are where they were. */
  ghost predicate Unmoved(p: Places, p2: Places, ws: set<Watcher>) {
    p.Keys == p2.Keys && forall v | v in ws && v in p :: p2[v] == p[v]
  }

  lemma UnmovedTwice(p: Places, p1: Places, p2: Places, ws: set<Watcher>, ws1: set<Watcher>, both: set<Watcher>)
    requires Unmoved(p, p1, ws) && Unmoved(p1, p2, ws1) && both <= ws && both <= ws1
    ensures Unmoved(p, p2, both)
  {
  }

  /** Nothing was fed to these watchers, and none of them was cleared or invoked. */
  ghost predicate Untouched(h: History, h2: History, ws: set<Watcher>) {
    forall v | v in ws :: BitsSince(h2, v) == BitsSince(h, v)
  }

  lemma OnlyThese(h: History, h2: History, universe: set<Watcher>, ws: set<Watcher>)
    requires ExtendsBy(h, h2, ws)
    ensures Extends(h, h2) && Untouched(h, h2, universe - ws)
  {
    forall v | v in universe - ws ensures BitsSince(h2, v) == BitsSince(h, v) {
      OthersUntouched(h, h2, ws, v);
    }
  }

  ghost predicate Distinct(ws: seq<Watcher>) {
    forall i, j | 0 <= i < j < |ws| :: ws[i] != ws[j]
  }

  class Pendings {
    ghost const universe: set<Watcher>  // the initialised watchers
    const dummy: Watcher                // pending_w, which takes the place of cleared watchers
    var pendings: seq<seq<Slot>>
    var pendingpri: nat
    var rfeeds: seq<Watcher>
    var scripts: seq<seq<Op>>           // what the callbacks still to run will do, in turn
    ghost var history: History

    ghost predicate Valid()
      reads this`pendings, this`pendingpri, this`scripts, this`history, universe`pending, universe`priority
    {
      Sound(pendings, history, universe, dummy) && ScriptsOk(scripts, universe) && pendingpri <= NUMPRI
    }

    constructor (ghost universe: set<Watcher>, dummy: Watcher, scripts: seq<seq<Op>>)
      requires dummy !in universe && ScriptsOk(scripts, universe)
      requires forall w | w in universe :: w.PriorityOk() && w.pending == 0
      ensures Valid() && this.universe == universe && this.dummy == dummy && this.scripts == scripts
      ensures history == Start && rfeeds == [] && pendings == [[], [], [], [], []]
    {
      this.universe, this.dummy, this.scripts := universe, dummy, scripts;
      pendings := [[], [], [], [], []];
      pendingpri := 0;
      rfeeds, history := [], Start;
    }

    /** Where each watcher is. */
    ghost function Where(): (p: Places)
      reads universe`pending, universe`priority
      ensures p.Keys == universe
    {
      map v | v in universe :: Place(v.priority, v.pending)
    }

    /** Nothing waits for a watcher that is not pending. */
    lemma IdleHasNoBits(w: Watcher)
      requires Valid() && w in universe && w.pending == 0
      ensures BitsSince(history, w) == {} && !IsPending(history, w)
    {
      assert PointerOk(pendings, w) && Told(history, pendings, w);
    }

    /** ev_feed_event */
    method Feed(w: Watcher, revents: Events)
      requires Valid() && w in universe && w.PriorityOk()
      modifies this`pendings, this`pendingpri, this`history, w`pending
      ensures Valid() && pendingpri == NUMPRI - 1
      ensures history == Then(old(history), Fed(w, w.Abspri(), revents))
      ensures
        var p := w.Abspri();
        if old(w.pending) == 0 then
          w.pending == |old(pendings)[p]| + 1
          && pendings == old(pendings)[p := old(pendings)[p] + [Slot(w, revents)]]
        else
          var i := old(w.pending) - 1;
          w.pending == old(w.pending) && i < |old(pendings)[p]|
          && pendings == old(pendings)[p := old(pendings)[p][i := Slot(w, old(pendings)[p][i].events + revents)]]
    {
      if w.pending > 0 {
        FeedAgain(w, revents);
      } else {
        FeedFresh(w, revents);
      }
      pendingpri := NUMPRI - 1;
    }

    /** ev_feed_event for a pending watcher. */
    method FeedAgain(w: Watcher, revents: Events)
      requires Valid() && w in universe && w.PriorityOk() && w.pending > 0
      modifies this`pendings, this`history
      ensures Valid()
      ensures history == Then(old(history), Fed(w, w.Abspri(), revents))
      ensures
        var p, i := w.Abspri(), w.pending - 1;
        && |old(pendings)| == NUMPRI && i < |old(pendings)[p]|
        && pendings == old(pendings)[p := old(pendings)[p][i := Slot(w, old(pendings)[p][i].events + revents)]]
    {
      assert PointerOk(pendings, w) && Told(history, pendings, w);
      var pri, i := w.Abspri(), w.pending - 1;
      var bits := pendings[pri][i].events + revents;
      MergeKeeps(pendings, pri, i, bits, history, universe, dummy);
      pendings := pendings[pri := pendings[pri][i := Slot(w, bits)]];
      Record(Fed(w, pri, revents));
    }

    /** ev_feed_event for a watcher that is not pending yet. */
    method FeedFresh(w: Watcher, revents: Events)
      requires Valid() && w in universe && w.PriorityOk() && w.pending == 0
      modifies this`pendings, this`history, w`pending
      ensures Valid()
      ensures history == Then(old(history), Fed(w, w.Abspri(), revents))
      ensures
        var p := w.Abspri();
        && w.pending == |old(pendings)[p]| + 1
        && pendings == old(pendings)[p := old(pendings)[p] + [Slot(w, revents)]]
    {
      assert PointerOk(pendings, w) && Told(history, pendings, w);
      WithoutIdle(pendings, w, universe, dummy);
      var pri := w.Abspri();
      w.pending := |pendings[pri]| + 1;
      PushKeeps(pendings, w, revents, history, universe, dummy);
      pendings := pendings[pri := pendings[pri] + [Slot(w, revents)]];
      Record(Fed(w, pri, revents));
    }

    /** Notes in the history what was just done to the queues. */
    ghost method Record(e: Event)
      requires Inverse(pendings, universe, dummy) && Lawful(history) && e.w in universe
      requires Mentioned(history) <= universe && AllTold(history, pendings, universe - {e.w})
      requires e.w.pending > 0 <==> e.Fed?
      requires e.Fed? ==>
                 && Waiting(pendings, e.w) == BitsSince(history, e.w) + e.bits
                 && e.w.priority - EV_MINPRI == if IsPending(history, e.w) then PriOf(history, e.w) else e.pri
      requires e.Invoked? ==> Deliverable(history, e.w, e.bits)
      modifies this`history
      ensures Sound(pendings, history, universe, dummy)
      ensures history == Then(old(history), e)
    {
      forall w | w in universe
        ensures Told(Then(history, e), pendings, w)
      {
        assert w != e.w ==> Told(history, pendings, w);
      }
      history := Then(history, e);
    }

    /** ev_clear_pending: its result is the bits w was waiting to receive. */
    method Clear(w: Watcher) returns (revents: Events)
      requires Valid() && w in universe && w.PriorityOk()
      modifies this`pendings, this`history, w`pending
      ensures Valid() && w.pending == 0
      ensures revents == BitsSince(old(history), w)
      ensures history == if old(w.pending) > 0 then Then(old(history), Cleared(w)) else old(history)
      ensures
        if old(w.pending) == 0 then pendings == old(pendings)
        else
          var p, i := w.Abspri(), old(w.pending) - 1;
          && i < |old(pendings)[p]|
          && pendings == old(pendings)[p := old(pendings)[p][i := Slot(dummy, revents)]]
    {
      assert PointerOk(pendings, w) && Told(history, pendings, w);
      if w.pending == 0 {
        return {};
      }
      var p, i := w.Abspri(), w.pending - 1;
      revents := pendings[p][i].events;
      ClearKeeps(pendings, p, i, history, universe, dummy);
      pendings := pendings[p := pendings[p][i := Slot(dummy, revents)]];
      w.pending := 0;
      WithIdle(pendings, w, universe, dummy);
      Record(Cleared(w));
    }

    /** Takes the top slot of queue p off, as ev_invoke_pending does before it runs the callback. */
    method Take(p: nat) returns (slot: Slot)
      requires Valid() && p < NUMPRI && pendings[p] != []
      requires forall q | p < q < NUMPRI :: pendings[q] == []
      modifies this`pendings, this`history, universe`pending, dummy`pending
      ensures Valid()
      ensures var last := |old(pendings)[p]| - 1;
        slot == old(pendings)[p][last] && pendings == old(pendings)[p := old(pendings)[p][..last]]
      ensures history == if slot.w == dummy then old(history) else Then(old(history), Invoked(slot.w, slot.events))
      ensures slot.w.pending == 0 && forall v | v in universe && v != slot.w :: v.pending == old(v.pending)
      ensures slot.w != dummy ==> slot.w in universe && old(slot.w.pending) > 0
                                  && slot.events == BitsSince(old(history), slot.w)
    {
      var last := |pendings[p]| - 1;
      slot := pendings[p][last];
      var w := slot.w;
      TopIsDeliverable(p);
      assert SlotOk(pendings, p, last, universe, dummy);
      TakeKeeps(pendings, p, history, universe, dummy);
      pendings := pendings[p := pendings[p][..last]];
      w.pending := 0;
      if w != dummy {
        WithIdle(pendings, w, universe, dummy);
        Record(Invoked(w, slot.events));
      } else {
        assert universe - {w} == universe;
      }
    }

    /** The top of the highest non-empty queue may be invoked. */
    lemma TopIsDeliverable(p: nat)
      requires Valid() && p < NUMPRI && pendings[p] != []
      requires forall q | p < q < NUMPRI :: pendings[q] == []
      ensures
        var slot := pendings[p][|pendings[p]| - 1];
        slot.w != dummy ==> slot.w in universe && slot.w.PriorityOk() && Deliverable(history, slot.w, slot.events)
    {
      var slot := pendings[p][|pendings[p]| - 1];
      assert SlotOk(pendings, p, |pendings[p]| - 1, universe, dummy);
      if slot.w != dummy {
        assert PointerOk(pendings, slot.w) && Told(history, pendings, slot.w);
        forall v | v in Mentioned(history) && IsPending(history, v)
          ensures PriOf(history, v) <= PriOf(history, slot.w)
        {
          assert PointerOk(pendings, v) && Told(history, pendings, v);
        }
      }
    }

    /** ev_set_priority, which the interface allows only while w is not pending. */
    method SetPriority(w: Watcher, priority: int)
      requires Valid() && w in universe && w.pending == 0 && EV_MINPRI <= priority <= EV_MAXPRI
      modifies w`priority
      ensures Valid() && w.priority == priority
    {
      WithoutIdle(pendings, w, universe, dummy);
      assert Told(history, pendings, w);
      assert AllTold(history, pendings, universe - {w});
      w.priority := priority;
      WithIdle(pendings, w, universe, dummy);
      forall v | v in universe ensures Told(history, pendings, v) {
        assert v != w ==> v in universe - {w};
      }
    }

    /** What the callbacks will have been run for once the queues are drained without interference. */
    ghost function Drained(): History
      requires |pendings| == NUMPRI
      reads this
    {
      Extend(history, AllCalls(pendings, dummy))
    }

    ghost function Priorities(): map<Watcher, int>
      reads universe`priority
    {
      map v | v in universe :: v.priority
    }

    ghost function Now(): Account
      reads this`history, this`scripts, universe`priority
    {
      Account(history, scripts, Priorities())
    }

    lemma EmptyIsNonePending()
      requires Valid() && EmptyAbove(pendings, -1)
      ensures NonePending(history)
    {
      forall v | v in Mentioned(history) ensures !IsPending(history, v) {
        assert PointerOk(pendings, v) && Told(history, pendings, v);
      }
    }

    /**
     ev_invoke_pending. It runs callbacks until no watcher is pending; ran says which, and what each
     did in turn, including the callbacks that it ran itself by a recursive call: see Ran. In sum the
     history only grows, nothing is cleared but by callbacks, and just what their scripts ask for is
     fed: see Carried. Without such clears all that was pending was delivered: see PendingIsDelivered.
     */
    method InvokePending() returns (ghost ran: Callbacks)
      requires Valid()
      modifies this`pendings, this`pendingpri, this`history, this`scripts
      modifies universe`pending, universe`priority, dummy`pending
      ensures Valid() && EmptyAbove(pendings, -1) && pendingpri == 0
      ensures Ran(old(Now()), ran, Now()) && NonePending(history)
      ensures Carried(old(Now()), Now(), [])
      ensures old(scripts) == [] ==> history == old(Drained())
      decreases |scripts|, 4
    {
      ghost var start, drained := Now(), Drained();
      ran := NoCallback;
      pendingpri := NUMPRI;
      while pendingpri != 0
        invariant Valid() && EmptyAbove(pendings, pendingpri - 1)
        invariant Ran(start, ran, Now()) && |scripts| <= |start.scripts|
        invariant start.scripts == [] ==> Drained() == drained
        decreases |scripts|, Total(pendings), pendingpri
      {
        pendingpri := pendingpri - 1;
        ran := InvokeLevel(start, ran);
      }
      CallsSkip(pendings, -1, |pendings| - 1, dummy);
      EmptyIsNonePending();
      RanIsCarried(start, ran, Now());
    }

    /** Within ev_invoke_pending's inner loop, which began with n scripts and all this. */
    ghost predicate MidLevel(start: Account, ran: Callbacks, n: nat, total: nat, pri: nat, drained: History)
      reads this, universe`pending, universe`priority
    {
      && Valid() && EmptyAbove(pendings, pendingpri) && pendingpri < NUMPRI && Ran(start, ran, Now())
      && |scripts| <= n && (|scripts| == n ==> Total(pendings) <= total && pendingpri == pri)
      && (n == 0 ==> Drained() == drained)
    }

    /** ev_invoke_pending's inner loop. */
    method InvokeLevel(ghost start: Account, ghost ran: Callbacks) returns (ghost more: Callbacks)
      requires Valid() && EmptyAbove(pendings, pendingpri) && pendingpri < NUMPRI && Ran(start, ran, Now())
      modifies this`pendings, this`pendingpri, this`history, this`scripts
      modifies universe`pending, universe`priority, dummy`pending
      ensures Valid() && EmptyAbove(pendings, pendingpri - 1) && pendingpri < NUMPRI && Ran(start, more, Now())
      ensures |scripts| <= |old(scripts)|
      ensures |scripts| == |old(scripts)| ==>
                Total(pendings) <= Total(old(pendings)) && pendingpri == old(pendingpri)
      ensures old(scripts) == [] ==> Drained() == old(Drained())
      decreases |scripts|, 3
    {
      more := DrainLevel(start, ran, |scripts|, Total(pendings), pendingpri, Drained());
    }

    /** The loop, and what it is for. */
    method DrainLevel(ghost start: Account, ghost ran: Callbacks, ghost n: nat, ghost total: nat, ghost pri: nat,
                      ghost drained: History)
      returns (ghost more: Callbacks)
      requires MidLevel(start, ran, n, total, pri, drained)
      modifies this`pendings, this`pendingpri, this`history, this`scripts
      modifies universe`pending, universe`priority, dummy`pending
      ensures MidLevel(start, more, n, total, pri, drained) && pendings[pendingpri] == []
      decreases |scripts|, 2
    {
      more := ran;
      while pendings[pendingpri] != []
        invariant MidLevel(start, more, n, total, pri, drained) && |scripts| <= |old(scripts)|
        decreases |scripts|, Total(pendings)
      {
        more := InvokeNext(start, more, n, total, pri, drained);
      }
    }

    /** One round of it. */
    method InvokeNext(ghost start: Account, ghost ran: Callbacks, ghost n: nat, ghost total: nat, ghost pri: nat,
                      ghost drained: History)
      returns (ghost more: Callbacks)
      requires MidLevel(start, ran, n, total, pri, drained) && pendings[pendingpri] != []
      modifies this`pendings, this`pendingpri, this`history, this`scripts
      modifies universe`pending, universe`priority, dummy`pending
      ensures MidLevel(start, more, n, total, pri, drained) && |scripts| <= |old(scripts)|
      ensures |scripts| == |old(scripts)| ==> Total(pendings) < Total(old(pendings))
      decreases |scripts|, 1
    {
      more := InvokeTop(start, ran);
    }

    /** The body of ev_invoke_pending's inner loop. */
    method InvokeTop(ghost start: Account, ghost ran: Callbacks) returns (ghost more: Callbacks)
      requires Valid() && EmptyAbove(pendings, pendingpri) && pendingpri < NUMPRI && pendings[pendingpri] != []
      requires Ran(start, ran, Now())
      modifies this`pendings, this`pendingpri, this`history, this`scripts
      modifies universe`pending, universe`priority, dummy`pending
      ensures Valid() && EmptyAbove(pendings, pendingpri) && pendingpri < NUMPRI && Ran(start, more, Now())
      ensures |scripts| <= |old(scripts)|
      ensures |scripts| == |old(scripts)| ==>
                Total(pendings) < Total(old(pendings)) && pendingpri == old(pendingpri)
      ensures old(scripts) == [] ==> scripts == [] && Drained() == old(Drained())
      decreases |scripts|, 0
    {
      ghost var mid := Now();
      var slot := TakeTop();
      if slot.w == dummy {
        return ran;
      }
      ghost var steps := NoStep;
      if scripts != [] {
        var ops := NextScript();
        steps := RunScript(ops);
      }
      more := Callback(ran, mid, slot.w, slot.events, steps);
    }

    method NextScript() returns (ops: seq<Op>)
      requires Valid() && scripts != []
      modifies this`scripts
      ensures Valid() && scripts == old(scripts)[1..] && ScriptOk(ops, universe)
      ensures ops == old(scripts)[0]
    {
      ops := scripts[0];
      scripts := scripts[1..];
    }

    method TakeTop() returns (slot: Slot)
      requires Valid() && EmptyAbove(pendings, pendingpri) && pendingpri < NUMPRI && pendings[pendingpri] != []
      modifies this`pendings, this`history, universe`pending, dummy`pending
      ensures Valid() && EmptyAbove(pendings, pendingpri)
      ensures Total(pendings) < Total(old(pendings)) && Drained() == old(Drained())
      ensures history == if slot.w == dummy then old(history) else Then(old(history), Invoked(slot.w, slot.events))
      ensures slot.w != dummy ==> Deliverable(old(history), slot.w, slot.events)
    {
      ghost var h, ps := history, pendings;
      slot := Take(pendingpri);
      TopTaken(ps, pendings, h, history, pendingpri, dummy);
    }

    /** A callback: an arbitrary finite script of operations. */
    method RunScript(ops: seq<Op>) returns (ghost steps: Steps)
      requires Valid() && EmptyAbove(pendings, pendingpri) && pendingpri < NUMPRI
      requires ScriptOk(ops, universe)
      modifies this`pendings, this`pendingpri, this`history, this`scripts
      modifies universe`pending, universe`priority, dummy`pending
      ensures Valid() && EmptyAbove(pendings, pendingpri) && pendingpri < NUMPRI && |scripts| <= |old(scripts)|
      ensures Did(old(Now()), steps, Now()) && OpsOf(steps) == ops
      decreases |scripts|, 6
    {
      ghost var start := Now();
      steps := NoStep;
      for j := 0 to |ops|
        invariant Valid() && EmptyAbove(pendings, pendingpri) && pendingpri < NUMPRI && |scripts| <= |start.scripts|
        invariant Did(start, steps, Now()) && OpsOf(steps) == ops[..j]
      {
        ghost var mid := Now();
        ghost var nested := RunOp(ops[j]);
        steps := Step(steps, mid, ops[j], nested);
        Prefixes(ops, j);
      }
      Whole(ops);
    }

    method RunOp(op: Op) returns (ghost nested: Callbacks)
      requires Valid() && EmptyAbove(pendings, pendingpri) && pendingpri < NUMPRI && OpOk(op, universe)
      modifies this`pendings, this`pendingpri, this`history, this`scripts
      modifies universe`pending, universe`priority, dummy`pending
      ensures Valid() && EmptyAbove(pendings, pendingpri) && pendingpri < NUMPRI && |scripts| <= |old(scripts)|
      ensures OpDone(old(Now()), op, nested, Now())
      decreases |scripts|, 5
    {
      nested := NoCallback;
      match op {
        case FeedOp(w, bits) => assert PointerOk(pendings, w); Feed(w, bits);
        case ClearOp(w) => assert PointerOk(pendings, w) && Told(history, pendings, w); var _ := Clear(w);
        case PriorityOp(w, priority) =>
          assert PointerOk(pendings, w) && Told(history, pendings, w);
          if w.pending == 0 { SetPriority(w, priority); }
        case InvokeOp => nested := InvokePending();
      }
    }

    /** feed_reverse */
    method FeedReverse(w: Watcher)
      modifies this`rfeeds
      ensures rfeeds == old(rfeeds) + [w]
    {
      rfeeds := rfeeds + [w];
    }

    /**
     feed_reverse_done: the last watcher put aside is fed first, so among those that were not
     pending an earlier one ends up above a later one of the same priority.
     */
    method FeedReverseDone(revents: Events, ghost was: seq<nat>)
      requires Valid() && rfeeds != [] && Distinct(rfeeds) && |was| == |rfeeds|
      requires forall w | w in rfeeds :: w in universe && w.PriorityOk()
      requires forall i | 0 <= i < |rfeeds| :: was[i] == rfeeds[i].pending
      modifies this`pendings, this`pendingpri, this`history, this`rfeeds, rfeeds`pending
      ensures Valid() && rfeeds == [] && pendingpri == NUMPRI - 1
      ensures history == FeedAll(old(history), old(rfeeds), 0, revents)
      ensures FedFrom(old(rfeeds), 0, was, old(pendings), pendings)
    {
      while true
        invariant rfeeds != [] && FedDown(old(rfeeds), was, old(pendings), old(history), revents)
        decreases |rfeeds|
      {
        FeedNext(revents, old(rfeeds), was, old(pendings), old(history));
        if rfeeds == [] {
          break;
        }
      }
    }

    /** Of the watchers in all those that are no longer in rfeeds have been fed, the last one first. */
    ghost predicate FedDown(all: seq<Watcher>, was: seq<nat>, start: seq<seq<Slot>>, h0: History, revents: Events)
      reads this`pendings, this`pendingpri, this`scripts, this`history, this`rfeeds
      reads universe`pending, universe`priority, all`pending, all`priority
    {
      && Valid() && rfeeds <= all && Distinct(all)
      && (forall w | w in all :: w in universe && w.PriorityOk())
      && history == FeedAll(h0, all, |rfeeds|, revents)
      && FedFrom(all, |rfeeds|, was, start, pendings)
    }

    /** One round of feed_reverse_done. */
    method FeedNext(revents: Events, ghost all: seq<Watcher>, ghost was: seq<nat>, ghost start: seq<seq<Slot>>,
                    ghost h0: History)
      requires rfeeds != [] && FedDown(all, was, start, h0, revents)
      modifies this`pendings, this`pendingpri, this`history, this`rfeeds, all`pending
      ensures FedDown(all, was, start, h0, revents)
      ensures rfeeds == old(rfeeds)[..|old(rfeeds)| - 1] && pendingpri == NUMPRI - 1
    {
      FeedLast(revents, all, was, start);
    }

    method FeedLast(revents: Events, ghost all: seq<Watcher>, ghost was: seq<nat>, ghost start: seq<seq<Slot>>)
      requires Valid() && rfeeds != [] && rfeeds <= all && Distinct(all)
      requires forall w | w in all :: w in universe && w.PriorityOk()
      requires FedFrom(all, |rfeeds|, was, start, pendings)
      modifies this`pendings, this`pendingpri, this`history, this`rfeeds, all`pending
      ensures Valid() && rfeeds == old(rfeeds)[..|old(rfeeds)| - 1] && pendingpri == NUMPRI - 1
      ensures FedFrom(all, |rfeeds|, was, start, pendings)
      ensures history == Then(old(history), Fed(all[|rfeeds|], all[|rfeeds|].Abspri(), revents))
    {
      var last := |rfeeds| - 1;
      var w := rfeeds[last];
      assert w == all[last] && PointerOk(pendings, w);
      ghost var before := pendings;
      rfeeds := rfeeds[..last];
      Feed(w, revents);
      assert Settled(w, was[last], start, pendings);
      forall j | last < j < |all|
        ensures Settled(all[j], was[j], start, pendings)
        ensures was[last] == 0 && was[j] == 0 ==> Above(w, all[j])
      {
        assert all[j] != w && old(Settled(all[j], was[j], start, before));
      }
    }
  }
}
