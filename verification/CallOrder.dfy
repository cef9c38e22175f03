/** The order in which the pending queues will deliver their callbacks. */
module CallOrder {
  import opened Watchers
  import opened Pending

  /** How many callbacks the slots above slot i of queue q give. */
  ghost function CallsAbove(q: seq<Slot>, i: nat, dummy: Watcher): nat
    requires i < |q|
  {
    if i == |q| - 1 then 0
    else (if q[|q| - 1].w == dummy then 0 else 1) + CallsAbove(q[..|q| - 1], i, dummy)
  }

  /** Slot i gives the callback after those of the slots above it. */
  lemma {:induction false} SlotIsCalled(q: seq<Slot>, i: nat, dummy: Watcher)
    requires i < |q| && q[i].w != dummy
    ensures CallsAbove(q, i, dummy) < |Calls(q, dummy)|
    ensures Calls(q, dummy)[CallsAbove(q, i, dummy)] == Invoked(q[i].w, q[i].events)
  {
    if i < |q| - 1 {
      SlotIsCalled(q[..|q| - 1], i, dummy);
    }
  }

  /** A slot nearer to the top gives the earlier callback. */
  lemma {:induction false} HigherIsEarlier(q: seq<Slot>, i: nat, j: nat, dummy: Watcher)
    requires i < j < |q| && q[j].w != dummy
    ensures CallsAbove(q, j, dummy) < CallsAbove(q, i, dummy)
  {
    if j < |q| - 1 {
      HigherIsEarlier(q[..|q| - 1], i, j, dummy);
    }
  }

  /** The callbacks of queues before less urgent ones are where they were. */
  lemma {:induction false} QueueWithinAll(ps: seq<seq<Slot>>, p: nat, top: nat, dummy: Watcher) returns (start: nat)
    requires p <= top < |ps|
    ensures
      var all, calls := CallsFrom(ps, top, dummy), Calls(ps[p], dummy);
      start + |calls| <= |all| && forall k | 0 <= k < |calls| :: all[start + k] == calls[k]
    decreases top
  {
    if p == top {
      start := 0;
    } else {
      start := QueueWithinAll(ps, p, top - 1, dummy);
      start := start + |Calls(ps[top], dummy)|;
    }
  }

  /** A callback for v, with the bits waiting for it, comes before one for w. */
  ghost predicate Precedes(calls: seq<Event>, v: Event, w: Event) {
    exists a, b :: 0 <= a < b < |calls| && calls[a] == v && calls[b] == w
  }

  /** Of two pending watchers in one queue the one nearer to the top is called first. */
  lemma AboveIsCalledFirst(ps: seq<seq<Slot>>, v: Watcher, w: Watcher, universe: set<Watcher>, dummy: Watcher)
    requires Inverse(ps, universe, dummy) && v in universe && w in universe
    requires v.priority == w.priority && v.pending > w.pending > 0
    ensures Precedes(AllCalls(ps, dummy), Invoked(v, Waiting(ps, v)), Invoked(w, Waiting(ps, w)))
  {
    assert PointerOk(ps, v) && PointerOk(ps, w);
    var p := v.Abspri();
    var i, j := w.pending - 1, v.pending - 1;
    SlotIsCalled(ps[p], i, dummy);
    SlotIsCalled(ps[p], j, dummy);
    HigherIsEarlier(ps[p], i, j, dummy);
    var start := QueueWithinAll(ps, p, |ps| - 1, dummy);
    var a, b := start + CallsAbove(ps[p], j, dummy), start + CallsAbove(ps[p], i, dummy);
    assert AllCalls(ps, dummy)[a] == Invoked(v, Waiting(ps, v));
    assert AllCalls(ps, dummy)[b] == Invoked(w, Waiting(ps, w));
  }

  /** Every pending watcher will be called, with the bits waiting for it. */
  lemma PendingIsCalled(ps: seq<seq<Slot>>, v: Watcher, universe: set<Watcher>, dummy: Watcher)
    requires Inverse(ps, universe, dummy) && v in universe && v.pending > 0
    ensures Invoked(v, Waiting(ps, v)) in AllCalls(ps, dummy)
  {
    assert PointerOk(ps, v);
    var p, i := v.Abspri(), v.pending - 1;
    SlotIsCalled(ps[p], i, dummy);
    var start := QueueWithinAll(ps, p, |ps| - 1, dummy);
    assert AllCalls(ps, dummy)[start + CallsAbove(ps[p], i, dummy)] == Invoked(v, Waiting(ps, v));
  }
}
