/** How starting and stopping a timer or a periodic changes the heap it is kept in. */
module TimeHeap {
  import opened Watchers
  import opened Heap
  import ArraySize

  const ENTRY_SIZE := 16

  /** array_needsize: makes room for entry k. */
  method NeedSize(heap: array<Entry>, k: nat, filler: Entry) returns (h: array<Entry>)
    ensures h == heap || fresh(h)
    ensures k < h.Length && heap.Length <= h.Length && h[..heap.Length] == heap[..]
  {
    h := heap;
    if k + 1 > heap.Length {
      var ncur := ArraySize.NextSize(ENTRY_SIZE, heap.Length, k + 1);
      h := new Entry[ncur](_ => filler);
      forall i | 0 <= i < heap.Length {
        h[i] := heap[i];
      }
    }
  }

  /** Puts w's entry after the last one of an n-element heap. */
  method Append(heap: array<Entry>, n: nat, w: Watcher, ghost members: set<Watcher>) returns (h: array<Entry>)
    requires Linked(heap, n, members) && Ordered(heap[..], n) && w !in members && w.active == n + HEAP0
    modifies heap
    ensures h == heap || fresh(h)
    ensures n + HEAP0 < h.Length && h[n + HEAP0] == Entry(w, w.at)
    ensures LinkedBut(h, n + 1, members + {w}, n + HEAP0, h[n + HEAP0])
    ensures TooLow(h[..], n + 1, n + HEAP0)
  {
    h := NeedSize(heap, n + HEAP0, Entry(w, w.at));
    assert SameEntries(old(heap[..]), h[..], n) by {
      assert forall i | 0 <= i < heap.Length :: h[i] == h[..heap.Length][i];
    }
    h[n + HEAP0] := Entry(w, w.at);
    OrderedToo(old(heap[..]), h[..], n);
    LastIsTooLow(h[..], n);
  }

  /** The first n entries of the heap are the same. */
  ghost predicate SameEntries(s: seq<Entry>, t: seq<Entry>, n: nat) {
    forall i | InRange(i, n) && i < |s| && i < |t| :: s[i] == t[i]
  }

  lemma OrderedToo(s: seq<Entry>, t: seq<Entry>, n: nat)
    requires (HEAP0 + n <= |s| || n == 0) && HEAP0 + n <= |t| && SameEntries(s, t, n) && Ordered(s, n)
    ensures Ordered(t, n)
  {
  }

  /** The part of ev_timer_start and ev_periodic_start that enters w into the heap. */
  method Enter(heap: array<Entry>, n: nat, w: Watcher, ghost members: set<Watcher>) returns (h: array<Entry>)
    requires Linked(heap, n, members) && Ordered(heap[..], n) && w !in members
    modifies heap, members`active, w`active
    ensures h == heap || fresh(h)
    ensures Linked(h, n + 1, members + {w}) && Ordered(h[..], n + 1)
  {
    w.active := n + HEAP0;
    h := Append(heap, n, w, members);
    UpHeap(h, n + HEAP0, n + 1, n + 1, members + {w});
  }

  /** Puts the last entry in the place of w's. */
  method Fill(heap: array<Entry>, n: nat, w: Watcher, ghost members: set<Watcher>)
    requires Linked(heap, n, members) && Ordered(heap[..], n) && w in members && w.active < n - 1 + HEAP0
    modifies heap
    ensures Displaced(heap, n - 1, w.active, members - {w})
  {
    var last := n - 1 + HEAP0;
    MovedLast(heap[..], n, w.active);
    assert heap[last].w != w;
    heap[w.active] := heap[last];
    assert heap[..] == old(heap[..])[w.active := old(heap[..])[last]];
  }

  /** The last entry moves to the place of w's, and from there to where it is in order. */
  method Replace(heap: array<Entry>, n: nat, w: Watcher, ghost members: set<Watcher>)
    requires Linked(heap, n, members) && Ordered(heap[..], n) && w in members && w.active < n - 1 + HEAP0
    modifies heap, members`active
    ensures Linked(heap, n - 1, members - {w}) && Ordered(heap[..], n - 1)
  {
    var k := w.active;
    Fill(heap, n, w, members);
    AdjustHeap(heap, n - 1, k, members - {w});
  }

  /** The part of ev_timer_stop and ev_periodic_stop that takes w out of the heap. */
  method Leave(heap: array<Entry>, n: nat, w: Watcher, ghost members: set<Watcher>)
    requires Linked(heap, n, members) && Ordered(heap[..], n) && w in members
    modifies heap, members`active
    ensures Linked(heap, n - 1, members - {w}) && Ordered(heap[..], n - 1)
  {
    if w.active >= n - 1 + HEAP0 {
      WithoutLast(heap, n, w, members);
      return;
    }
    Replace(heap, n, w, members);
  }

  /** The heap without its last entry is a heap. */
  lemma WithoutLast(heap: array<Entry>, n: nat, w: Watcher, members: set<Watcher>)
    requires Linked(heap, n, members) && Ordered(heap[..], n) && w in members && w.active >= n - 1 + HEAP0
    ensures Linked(heap, n - 1, members - {w}) && Ordered(heap[..], n - 1)
  {
    assert InRange(w.active, n) && heap[w.active].w == w;
    forall i | InRange(i, n - 1) ensures heap[i].w in members - {w} {
      assert heap[i].w.active == i;
    }
    forall v | v in members - {w} ensures InRange(v.active, n - 1) {
      assert heap[v.active].w == v;
    }
  }

  lemma MovedLast(s: seq<Entry>, n: nat, k: int)
    requires n > 0 && HEAP0 + n <= |s| && Ordered(s, n) && InRange(k, n - 1)
    ensures Misplaced(s[k := s[HEAP0 + n - 1]], n - 1, k)
  {
  }

  /** Any entry may be replaced: what was in order around it still is. */
  lemma Replaced(s: seq<Entry>, n: nat, k: int, he: Entry)
    requires HEAP0 + n <= |s| && Ordered(s, n) && InRange(k, n)
    ensures Misplaced(s[k := he], n, k) && (k == HEAP0 ==> TooHigh(s[k := he], n, k))
  {
    forall i | HEAP0 < i < HEAP0 + n && HParent(i) == k && k > HEAP0
      ensures s[HParent(k)].at <= s[i].at
    {
      assert s[HParent(k)].at <= s[k].at <= s[i].at;
    }
  }

  /** ANHE_at_cache, for a watcher whose time has just been set. */
  method Recache(heap: array<Entry>, n: nat, w: Watcher, at: real, ghost members: set<Watcher>)
    requires Linked(heap, n, members) && Ordered(heap[..], n) && w in members
    modifies heap, w`at
    ensures w.at == at && Displaced(heap, n, w.active, members)
    ensures w.active == HEAP0 ==> TooHigh(heap[..], n, HEAP0)
  {
    Replaced(heap[..], n, w.active, Entry(w, at));
    w.at := at;
    heap[w.active] := Entry(w, w.at);
    assert heap[..] == old(heap[..])[w.active := Entry(w, at)];
  }

  /** A member gets another time, and the heap is put back in order by adjustheap. */
  method SetTime(heap: array<Entry>, n: nat, w: Watcher, at: real, ghost members: set<Watcher>)
    requires Linked(heap, n, members) && Ordered(heap[..], n) && w in members
    modifies heap, members`active, w`at
    ensures Linked(heap, n, members) && Ordered(heap[..], n) && w.at == at
  {
    Recache(heap, n, w, at, members);
    AdjustHeap(heap, n, w.active, members);
  }

  /** The root gets another time, and the heap is put back in order by downheap. */
  method SetRootTime(heap: array<Entry>, n: nat, at: real, ghost members: set<Watcher>)
    requires Linked(heap, n, members) && Ordered(heap[..], n) && n > 0
    modifies heap, members`active, heap[HEAP0].w`at
    ensures Linked(heap, n, members) && Ordered(heap[..], n) && old(heap[HEAP0].w).at == at
  {
    Recache(heap, n, heap[HEAP0].w, at, members);
    DownHeap(heap, n, HEAP0, members);
  }
}
