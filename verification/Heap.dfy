/**
 The 4-ary heap of time watchers. Every heap entry caches its watcher's time, and every
 watcher holds the index of its entry in `active`; heap[HEAP0] is the first entry.
 */
module Heap {
  import opened Watchers

  const DHEAP := 4
  const HEAP0 := 3

  /** A heap entry (ANHE): a watcher and its cached time. */
  datatype Entry = Entry(w: Watcher, at: real)

  /** C division truncates toward zero. */
  function CDiv(a: int, b: int): int
    requires b > 0
  {
    if a >= 0 then a / b else -(-a / b)
  }

  /** HPARENT; the root is its own parent, because -1 / 4 truncates to 0. */
  function HParent(k: int): (p: int)
    requires HEAP0 <= k
    ensures p == k <==> k == HEAP0
    ensures HEAP0 <= p <= k
    ensures k > HEAP0 ==> Child(p, 0) <= k <= Child(p, 3)
  {
    CDiv(k - HEAP0 - 1, DHEAP) + HEAP0
  }

  /** The index of the j-th child of k. */
  function Child(k: int, j: int): int {
    DHEAP * (k - HEAP0) + HEAP0 + 1 + j
  }

  lemma ParentOfChild(k: int, j: int)
    requires HEAP0 <= k && 0 <= j < DHEAP
    ensures HEAP0 < Child(k, j) && k < Child(k, j) && HParent(Child(k, j)) == k
  {
  }

  /** The entries of the n-element heap lie within the array. */
  predicate InRange(k: int, n: nat) {
    HEAP0 <= k < HEAP0 + n
  }

  /**
   heap[HEAP0..HEAP0+n] holds exactly the given members, each linked to its entry both ways
   and with its time cached.
   */
  ghost predicate Linked(heap: array<Entry>, n: nat, members: set<Watcher>)
    reads heap, members`active, members`at
  {
    && (HEAP0 + n <= heap.Length || n == 0)
    && (forall i {:trigger heap[i]} | InRange(i, n) :: heap[i].w in members)
    && (forall i {:trigger heap[i]} | InRange(i, n) :: heap[i].w.active == i && heap[i].at == heap[i].w.at)
    && (forall w {:trigger w in members} | w in members :: InRange(w.active, n) && heap[w.active].w == w)
  }

  /** The same for an array whose entry k is out of place and belongs to he. */
  ghost predicate LinkedBut(heap: array<Entry>, n: nat, members: set<Watcher>, k: int, he: Entry)
    reads heap, members`active, members`at
  {
    && HEAP0 + n <= heap.Length && InRange(k, n)
    && he.w in members && he.at == he.w.at
    && (forall i {:trigger heap[i]} | InRange(i, n) && i != k :: heap[i].w in members && heap[i].w != he.w)
    && (forall i {:trigger heap[i]} | InRange(i, n) && i != k :: heap[i].w.active == i && heap[i].at == heap[i].w.at)
    && (forall w {:trigger w in members} | w in members && w != he.w ::
          InRange(w.active, n) && w.active != k && heap[w.active].w == w)
  }

  /** No entry is due before its parent. */
  ghost predicate Ordered(s: seq<Entry>, n: nat)
    requires HEAP0 + n <= |s| || n == 0
  {
    forall i | HEAP0 < i < HEAP0 + n :: s[HParent(i)].at <= s[i].at
  }

  /** Entry k may be due after its children, but all else is in order, also around k. */
  ghost predicate TooHigh(s: seq<Entry>, n: nat, k: int)
    requires HEAP0 + n <= |s| && InRange(k, n)
  {
    && (forall i | HEAP0 < i < HEAP0 + n && HParent(i) != k :: s[HParent(i)].at <= s[i].at)
    && (forall i | HEAP0 < i < HEAP0 + n && HParent(i) == k && k > HEAP0 :: s[HParent(k)].at <= s[i].at)
  }

  /** Entry k may be due before its parent, but all else is in order, also around k. */
  ghost predicate TooLow(s: seq<Entry>, n: nat, k: int)
    requires HEAP0 + n <= |s| && InRange(k, n)
  {
    && (forall i | HEAP0 < i < HEAP0 + n && i != k :: s[HParent(i)].at <= s[i].at)
    && (forall i | HEAP0 < i < HEAP0 + n && HParent(i) == k && k > HEAP0 :: s[HParent(k)].at <= s[i].at)
  }

  function Swapped(s: seq<Entry>, i: int, j: int): (r: seq<Entry>)
    requires 0 <= i < |s| && 0 <= j < |s|
    ensures |r| == |s|
  {
    s[i := s[j]][j := s[i]]
  }

  lemma SwapUp(s: seq<Entry>, n: nat, k: int)
    requires HEAP0 + n <= |s| && InRange(k, n) && k > HEAP0
    requires TooLow(s, n, k) && s[k].at < s[HParent(k)].at
    ensures TooLow(Swapped(s, k, HParent(k)), n, HParent(k))
  {
    var p, t := HParent(k), Swapped(s, k, HParent(k));
    forall i | HEAP0 < i < HEAP0 + n && i != p
      ensures t[HParent(i)].at <= t[i].at
    {
      assert HParent(i) != k ==> s[HParent(i)].at <= s[i].at || i == k;
    }
    forall i | HEAP0 < i < HEAP0 + n && HParent(i) == p && p > HEAP0
      ensures t[HParent(p)].at <= t[i].at
    {
      assert s[HParent(p)].at <= s[p].at;
    }
  }

  lemma SwapDown(s: seq<Entry>, n: nat, k: int, c: int)
    requires HEAP0 + n <= |s| && InRange(k, n) && InRange(c, n) && c > HEAP0 && HParent(c) == k
    requires TooHigh(s, n, k) && s[c].at < s[k].at
    requires forall i | HEAP0 < i < HEAP0 + n && HParent(i) == k :: s[c].at <= s[i].at
    ensures TooHigh(Swapped(s, k, c), n, c)
  {
    var t := Swapped(s, k, c);
    forall i | HEAP0 < i < HEAP0 + n && HParent(i) != c
      ensures t[HParent(i)].at <= t[i].at
    {
      if i == k { assert s[HParent(k)].at <= s[c].at; }
    }
    forall i | HEAP0 < i < HEAP0 + n && HParent(i) == c
      ensures t[HParent(c)].at <= t[i].at
    {
      assert s[c].at <= s[i].at;
    }
  }

  /** The root of an ordered heap is due first. */
  lemma {:induction false} RootIsMin(s: seq<Entry>, n: nat, i: int)
    requires HEAP0 + n <= |s| && Ordered(s, n) && InRange(i, n)
    ensures s[HEAP0].at <= s[i].at
  {
    if i > HEAP0 {
      RootIsMin(s, n, HParent(i));
    }
  }

  /** Apart from the vacant place k, which he will take, the array holds s. */
  ghost predicate Holds(heap: array<Entry>, s: seq<Entry>, k: int, he: Entry)
    reads heap
  {
    && |s| == heap.Length && 0 <= k < |s| && s[k] == he
    && (forall i | 0 <= i < |s| && i != k :: heap[i] == s[i])
  }

  /** Moves entry p into the vacant place k. */
  method Move(heap: array<Entry>, k: int, p: int, ghost n: nat, ghost members: set<Watcher>,
              ghost he: Entry, ghost s: seq<Entry>)
    requires LinkedBut(heap, n, members, k, he) && Holds(heap, s, k, he) && InRange(p, n) && p != k
    modifies heap, members`active
    ensures LinkedBut(heap, n, members, p, he)
    ensures Holds(heap, Swapped(s, k, p), p, he)
  {
    heap[k] := heap[p];
    heap[k].w.active := k;
  }

  /** Puts he into the vacant place k. */
  method Place(heap: array<Entry>, k: int, he: Entry, ghost n: nat, ghost members: set<Watcher>, ghost s: seq<Entry>)
    requires LinkedBut(heap, n, members, k, he) && Holds(heap, s, k, he)
    modifies heap, members`active
    ensures Linked(heap, n, members)
    ensures heap[..] == s
  {
    heap[k] := he;
    he.w.active := k;
  }

  lemma SettledUp(s: seq<Entry>, n: nat, k: int)
    requires HEAP0 + n <= |s| && InRange(k, n) && TooLow(s, n, k)
    requires k == HEAP0 || s[HParent(k)].at <= s[k].at
    ensures Ordered(s, n)
  {
  }

  lemma SettledDown(s: seq<Entry>, n: nat, k: int)
    requires HEAP0 + n <= |s| && InRange(k, n) && TooHigh(s, n, k)
    requires forall i | HEAP0 < i < HEAP0 + n && HParent(i) == k :: s[k].at <= s[i].at
    ensures Ordered(s, n)
  {
  }

  /**
   upheap: entry k0, possibly due before its parent, travels towards the root. Only the first m
   of the n entries need to be in order.
   */
  method UpHeap(heap: array<Entry>, k0: int, ghost m: nat, ghost n: nat, ghost members: set<Watcher>)
    requires m <= n && HEAP0 + n <= heap.Length && InRange(k0, m)
    requires LinkedBut(heap, n, members, k0, heap[k0])
    requires TooLow(heap[..], m, k0)
    modifies heap, members`active
    ensures Linked(heap, n, members) && Ordered(heap[..], m)
  {
    var k := k0;
    var he := heap[k];
    ghost var s := heap[..];
    while true
      invariant InRange(k, m) && LinkedBut(heap, n, members, k, he)
      invariant Holds(heap, s, k, he)
      invariant TooLow(s, m, k)
      decreases k
    {
      var p := HParent(k);
      if p == k || heap[p].at <= he.at {
        SettledUp(s, m, k);
        break;
      }
      SwapUp(s, m, k);
      Move(heap, k, p, n, members, he, s);
      s := Swapped(s, k, p);
      k := p;
    }
    Place(heap, k, he, n, members, s);
  }

  /** The child of k that is due first: the search at the top of downheap's loop. */
  method MinChild(heap: array<Entry>, N: nat, k: int, ghost s: seq<Entry>, ghost he: Entry) returns (c: int)
    requires HEAP0 + N <= heap.Length && InRange(k, N) && Child(k, 0) < HEAP0 + N
    requires Holds(heap, s, k, he)
    ensures InRange(c, N) && c > HEAP0 && HParent(c) == k
    ensures heap[c] == s[c] && forall i | HEAP0 < i < HEAP0 + N && HParent(i) == k :: s[c].at <= s[i].at
  {
    var pos := Child(k, 0);
    var E := HEAP0 + N;
    c := pos;
    if pos + DHEAP - 1 < E {
      if heap[pos + 1].at < heap[c].at { c := pos + 1; }
      if heap[pos + 2].at < heap[c].at { c := pos + 2; }
      if heap[pos + 3].at < heap[c].at { c := pos + 3; }
    } else {
      if pos + 1 < E && heap[pos + 1].at < heap[c].at { c := pos + 1; }
      if pos + 2 < E && heap[pos + 2].at < heap[c].at { c := pos + 2; }
      // the source's test of pos + 3 is left out: here pos + 3 >= E
    }
    ParentOfChild(k, c - pos);
  }

  /** downheap: entry k0, possibly due after its children, travels away from the root. */
  method DownHeap(heap: array<Entry>, N: nat, k0: int, ghost members: set<Watcher>)
    requires HEAP0 + N <= heap.Length && InRange(k0, N)
    requires LinkedBut(heap, N, members, k0, heap[k0])
    requires TooHigh(heap[..], N, k0)
    modifies heap, members`active
    ensures Linked(heap, N, members) && Ordered(heap[..], N)
  {
    var k := k0;
    var he := heap[k];
    ghost var s := heap[..];
    while true
      invariant LinkedBut(heap, N, members, k, he)
      invariant Holds(heap, s, k, he)
      invariant TooHigh(s, N, k)
      decreases HEAP0 + N - k
    {
      if Child(k, 0) >= HEAP0 + N {
        SettledDown(s, N, k);
        break;
      }
      var c := MinChild(heap, N, k, s, he);
      if he.at <= heap[c].at {
        SettledDown(s, N, k);
        break;
      }
      SwapDown(s, N, k, c);
      Move(heap, k, c, N, members, he, s);
      s := Swapped(s, k, c);
      k := c;
    }
    Place(heap, k, he, N, members, s);
  }

  /** adjustheap: entry k may be due before its parent or after its children. */
  method AdjustHeap(heap: array<Entry>, N: nat, k: int, ghost members: set<Watcher>)
    requires Displaced(heap, N, k, members)
    modifies heap, members`active
    ensures Linked(heap, N, members) && Ordered(heap[..], N)
  {
    if k > HEAP0 && heap[k].at <= heap[HParent(k)].at {
      assert TooLow(heap[..], N, k);
      UpHeap(heap, k, N, N, members);
    } else {
      assert TooHigh(heap[..], N, k);
      DownHeap(heap, N, k, members);
    }
  }

  /** All is in order but for the pairs that entry k takes part in, and in order around k. */
  ghost predicate Misplaced(s: seq<Entry>, n: nat, k: int)
    requires HEAP0 + n <= |s| && InRange(k, n)
  {
    && (forall i | HEAP0 < i < HEAP0 + n && i != k && HParent(i) != k :: s[HParent(i)].at <= s[i].at)
    && (forall i | HEAP0 < i < HEAP0 + n && HParent(i) == k && k > HEAP0 :: s[HParent(k)].at <= s[i].at)
  }

  /** A heap in order but for its entry k. */
  ghost predicate Displaced(heap: array<Entry>, n: nat, k: int, members: set<Watcher>)
    reads heap, members`active, members`at
  {
    && HEAP0 + n <= heap.Length && InRange(k, n)
    && LinkedBut(heap, n, members, k, heap[k]) && Misplaced(heap[..], n, k)
  }

  lemma LastIsTooLow(s: seq<Entry>, n: nat)
    requires HEAP0 + n + 1 <= |s| && Ordered(s, n)
    ensures TooLow(s, n + 1, HEAP0 + n)
  {
  }

  /** reheap: puts a heap whose times changed arbitrarily back in order. */
  method ReHeap(heap: array<Entry>, N: nat, ghost members: set<Watcher>)
    requires Linked(heap, N, members)
    modifies heap, members`active
    ensures Linked(heap, N, members) && Ordered(heap[..], N)
  {
    var i := 0;
    while i < N
      invariant i <= N && Linked(heap, N, members) && Ordered(heap[..], i)
    {
      LastIsTooLow(heap[..], i);
      UpHeap(heap, i + HEAP0, i + 1, N, members);
      i := i + 1;
    }
  }
}
