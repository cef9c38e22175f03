/** The growth policy of the event loop's arrays. */
module ArraySize {

  const MALLOC_ROUND := 4096
  const OVERHEAD := 32  // sizeof (void *) * 4

  function Max(a: int, b: int): int {
    if a < b then b else a
  }

  /** A number of entries to grow to, with room for the allocator's own bookkeeping. */
  ghost predicate FitsChunk(elem: nat, n: nat) {
    exists chunks: nat :: elem * n + OVERHEAD <= chunks * MALLOC_ROUND < elem * n + OVERHEAD + elem
  }

  lemma Scaled(elem: nat, n: nat, m: nat)
    requires n <= m
    ensures elem * n <= elem * m
  {
  }

  lemma RoundedUp(elem: nat, n: nat) returns (chunks: nat)
    requires elem > 0
    ensures
      var bytes := n * elem + elem + (MALLOC_ROUND - 1) + OVERHEAD;
      && bytes - bytes % MALLOC_ROUND == chunks * MALLOC_ROUND
      && n * elem + elem + OVERHEAD <= chunks * MALLOC_ROUND
  {
    var bytes := n * elem + elem + (MALLOC_ROUND - 1) + OVERHEAD;
    chunks := bytes / MALLOC_ROUND;
  }

  lemma DivideBack(elem: nat, n: nat, size: nat)
    requires elem > 0 && n * elem + elem <= size
    ensures size / elem >= n + 1
    ensures elem * (size / elem) <= size < elem * (size / elem) + elem
  {
    assert size == elem * (size / elem) + size % elem;
  }

  /**
   array_nextsize, without int overflow: room for cnt entries and at least double the old
   capacity; a large array fills a whole number of allocation chunks up to less than one entry.
   */
  method NextSize(elem: nat, cur: nat, cnt: nat) returns (ncur: nat)
    requires elem > 0
    ensures ncur >= cnt && ncur >= 2 * (cur + 1)
    ensures elem * ncur <= MALLOC_ROUND - OVERHEAD || FitsChunk(elem, ncur)
    ensures elem * ncur < elem * (2 * Max(cnt, cur + 1)) + elem + MALLOC_ROUND
  {
    ncur := cur + 1;
    ncur := ncur * 2;
    while cnt > ncur
      invariant 2 * (cur + 1) <= ncur <= 2 * Max(cnt, cur + 1)
      decreases cnt - ncur
    {
      ncur := ncur * 2;
    }
    Scaled(elem, ncur, 2 * Max(cnt, cur + 1));
    if elem * ncur > MALLOC_ROUND - OVERHEAD {
      ghost var n := ncur;
      var bytes := ncur * elem;
      bytes := bytes + elem + (MALLOC_ROUND - 1) + OVERHEAD;
      bytes := bytes - bytes % MALLOC_ROUND;
      ghost var chunks := RoundedUp(elem, n);
      bytes := bytes - OVERHEAD;
      DivideBack(elem, n, bytes);
      ncur := bytes / elem;
      assert elem * ncur + OVERHEAD <= chunks * MALLOC_ROUND < elem * ncur + OVERHEAD + elem;
    }
  }
}
