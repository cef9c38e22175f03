/**
 The thread pool: a bounded task queue in a ring buffer, and the sections of
 threadpool_add, threadpool_thread, threadpool_destroy and threadpool_free that run
 while the pool's lock is held.
 */
module ThreadPool {

  const INVALID := -1        // threadpool_invalid
  const QUEUE_FULL := -3     // threadpool_queue_full
  const SHUTTING_DOWN := -4  // threadpool_shutdown

  /** A routine and its argument; routine 0 is the null pointer. */
  datatype Task = Task(routine: nat, argument: int)

  /** The `shutdown` field. */
  datatype Mode = Up | Immediate | Graceful

  /** What the lock protects, with the ring buffer seen as a bounded sequence. */
  datatype Pool = Pool(capacity: nat, contents: seq<Task>, mode: Mode, started: int)

  function AddError(p: Pool, t: Task): int {
    if t.routine == 0 then INVALID
    else if |p.contents| == p.capacity then QUEUE_FULL
    else if p.mode != Up then SHUTTING_DOWN
    else 0
  }

  function AfterAdd(p: Pool, t: Task): Pool {
    if AddError(p, t) == 0 then p.(contents := p.contents + [t]) else p
  }

  /** The pool after these tasks were offered to it, one by one. */
  ghost function AfterAdds(p: Pool, ts: seq<Task>): Pool {
    if ts == [] then p else AfterAdd(AfterAdds(p, ts[..|ts| - 1]), ts[|ts| - 1])
  }

  /**
   A pool that is up takes as many tasks as it has room for before a worker looks, in order, and
   refuses the next one because the queue is full.
   */
  lemma {:induction false} TakesUpToCapacity(p: Pool, ts: seq<Task>, t: Task)
    requires p.mode == Up && |p.contents| + |ts| <= p.capacity
    requires t.routine != 0 && forall i | 0 <= i < |ts| :: ts[i].routine != 0
    ensures AfterAdds(p, ts) == p.(contents := p.contents + ts)
    ensures AddError(AfterAdds(p, ts), t) == if |p.contents| + |ts| < p.capacity then 0 else QUEUE_FULL
  {
    if ts == [] {
      assert p.contents + ts == p.contents;
    } else {
      var last := ts[|ts| - 1];
      TakesUpToCapacity(p, ts[..|ts| - 1], last);
      assert p.contents + ts == p.contents + ts[..|ts| - 1] + [last];
    }
  }

  /** What a worker that holds the lock decides to do. */
  datatype Verdict = Wait | Exit | Run(task: Task)

  function VerdictOf(p: Pool): Verdict {
    if p.mode == Up && p.contents == [] then Wait
    else if p.mode == Immediate || p.contents == [] then Exit
    else Run(p.contents[0])
  }

  function AfterVerdict(p: Pool): Pool {
    match VerdictOf(p)
    case Wait => p
    case Exit => p.(started := p.started - 1)
    case Run(_) => p.(contents := p.contents[1..])
  }

  function AfterDestroy(p: Pool, graceful: bool): Pool {
    if p.mode == Up then p.(mode := if graceful then Graceful else Immediate) else p
  }

  function Wrap(i: nat, size: nat): nat {
    if i < size then i else i - size
  }

  /** The count entries of a ring that starts at head. */
  function Ring(q: seq<Task>, head: nat, count: nat): (s: seq<Task>)
    requires count <= |q| && (head < |q| || head == 0)
    ensures |s| == count && forall i | 0 <= i < count :: s[i] == q[Wrap(head + i, |q|)]
  {
    seq(count, i requires 0 <= i < count => q[Wrap(head + i, |q|)])
  }

  function Advance(i: nat, size: nat): nat {
    if i + 1 == size then 0 else i + 1
  }

  lemma RingPop(q: seq<Task>, head: nat, count: nat)
    requires 0 < count <= |q| && head < |q|
    ensures Ring(q, head, count)[0] == q[head]
    ensures Ring(q, Advance(head, |q|), count - 1) == Ring(q, head, count)[1..]
  {
  }

  lemma RingPush(q: seq<Task>, head: nat, count: nat, t: Task)
    requires count < |q| && head < |q|
    ensures
      var tail := Wrap(head + count, |q|);
      Ring(q[tail := t], head, count + 1) == Ring(q, head, count) + [t]
  {
  }

  class ThreadPool {
    const queue: array<Task>
    const queueSize: nat
    var head: nat
    var tail: nat
    var count: nat
    var shutdown: Mode
    var started: int

    ghost predicate Valid()
      reads this
    {
      && queue.Length == queueSize && count <= queueSize
      && (queueSize == 0 ==> head == 0 && tail == 0)
      && (queueSize > 0 ==> head < queueSize)
      && (queueSize > 0 ==> tail == Wrap(head + count, queueSize))
    }

    ghost function Contents(): (s: seq<Task>)
      requires Valid()
      reads this, queue
      ensures |s| == count
    {
      Ring(queue[..], head, count)
    }

    ghost function View(): Pool
      requires Valid()
      reads this, queue
    {
      Pool(queueSize, Contents(), shutdown, started)
    }

    constructor (queueSize: nat)
      ensures Valid() && fresh(queue)
      ensures View() == Pool(queueSize, [], Up, 0)
    {
      this.queueSize := queueSize;
      queue := new Task[queueSize](_ => Task(0, 0));
      head, tail, count := 0, 0, 0;
      shutdown, started := Up, 0;
    }

    /** threadpool_add; signalled says whether the condition variable was signalled. */
    method Add(routine: nat, argument: int) returns (err: int, signalled: bool)
      requires Valid()
      modifies this`tail, this`count, queue
      ensures Valid()
      ensures View() == AfterAdd(old(View()), Task(routine, argument))
      ensures err == AddError(old(View()), Task(routine, argument))
      ensures signalled <==> err == 0
    {
      err, signalled := 0, false;
      if routine == 0 {
        return INVALID, false;
      }
      var next := tail + 1;
      next := if next == queueSize then 0 else next;
      if count == queueSize {
        err := QUEUE_FULL;
      } else if shutdown != Up {
        err := SHUTTING_DOWN;
      } else {
        RingPush(queue[..], head, count, Task(routine, argument));
        queue[tail] := Task(routine, argument);
        tail := next;
        count := count + 1;
        signalled := true;
      }
    }

    /** One pass of a worker through its critical section, up to the wait, the exit or the unlock. */
    method Look() returns (v: Verdict)
      requires Valid()
      modifies this`head, this`count, this`started
      ensures Valid()
      ensures v == VerdictOf(old(View()))
      ensures View() == AfterVerdict(old(View()))
    {
      if count == 0 && shutdown == Up {
        return Wait;
      }
      if shutdown == Immediate || (shutdown == Graceful && count == 0) {
        started := started - 1;
        return Exit;
      }
      RingPop(queue[..], head, count);
      v := Run(queue[head]);
      head := head + 1;
      head := if head == queueSize then 0 else head;
      count := count - 1;
    }

    /** threadpool_destroy up to its unlock. */
    method BeginDestroy(graceful: bool) returns (err: int)
      requires Valid()
      modifies this`shutdown
      ensures Valid()
      ensures View() == AfterDestroy(old(View()), graceful)
      ensures err == if old(shutdown) == Up then 0 else SHUTTING_DOWN
    {
      if shutdown != Up {
        return SHUTTING_DOWN;
      }
      shutdown := if graceful then Graceful else Immediate;
      err := 0;
    }
  }

  // ----- the pool, its workers and its clients as interleaved critical sections -----

  datatype Worker =
    | Ready          // about to take the lock and look at the queue: new, woken, or done with a task
    | Asleep         // in pthread_cond_wait
    | Busy(task: Task)
    | Gone           // has left its loop

  datatype Phase =
    | Creating(target: nat)
    | Open
    | Joining(next: nat)
    | Freed
    | Leaked         // threadpool_free refused

  datatype State = State(
    pool: Pool,
    workers: seq<Worker>,
    threadCount: nat,
    phase: Phase,
    accepted: seq<Task>,        // history: what threadpool_add accepted, in order
    taken: seq<Task>,           // history: what workers took, in order
    finished: multiset<Task>)   // history: what workers completed

  datatype Action =
    | Spawn                        // pthread_create succeeds in threadpool_create
    | SpawnFails                   // ... fails: threadpool_create destroys the pool
    | CountThread                  // thread_count++, started++
    | CreateDone
    | Add(task: Task, woken: nat)  // woken: the sleeper that the signal picks, if there is one
    | Spurious(i: nat)
    | Look(i: nat)
    | Finish(i: nat)
    | Destroy(graceful: bool)
    | Join
    | Free

  ghost predicate Init(s: State) {
    && s.pool.contents == [] && s.pool.mode == Up && s.pool.started == 0
    && s.workers == [] && s.threadCount == 0 && s.phase.Creating?
    && s.accepted == [] && s.taken == [] && s.finished == multiset{}
  }

  ghost predicate Enabled(s: State, a: Action) {
    match a
    case Spawn => s.phase.Creating? && s.threadCount == |s.workers| < s.phase.target
    case SpawnFails => s.phase.Creating? && s.threadCount == |s.workers| < s.phase.target
    case CountThread => s.phase.Creating? && s.threadCount < |s.workers|
    case CreateDone => s.phase.Creating? && s.threadCount == |s.workers| == s.phase.target
    case Add(t, woken) =>
      && (s.phase == Open || s.phase.Joining?)
      && (AddError(s.pool, t) == 0 && Asleep in s.workers ==> woken < |s.workers| && s.workers[woken] == Asleep)
    case Spurious(i) => i < |s.workers| && s.workers[i] == Asleep
    case Look(i) => i < |s.workers| && s.workers[i] == Ready
    case Finish(i) => i < |s.workers| && s.workers[i].Busy?
    case Destroy(graceful) => s.phase == Open
    case Join => s.phase.Joining? && s.phase.next < s.threadCount
                 && s.phase.next < |s.workers| && s.workers[s.phase.next] == Gone
    case Free => s.phase.Joining? && s.phase.next == s.threadCount
  }

  function WakeAll(ws: seq<Worker>): (r: seq<Worker>)
    ensures |r| == |ws|
    ensures forall i | 0 <= i < |ws| :: r[i] == if ws[i] == Asleep then Ready else ws[i]
  {
    seq(|ws|, i requires 0 <= i < |ws| => if ws[i] == Asleep then Ready else ws[i])
  }

  ghost function Step(s: State, a: Action): State
    requires Enabled(s, a)
  {
    match a
    case Spawn => s.(workers := s.workers + [Ready])
    case SpawnFails => StepDestroy(s, false)
    case CountThread => s.(threadCount := s.threadCount + 1, pool := s.pool.(started := s.pool.started + 1))
    case CreateDone => s.(phase := Open)
    case Add(t, woken) => StepAdd(s, t, woken)
    case Spurious(i) => s.(workers := s.workers[i := Ready])
    case Look(i) => StepLook(s, i)
    case Finish(i) => s.(workers := s.workers[i := Ready], finished := s.finished + multiset{s.workers[i].task})
    case Destroy(graceful) => StepDestroy(s, graceful)
    case Join => s.(phase := Joining(s.phase.next + 1))
    case Free => s.(phase := if s.pool.started > 0 then Leaked else Freed)
  }

  ghost function StepAdd(s: State, t: Task, woken: nat): State {
    if AddError(s.pool, t) == 0 then
      s.(pool := AfterAdd(s.pool, t), accepted := s.accepted + [t],
         workers := if woken < |s.workers| && s.workers[woken] == Asleep then s.workers[woken := Ready] else s.workers)
    else s
  }

  ghost function StepLook(s: State, i: nat): State
    requires i < |s.workers|
  {
    var s' := s.(pool := AfterVerdict(s.pool));
    match VerdictOf(s.pool)
    case Wait => s'.(workers := s.workers[i := Asleep])
    case Exit => s'.(workers := s.workers[i := Gone])
    case Run(t) => s'.(workers := s.workers[i := Busy(t)], taken := s.taken + [t])
  }

  ghost function StepDestroy(s: State, graceful: bool): State {
    s.(pool := AfterDestroy(s.pool, graceful), workers := WakeAll(s.workers), phase := Joining(0))
  }

  /** A finite run: an initial state and the actions taken since. */
  datatype Run = Start(state: State) | Then(before: Run, action: Action)

  ghost predicate Legal(r: Run)
    decreases r, 0
  {
    match r
    case Start(s) => Init(s)
    case Then(before, a) => Legal(before) && Enabled(Last(before), a)
  }

  ghost function Last(r: Run): State
    requires Legal(r)
    decreases r, 1
  {
    match r
    case Start(s) => s
    case Then(before, a) => Step(Last(before), a)
  }

  // ----- counting workers -----

  ghost function Count(ws: seq<Worker>, w: Worker): nat {
    if ws == [] then 0 else (if ws[0] == w then 1 else 0) + Count(ws[1..], w)
  }

  ghost function Held(w: Worker): multiset<Task> {
    if w.Busy? then multiset{w.task} else multiset{}
  }

  /** The tasks being executed. */
  ghost function InHand(ws: seq<Worker>): multiset<Task> {
    if ws == [] then multiset{} else Held(ws[0]) + InHand(ws[1..])
  }

  lemma {:induction false} CountUpdate(ws: seq<Worker>, i: nat, new_: Worker, w: Worker)
    requires i < |ws|
    ensures Count(ws[i := new_], w)
            == Count(ws, w) - (if ws[i] == w then 1 else 0) + (if new_ == w then 1 else 0)
  {
    if i > 0 {
      CountUpdate(ws[1..], i - 1, new_, w);
      assert ws[i := new_][1..] == ws[1..][i - 1 := new_];
    }
  }

  lemma {:induction false} InHandUpdate(ws: seq<Worker>, i: nat, new_: Worker)
    requires i < |ws|
    ensures InHand(ws[i := new_]) + Held(ws[i]) == InHand(ws) + Held(new_)
  {
    if i > 0 {
      var rest := ws[1..];
      InHandUpdate(rest, i - 1, new_);
      assert ws[i := new_][1..] == rest[i - 1 := new_];
      calc {
        InHand(ws[i := new_]) + Held(ws[i]);
        Held(ws[0]) + (InHand(rest[i - 1 := new_]) + Held(ws[i]));
        Held(ws[0]) + (InHand(rest) + Held(new_));
        InHand(ws) + Held(new_);
      }
    } else {
      calc {
        InHand(ws[i := new_]) + Held(ws[i]);
        Held(new_) + InHand(ws[1..]) + Held(ws[0]);
        Held(ws[0]) + InHand(ws[1..]) + Held(new_);
      }
    }
  }

  lemma IdleUpdate(ws: seq<Worker>, i: nat, new_: Worker)
    requires i < |ws| && !ws[i].Busy? && !new_.Busy?
    ensures InHand(ws[i := new_]) == InHand(ws)
  {
    InHandUpdate(ws, i, new_);
    assert InHand(ws[i := new_]) + multiset{} == InHand(ws[i := new_]);
    assert InHand(ws) + multiset{} == InHand(ws);
  }

  lemma {:induction false} CountAppend(ws: seq<Worker>, new_: Worker, w: Worker)
    ensures Count(ws + [new_], w) == Count(ws, w) + (if new_ == w then 1 else 0)
    ensures InHand(ws + [new_]) == InHand(ws) + Held(new_)
  {
    if ws != [] {
      CountAppend(ws[1..], new_, w);
      assert (ws + [new_])[1..] == ws[1..] + [new_];
    }
  }

  lemma {:induction false} WakeAllCounts(ws: seq<Worker>)
    ensures Count(WakeAll(ws), Gone) == Count(ws, Gone)
    ensures InHand(WakeAll(ws)) == InHand(ws)
    ensures Asleep !in WakeAll(ws)
  {
    if ws != [] {
      WakeAllCounts(ws[1..]);
      assert WakeAll(ws)[1..] == WakeAll(ws[1..]);
      assert Held(WakeAll(ws)[0]) == Held(ws[0]);
    }
  }

  lemma {:induction false} CountMember(ws: seq<Worker>, w: Worker)
    ensures Count(ws, w) > 0 <==> w in ws
    ensures Count(ws, w) <= |ws|
    ensures Count(ws, w) == |ws| <==> forall i | 0 <= i < |ws| :: ws[i] == w
  {
    if ws != [] {
      CountMember(ws[1..], w);
      assert ws == [ws[0]] + ws[1..];
    }
  }

  // ----- the invariants -----

  /** `started` counts the workers still in their loop, and the phases fit the shutdown mode. */
  ghost predicate CountInv(s: State) {
    && s.pool.started == s.threadCount - Count(s.workers, Gone)
    && (s.pool.mode == Up <==> s.phase.Creating? || s.phase == Open)
    && (s.pool.mode == Up ==> Gone !in s.workers)
    && (s.pool.mode != Up ==> Asleep !in s.workers)
    && (if s.phase.Creating? then s.threadCount <= |s.workers| else s.threadCount == |s.workers|)
  }

  ghost predicate JoinInv(s: State) {
    && (s.phase.Joining? ==> s.phase.next <= |s.workers|
                             && forall i | 0 <= i < s.phase.next :: s.workers[i] == Gone)
    && (s.phase == Freed ==> forall i | 0 <= i < |s.workers| :: s.workers[i] == Gone)
    && s.phase != Leaked
  }

  /** Nothing accepted is lost, duplicated or reordered. */
  ghost predicate QueueInv(s: State) {
    && s.accepted == s.taken + s.pool.contents
    && |s.pool.contents| <= s.pool.capacity
    && (s.phase.Creating? ==> s.accepted == [])
    && (s.workers == [] ==> s.taken == [])
    && forall i | 0 <= i < |s.accepted| :: s.accepted[i].routine != 0
  }

  ghost predicate HandInv(s: State) {
    multiset(s.taken) == s.finished + InHand(s.workers)
  }

  ghost predicate GracefulInv(s: State) {
    s.pool.mode == Graceful && Gone in s.workers ==> s.pool.contents == []
  }

  /** Work conservation: tasks never wait behind a sleeping worker. */
  ghost predicate WorkInv(s: State) {
    s.pool.mode == Up && Asleep in s.workers ==> |s.pool.contents| <= Count(s.workers, Ready)
  }

  ghost predicate Inv(s: State) {
    CountInv(s) && JoinInv(s) && QueueInv(s) && HandInv(s) && GracefulInv(s) && WorkInv(s)
  }

  lemma CountInvStep(s: State, a: Action)
    requires CountInv(s) && Enabled(s, a)
    ensures CountInv(Step(s, a))
  {
    match a
    case Spawn => CountAppend(s.workers, Ready, Gone);
    case SpawnFails => WakeAllCounts(s.workers);
    case Destroy(_) => WakeAllCounts(s.workers);
    case Add(t, woken) => CountInvAdd(s, t, woken);
    case Spurious(i) => CountUpdate(s.workers, i, Ready, Gone);
    case Finish(i) => CountUpdate(s.workers, i, Ready, Gone);
    case Look(i) => CountInvLook(s, i);
    case _ =>
  }

  lemma CountInvAdd(s: State, t: Task, woken: nat)
    requires CountInv(s)
    ensures CountInv(StepAdd(s, t, woken))
  {
    if woken < |s.workers| { CountUpdate(s.workers, woken, Ready, Gone); }
  }

  lemma CountInvLook(s: State, i: nat)
    requires CountInv(s) && i < |s.workers| && s.workers[i] == Ready
    ensures CountInv(StepLook(s, i))
  {
    CountUpdate(s.workers, i, StepLook(s, i).workers[i], Gone);
  }

  lemma JoinInvStep(s: State, a: Action)
    requires JoinInv(s) && CountInv(s) && Enabled(s, a)
    ensures JoinInv(Step(s, a))
  {
    if a == Free {
      CountMember(s.workers, Gone);
    }
  }

  lemma QueueInvStep(s: State, a: Action)
    requires QueueInv(s) && CountInv(s) && Enabled(s, a)
    ensures QueueInv(Step(s, a))
  {
    if a.Look? && VerdictOf(s.pool).Run? {
      assert s.pool.contents == [s.pool.contents[0]] + s.pool.contents[1..];
    }
  }

  lemma HandInvLook(s: State, i: nat)
    requires HandInv(s) && i < |s.workers| && s.workers[i] == Ready
    ensures HandInv(StepLook(s, i))
  {
    match VerdictOf(s.pool)
    case Wait => IdleUpdate(s.workers, i, Asleep);
    case Exit => IdleUpdate(s.workers, i, Gone);
    case Run(t) =>
      InHandUpdate(s.workers, i, Busy(t));
      assert InHand(s.workers[i := Busy(t)]) == InHand(s.workers) + multiset{t};
      assert multiset(s.taken + [t]) == multiset(s.taken) + multiset{t};
  }

  lemma HandInvStep(s: State, a: Action)
    requires HandInv(s) && Enabled(s, a)
    ensures HandInv(Step(s, a))
  {
    match a
    case Spawn =>
      CountAppend(s.workers, Ready, Gone);
      assert InHand(s.workers) + multiset{} == InHand(s.workers);
    case SpawnFails => WakeAllCounts(s.workers);
    case Destroy(_) => WakeAllCounts(s.workers);
    case Add(t, woken) =>
      if woken < |s.workers| && s.workers[woken] == Asleep { IdleUpdate(s.workers, woken, Ready); }
    case Spurious(i) => IdleUpdate(s.workers, i, Ready);
    case Finish(i) =>
      InHandUpdate(s.workers, i, Ready);
      assert InHand(s.workers[i := Ready]) + multiset{s.workers[i].task} == InHand(s.workers);
    case Look(i) => HandInvLook(s, i);
    case _ =>
  }

  lemma GracefulInvStep(s: State, a: Action)
    requires GracefulInv(s) && CountInv(s) && Enabled(s, a)
    ensures GracefulInv(Step(s, a))
  {
  }

  lemma WorkInvStep(s: State, a: Action)
    requires WorkInv(s) && QueueInv(s) && Enabled(s, a)
    ensures WorkInv(Step(s, a))
  {
    match a
    case Spawn => CountAppend(s.workers, Ready, Ready);
    case Add(t, woken) =>
      if woken < |s.workers| { CountUpdate(s.workers, woken, Ready, Ready); }
    case Spurious(i) => CountUpdate(s.workers, i, Ready, Ready);
    case Finish(i) => CountUpdate(s.workers, i, Ready, Ready);
    case Look(i) => CountUpdate(s.workers, i, Step(s, a).workers[i], Ready);
    case _ =>
  }

  lemma InvStep(s: State, a: Action)
    requires Inv(s) && Enabled(s, a)
    ensures Inv(Step(s, a))
  {
    CountInvStep(s, a);
    JoinInvStep(s, a);
    QueueInvStep(s, a);
    HandInvStep(s, a);
    GracefulInvStep(s, a);
    WorkInvStep(s, a);
  }

  /** The invariants hold at the end of every run, hence in every reachable state. */
  lemma {:induction false} InvAlways(r: Run)
    requires Legal(r)
    ensures Inv(Last(r))
  {
    if r.Then? {
      InvAlways(r.before);
      InvStep(Last(r.before), r.action);
    }
  }

  // ----- what holds in every run -----

  /** Before shutdown, no worker sleeps or enough awake workers are about to look at the queue. */
  lemma WorkConservation(r: Run)
    requires Legal(r) && Last(r).pool.mode == Up
    ensures Asleep !in Last(r).workers || Count(Last(r).workers, Ready) >= |Last(r).pool.contents|
  {
    InvAlways(r);
  }

  /**
   Tasks are taken in the order they were accepted, each once, and each is in hand or finished; none
   is a null routine.
   */
  lemma TakenInOrder(r: Run)
    requires Legal(r)
    ensures Last(r).taken <= Last(r).accepted
    ensures Last(r).accepted[|Last(r).taken|..] == Last(r).pool.contents
    ensures multiset(Last(r).taken) == Last(r).finished + InHand(Last(r).workers)
    ensures forall i | 0 <= i < |Last(r).taken| :: Last(r).taken[i].routine != 0
  {
    InvAlways(r);
  }

  /** Once an immediate shutdown has begun no further task is taken. */
  lemma ImmediateTakesNoMore(s: State, a: Action)
    requires Enabled(s, a) && s.pool.mode == Immediate
    ensures Step(s, a).taken == s.taken && Step(s, a).pool.mode == Immediate
    ensures Step(s, a).accepted == s.accepted
  {
  }

  lemma {:induction false} AllGoneHoldNothing(ws: seq<Worker>)
    requires forall i | 0 <= i < |ws| :: ws[i] == Gone
    ensures InHand(ws) == multiset{}
  {
    if ws != [] {
      AllGoneHoldNothing(ws[1..]);
    }
  }

  /** The pool's memory is released only after every worker left its loop and every taken task finished. */
  lemma FreedPoolIsIdle(r: Run)
    requires Legal(r) && Last(r).phase == Freed
    ensures Last(r).pool.started == 0
    ensures Last(r).finished == multiset(Last(r).taken)
  {
    var s := Last(r);
    InvAlways(r);
    CountMember(s.workers, Gone);
    AllGoneHoldNothing(s.workers);
    assert s.finished + multiset{} == s.finished;
  }

  /**
   A graceful destroy has completed every accepted task, in order, exactly when the pool has a
   worker at all or nothing was accepted.
   */
  lemma GracefulDestroyCompletes(r: Run)
    requires Legal(r) && Last(r).phase == Freed && Last(r).pool.mode == Graceful
    ensures
      var s := Last(r);
      s.taken == s.accepted && s.finished == multiset(s.accepted) <==> s.threadCount > 0 || s.accepted == []
  {
    var s := Last(r);
    InvAlways(r);
    FreedPoolIsIdle(r);
    if s.threadCount > 0 {
      assert s.workers[0] == Gone;
    }
  }

  // ----- from the request to its effect -----

  ghost predicate Contains(r: Run, a: Action) {
    r.Then? && (r.action == a || Contains(r.before, a))
  }

  /** r goes on from r0. */
  ghost predicate GoesOn(r: Run, r0: Run) {
    r == r0 || (r.Then? && GoesOn(r.before, r0))
  }

  /** Only a call of destroy, or a failure to create a thread, sets the mode, and only before shutdown. */
  lemma ModeStep(s: State, a: Action)
    requires Enabled(s, a) && CountInv(s)
    ensures
      var mode := Step(s, a).pool.mode;
      match a
      case Destroy(graceful) => s.pool.mode == Up && mode == if graceful then Graceful else Immediate
      case SpawnFails => s.pool.mode == Up && mode == Immediate
      case _ => mode == s.pool.mode
  {
  }

  /** Which shutdown it is was said by the one call that began it. */
  lemma {:induction false} ModeIsRequested(r: Run)
    requires Legal(r)
    ensures Contains(r, Destroy(true)) <==> Last(r).pool.mode == Graceful
    ensures Contains(r, Destroy(false)) || Contains(r, SpawnFails) <==> Last(r).pool.mode == Immediate
  {
    if r.Then? {
      ModeIsRequested(r.before);
      assert CountInv(Last(r.before)) by { InvAlways(r.before); }
      ModeStep(Last(r.before), r.action);
    }
  }

  /**
   A run that called for a graceful destroy, and in which the pool was freed, has completed every
   accepted task, in order, exactly when there was a worker or nothing was accepted.
   */
  lemma GracefulRequestCompletes(r: Run)
    requires Legal(r) && Contains(r, Destroy(true)) && Last(r).phase == Freed
    ensures
      var s := Last(r);
      s.taken == s.accepted && s.finished == multiset(s.accepted) <==> s.workers != [] || s.accepted == []
  {
    ModeIsRequested(r);
    InvAlways(r);
    GracefulDestroyCompletes(r);
  }

  /** From an immediate destroy on, or a failure to create a thread, no task is taken and none accepted. */
  lemma {:induction false} ImmediateRequestStops(r: Run, r0: Run)
    requires Legal(r) && GoesOn(r, r0)
    requires r0.Then? && (r0.action == Destroy(false) || r0.action == SpawnFails)
    ensures Legal(r0) && Last(r).taken == Last(r0).taken && Last(r).accepted == Last(r0).accepted
    ensures Last(r).pool.mode == Immediate
  {
    if r == r0 {
      ModeIsRequested(r);
    } else {
      ImmediateRequestStops(r.before, r0);
      ImmediateTakesNoMore(Last(r.before), r.action);
    }
  }

  // ----- destroying terminates -----

  ghost function Weight(w: Worker): nat {
    match w
    case Ready => 1
    case Asleep => 1
    case Busy(_) => 2
    case Gone => 0
  }

  ghost function Weights(ws: seq<Worker>): nat {
    if ws == [] then 0 else Weight(ws[0]) + Weights(ws[1..])
  }

  lemma {:induction false} WeightsUpdate(ws: seq<Worker>, i: nat, new_: Worker)
    requires i < |ws|
    ensures Weights(ws[i := new_]) == Weights(ws) - Weight(ws[i]) + Weight(new_)
  {
    if i > 0 {
      WeightsUpdate(ws[1..], i - 1, new_);
      assert ws[i := new_][1..] == ws[1..][i - 1 := new_];
    }
  }

  /** The steps a pool still has to make once it is shutting down. */
  ghost function ShutdownWork(s: State): int {
    2 * |s.pool.contents| + Weights(s.workers)
    + match s.phase
      case Joining(next) => 1 + s.threadCount - next
      case _ => 0
  }

  lemma ShutdownLook(s: State, i: nat)
    requires s.pool.mode != Up && i < |s.workers| && s.workers[i] == Ready
    ensures ShutdownWork(StepLook(s, i)) < ShutdownWork(s)
  {
    WeightsUpdate(s.workers, i, StepLook(s, i).workers[i]);
  }

  lemma ShutdownFinish(s: State, i: nat)
    requires Enabled(s, Finish(i))
    ensures ShutdownWork(Step(s, Finish(i))) < ShutdownWork(s)
  {
    WeightsUpdate(s.workers, i, Ready);
  }

  /** During shutdown every step of the pool brings destroy closer to its end and clients cannot push it back. */
  lemma ShutdownProgress(s: State, a: Action)
    requires Inv(s) && s.phase.Joining? && Enabled(s, a)
    ensures 0 <= ShutdownWork(Step(s, a)) && (a.Add? ==> Step(s, a) == s)
    ensures !a.Add? ==> ShutdownWork(Step(s, a)) < ShutdownWork(s)
  {
    match a
    case Look(i) => ShutdownLook(s, i);
    case Finish(i) => ShutdownFinish(s, i);
    case Add(t, woken) => assert AddError(s.pool, t) != 0;
    case _ =>
  }

  /** ... and such a step is possible until the pool is freed. */
  lemma ShutdownNeverStuck(s: State)
    requires Inv(s) && s.phase.Joining?
    ensures exists a: Action :: !a.Add? && Enabled(s, a)
  {
    var i := s.phase.next;
    if i == s.threadCount {
      assert Enabled(s, Free);
    } else {
      match s.workers[i]
      case Ready => assert Enabled(s, Look(i));
      case Busy(_) => assert Enabled(s, Finish(i));
      case Gone => assert Enabled(s, Join);
    }
  }
}
