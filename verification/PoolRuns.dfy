/** Whole runs of the pool: the invariant of every reachable state and the theorems about runs. */
module PoolRuns {
  import opened Sums
  import opened PoolModel
  import opened PoolLocks
  import opened PoolMask
  import opened PoolCounters
  import opened PoolItems
  import opened PoolWakeup
  import opened PoolManager

  ghost predicate Inv(s: State) {
    && BaseOk(s)
    && AwakeOk(s) && ScanOk(s)
    && ManagerOk(s)
    && FifoOk(s) && ExitsOk(s)
    && AllOwned(s)
  }

  ghost predicate Next(s: State, n: State) {
    exists t: nat, c: Choice :: CanStep(s, t, c) && n == Step(s, t, c)
  }

  /** A run: any number of steps from an initial state, by any threads in any order. */
  ghost predicate IsRun(run: seq<State>) {
    && run != []
    && Init(run[0])
    && (forall i :: 0 <= i < |run| - 1 ==> NextAt(run, i))
  }

  ghost predicate NextAt(run: seq<State>, i: nat)
    requires i < |run| - 1
  {
    Next(run[i], run[i + 1])
  }

  lemma InitBase(s: State)
    requires Init(s)
    ensures BaseOk(s) && FifoOk(s) && ManagerOk(s)
  {
    assert WellShaped(s);
    SumZero(IdleW, s.threads);
    SumZero(CountW, s.threads);
    SumZero(PendingW, s.threads);
    SumZero(SpinningW, s.threads);
    SumZero(LoopingW, s.threads);
  }

  lemma InitWakeup(s: State)
    requires Init(s) && WellShaped(s)
    ensures AwakeOk(s) && ScanOk(s) && ExitsOk(s)
  {
    SumZero(BlockedW, s.threads);
    SumZero(MakingW, s.threads);
    SumZero(RetiredW, s.threads);
  }

  lemma InitOwners(s: State)
    requires Init(s)
    ensures AllOwned(s)
  {
    forall x: nat ensures OwnerOk(s, x) {
      SumZero(HoldsW(x), s.threads);
      SumZero(ListW(x), s.lists);
    }
  }

  lemma InitInv(s: State)
    requires Init(s)
    ensures Inv(s)
  {
    InitBase(s);
    InitWakeup(s);
    InitOwners(s);
  }

  lemma InvStep(s: State, t: nat, c: Choice)
    requires CanStep(s, t, c) && Inv(s)
    ensures Inv(Step(s, t, c))
  {
    LocksStep(s, t, c);
    MaskStep(s, t, c);
    CountersStep(s, t, c);
    ItemsStep(s, t, c);
    WakeupStep(s, t, c);
    ManagerStep(s, t, c);
    FifoStep(s, t, c);
    ExitsStep(s, t, c);
    AllOwnedStep(s, t, c);
  }

  lemma InvNext(s: State, n: State)
    requires Next(s, n) && Inv(s)
    ensures Inv(n)
  {
    var t: nat, c: Choice :| CanStep(s, t, c) && n == Step(s, t, c);
    InvStep(s, t, c);
  }

  lemma InvFirst(run: seq<State>)
    requires IsRun(run)
    ensures Inv(run[0])
  {
    InitInv(run[0]);
  }

  lemma InvAfter(run: seq<State>, i: nat)
    requires IsRun(run) && i + 1 < |run| && Inv(run[i])
    ensures Inv(run[i + 1])
  {
    assert NextAt(run, i);
    InvNext(run[i], run[i + 1]);
  }

  /** Every state of every run satisfies the invariant. */
  lemma {:induction false} Reachable(run: seq<State>, i: nat)
    requires IsRun(run) && i < |run|
    ensures Inv(run[i])
  {
    if i == 0 {
      InvFirst(run);
    } else {
      Reachable(run, i - 1);
      InvAfter(run, i - 1);
    }
  }

  /** No lost wakeup, in every run: when regular work is queued, every producer is past its signal, and
      some worker is blocked on the condition, then the awake workers that will scan again, with the
      one an exit item's signal is about to wake, outnumber the queued exit items.  Once the manager
      is past its signal too, the awake workers alone do, and there is such a worker. */
  lemma NeverAllAsleep(run: seq<State>, i: nat) returns (u: nat)
    requires IsRun(run) && i < |run| && WellShaped(run[i])
    requires RegularQueued(run[i]) && 0 < BlockedWorkers(run[i]) && Windows(run[i]) == 0
    ensures 0 <= Exits(run[i]) < FreeWorkers(run[i]) + StopWindows(run[i])
    ensures StopWindows(run[i]) == 0 ==> u < |run[i].threads| && FreeW(run[i].threads[u]) == 1
  {
    Reachable(run, i);
    var s := run[i];
    FirstQueueExists(s);
    SumNonNegative(ExitW, s.lists[First(s.cfg.queues)]);
    if StopWindows(s) == 0 {
      u := SumWitness(FreeW, s.threads);
    } else {
      u := 0;
    }
  }

  // Deadlock

  /** A thread inside a spin-locked section waits for nothing. */
  lemma SpinHolderRuns(s: State, u: nat, c: Choice)
    requires WellShaped(s) && u < |s.threads| && 0 <= SpinOf(s.cfg, s.threads[u])
    ensures CanStep(s, u, c) && Plan(s, u, c).pc != s.threads[u]
  {
    FirstQueueExists(s);
  }

  /** A thread that holds the mutex waits at most for a spin lock. */
  lemma MutexHolderRuns(s: State, u: nat, c: Choice)
    requires WellShaped(s) && u < |s.threads| && HasMutex(s.threads[u])
    requires Possible(s, Signal(c.woken))
    ensures Plan(s, u, c).pc != s.threads[u]
    ensures CanStep(s, u, c) || (Plan(s, u, c).effect.SpinAcquire? && Plan(s, u, c).effect.q < SLOTS)
  {
    FirstQueueExists(s);
  }

  /** A choice under which a signal can be sent. */
  lemma SomeWaiter(s: State) returns (c: Choice)
    requires WellShaped(s)
    ensures Possible(s, Signal(c.woken))
  {
    if w :| 0 <= w < |s.threads| && s.threads[w] == Worker(Blocked) {
      c := Choice(DoNothing, 0, w, false);
    } else {
      c := Choice(DoNothing, 0, 0, false);
    }
  }

  /** Thread `t` waits for a lock that `u` owns, or for the mutex, whose owner waits for a spin lock that
      `u` owns. */
  predicate WaitsOn(s: State, t: nat, c: Choice, u: nat, d: Choice)
    requires WellShaped(s) && t < |s.threads|
  {
    var e := Plan(s, t, c).effect;
    || (e.SpinAcquire? && e.q < SLOTS && s.spin[e.q] == Held(u))
    || (e.MutexAcquire? && s.mutex == Held(u))
    || (e.MutexAcquire? && s.mutex.Held? && s.mutex.owner < |s.threads|
        && var f := Plan(s, s.mutex.owner, d).effect;
           f.SpinAcquire? && f.q < SLOTS && s.spin[f.q] == Held(u))
  }

  lemma LockOwnerMoves(s: State, t: nat, c: Choice) returns (u: nat, d: Choice)
    requires BaseOk(s) && t < |s.threads| && !CanStep(s, t, c) && !Plan(s, t, c).effect.Signal?
    ensures u != t && WaitsOn(s, t, c, u, d)
    ensures CanStep(s, u, d) && Plan(s, u, d).pc != s.threads[u]
  {
    var e := Plan(s, t, c).effect;
    OnlyLocksWait(s, t, c);
    SpinPlan(s, t, c);
    MutexPlan(s, t, c);
    d := SomeWaiter(s);
    if e.MutexAcquire? {
      u := s.mutex.owner;
      MutexHolderRuns(s, u, d);
      if !CanStep(s, u, d) {
        var q := Plan(s, u, d).effect.q;
        SpinPlan(s, u, d);
        u := s.spin[q].owner;
        SpinHolderRuns(s, u, d);
      }
    } else {
      u := s.spin[e.q].owner;
      SpinHolderRuns(s, u, d);
    }
  }

  /** Nothing but a lock makes a thread wait. */
  lemma OnlyLocksWait(s: State, t: nat, c: Choice)
    requires WellShaped(s) && t < |s.threads| && !CanStep(s, t, c) && !Plan(s, t, c).effect.Signal?
    ensures Plan(s, t, c).effect.MutexAcquire? || (Plan(s, t, c).effect.SpinAcquire? && Plan(s, t, c).effect.q < SLOTS)
  {
    FirstQueueExists(s);
  }

  /** No deadlock, in every run: a thread that waits waits for a lock, and the owner of that lock, or of
      the one it waits for in turn, can move on. */
  lemma NoDeadlock(run: seq<State>, i: nat, t: nat, c: Choice) returns (u: nat, d: Choice)
    requires IsRun(run) && i < |run| && WellShaped(run[i]) && t < |run[i].threads|
    requires !CanStep(run[i], t, c) && !Plan(run[i], t, c).effect.Signal?
    ensures u != t && WaitsOn(run[i], t, c, u, d)
    ensures CanStep(run[i], u, d) && Plan(run[i], u, d).pc != run[i].threads[u]
  {
    Reachable(run, i);
    u, d := LockOwnerMoves(run[i], t, c);
  }

  /** The mask, in every run: bits name queues, a non-empty queue has its bit, and with the spin lock
      free the bit says exactly whether the list is empty. */
  lemma MaskAlwaysCoherent(run: seq<State>, i: nat, q: nat)
    requires IsRun(run) && i < |run| && q < SLOTS
    ensures WellShaped(run[i]) && run[i].mask <= run[i].cfg.queues
    ensures run[i].lists[q] != [] ==> q in run[i].mask
    ensures run[i].spin[q].Open? ==> (q in run[i].mask <==> run[i].lists[q] != [])
  {
    Reachable(run, i);
    assert BitOk(run[i], q);
  }

  /** The scoreboard, in every run: the counters equal what the program counters say, none is
      negative, no more workers spin than allowed, and every worker blocked on the condition is
      counted idle. */
  lemma ScoreboardAlwaysExact(run: seq<State>, i: nat)
    requires IsRun(run) && i < |run|
    ensures CountersOk(run[i])
    ensures 0 <= Total(BlockedW, run[i]) <= run[i].idle
    ensures 0 <= run[i].count && 0 <= run[i].spinning && 0 <= run[i].requests
    ensures Total(LoopingW, run[i]) <= run[i].cfg.spinMax
    ensures 0 <= Total(BornW, run[i]) <= run[i].pending - run[i].failed
  {
    Reachable(run, i);
    ScoreboardBounds(run[i]);
  }

  /** Ownership, in every run: an allocated item is with one thread, queued once, or freed once;
      nothing else is anywhere. */
  lemma OwnedExactlyOnce(run: seq<State>, i: nat, x: nat)
    requires IsRun(run) && i < |run|
    ensures Total(HoldsW(x), run[i]) + Queued(x, run[i]) + Freed(x, run[i]) == One(x < run[i].nextId)
    ensures 0 <= Total(HoldsW(x), run[i]) && 0 <= Queued(x, run[i])
  {
    Reachable(run, i);
    var s := run[i];
    assert OwnerOk(s, x);
    SumNonNegative(HoldsW(x), s.threads);
    forall q | 0 <= q < |s.lists| ensures 0 <= ListW(x)(s.lists[q]) {
      SumNonNegative(IdW(x), s.lists[q]);
    }
    SumNonNegative(ListW(x), s.lists);
  }

  /** A freed item was freed once and is in no thread's hands and in no queue: nobody uses it again. */
  lemma FreedIsGone(run: seq<State>, i: nat, x: nat)
    requires IsRun(run) && i < |run| && 0 < Freed(x, run[i])
    ensures Freed(x, run[i]) == 1
    ensures forall t :: 0 <= t < |run[i].threads| ==> Holds(x, run[i].threads[t]) == 0
    ensures forall q, k :: 0 <= q < |run[i].lists| && 0 <= k < |run[i].lists[q]| ==> run[i].lists[q][k].id != x
  {
    OwnedExactlyOnce(run, i, x);
    var s := run[i];
    forall t | 0 <= t < |s.threads| ensures Holds(x, s.threads[t]) == 0 {
      SumAtLeast(HoldsW(x), s.threads, t);
    }
    forall j | 0 <= j < |s.lists| ensures 0 <= ListW(x)(s.lists[j]) {
      SumNonNegative(IdW(x), s.lists[j]);
    }
    forall q, k | 0 <= q < |s.lists| && 0 <= k < |s.lists[q]| ensures s.lists[q][k].id != x {
      SumAtLeast(ListW(x), s.lists, q);
      SumAtLeast(IdW(x), s.lists[q], k);
    }
  }

  lemma HistoryGrows(s: State, n: State, q: nat)
    requires Next(s, n) && q < SLOTS
    ensures WellShaped(s) && |n.enqueued| == |n.dequeued| == SLOTS
    ensures s.enqueued[q] <= n.enqueued[q] && s.dequeued[q] <= n.dequeued[q]
  {
    var t: nat, c: Choice :| CanStep(s, t, c) && n == Step(s, t, c);
  }

  lemma FifoAt(run: seq<State>, i: nat, q: nat)
    requires IsRun(run) && i < |run| && q < SLOTS
    ensures WellShaped(run[i]) && run[i].enqueued[q] == run[i].dequeued[q] + run[i].lists[q]
  {
    Reachable(run, i);
  }

  /** Order, in every run: each queue is first in, first out, and its histories only grow. */
  lemma {:induction false} QueuesAreFifo(run: seq<State>, i: nat, j: nat, q: nat)
    requires IsRun(run) && i <= j < |run| && q < SLOTS
    ensures WellShaped(run[i]) && WellShaped(run[j])
    ensures run[j].enqueued[q] == run[j].dequeued[q] + run[j].lists[q]
    ensures run[i].enqueued[q] <= run[j].enqueued[q] && run[i].dequeued[q] <= run[j].dequeued[q]
    decreases j
  {
    FifoAt(run, i, q);
    FifoAt(run, j, q);
    if i < j {
      QueuesAreFifo(run, i, j - 1, q);
      assert NextAt(run, j - 1);
      HistoryGrows(run[j - 1], run[j], q);
    }
  }

  /** Exit items, in every run: a worker at its callback has a function to call, and the exit items
      made are on their way, queued, or have each retired one worker. */
  lemma ExitsOnlyRetire(run: seq<State>, i: nat, t: nat)
    requires IsRun(run) && i < |run| && t < |run[i].threads|
    ensures run[i].threads[t].Worker? && (run[i].threads[t].w.Got? || run[i].threads[t].w.Run?) ==>
      !run[i].threads[t].w.item.exit
    ensures WellShaped(run[i])
    ensures run[i].exitsMade == Total(MakingW, run[i]) + Exits(run[i]) + Total(RetiredW, run[i])
  {
    Reachable(run, i);
    assert ItemOk(run[i].threads[t]);
  }

  lemma PastStartupAt(run: seq<State>, j: nat)
    requires IsRun(run) && j + 1 < |run| && PastStartup(run[j])
    ensures PastStartup(run[j + 1])
  {
    Reachable(run, j);
    assert NextAt(run, j);
    var t: nat, c: Choice :| CanStep(run[j], t, c) && run[j + 1] == Step(run[j], t, c);
    PastStartupStep(run[j], t, c);
  }

  /** Created workers, in every run: from any moment when the startup loop is over and all workers
      created so far have begun, at most one created worker has not yet begun. */
  lemma {:induction false} AtMostOneUnbegun(run: seq<State>, i: nat, j: nat)
    requires IsRun(run) && i <= j < |run|
    requires RolesOk(run[i]) && !InStartup(run[i].threads[0].m) && Total(BornW, run[i]) == 0
    ensures PastStartup(run[j]) && Total(BornW, run[j]) <= 1
    decreases j
  {
    if i < j {
      AtMostOneUnbegun(run, i, j - 1);
      PastStartupAt(run, j - 1);
    }
    if run[j].settled {
      SettledAt(run, j);
    }
  }

  lemma SettledAt(run: seq<State>, i: nat)
    requires IsRun(run) && i < |run| && run[i].settled
    ensures Total(BornW, run[i]) + run[i].failed <= 1
  {
    Reachable(run, i);
    AtMostOnePending(run[i]);
  }

  /** The ceiling, in every run: the pool never exceeds the largest setting plus the requests
      granted, and every request made is outstanding or granted. */
  lemma PoolCeiling(run: seq<State>, i: nat)
    requires IsRun(run) && i < |run|
    ensures run[i].count <= Ceiling(run[i])
    ensures 0 <= run[i].requests == run[i].requestsMade - run[i].requestsTaken
    ensures run[i].settled ==> Total(BornW, run[i]) + run[i].failed <= 1
  {
    Reachable(run, i);
    if run[i].settled {
      SettledAt(run, i);
    }
  }

  lemma StalledAt(run: seq<State>, j: nat)
    requires IsRun(run) && j + 1 < |run| && Stalled(run[j])
    ensures Stalled(run[j + 1]) && |run[j + 1].threads| == |run[j].threads|
  {
    Reachable(run, j);
    assert NextAt(run, j);
    var t: nat, c: Choice :| CanStep(run[j], t, c) && run[j + 1] == Step(run[j], t, c);
    StalledStep(run[j], t, c);
  }

  /** A refused creation, in every run: once the manager is back in its loop, the pool never gets
      another worker. */
  lemma {:induction false} RefusedForever(run: seq<State>, i: nat, j: nat)
    requires IsRun(run) && i <= j < |run| && Stalled(run[i])
    ensures Stalled(run[j]) && |run[j].threads| == |run[i].threads|
    decreases j
  {
    if i < j {
      RefusedForever(run, i, j - 1);
      StalledAt(run, j - 1);
    }
  }

  lemma DesertedAt(run: seq<State>, j: nat)
    requires IsRun(run) && j + 1 < |run| && Deserted(run[j])
    ensures Deserted(run[j + 1]) && |run[j + 1].threads| == |run[j].threads|
  {
    Reachable(run, j);
    Reachable(run, j + 1);
    assert NextAt(run, j);
    var t: nat, c: Choice :| CanStep(run[j], t, c) && run[j + 1] == Step(run[j], t, c);
    DesertedStep(run[j], t, c);
  }

  /** An empty pool, in every run: once the manager is in its loop, past the test of `count`, a pool
      without workers stays without workers. */
  lemma {:induction false} EmptyForever(run: seq<State>, i: nat, j: nat)
    requires IsRun(run) && i <= j < |run| && Deserted(run[i])
    ensures Deserted(run[j]) && run[j].count == 0 && |run[j].threads| == |run[i].threads|
    decreases j
  {
    if i < j {
      EmptyForever(run, i, j - 1);
      DesertedAt(run, j - 1);
    }
  }

  // Priority of the racy scan

  /** Thread `t` is on its way to the head of queue `q`, for the caller `via`. */
  predicate Heading(s: State, t: nat, via: Caller, q: nat) {
    t < |s.threads| && (s.threads[t] == Worker(Lock(via, q)) || s.threads[t] == Worker(Pick(via, q)))
  }

  /** At this state thread `t` reads the mask and finds `q` first, with all queues before it empty. */
  predicate ReadsFirst(s: State, t: nat, via: Caller, q: nat) {
    && t < |s.threads| && s.threads[t] == Worker(Read(via))
    && q == First(s.mask) && q in s.mask && q <= |s.lists|
    && (forall j :: 0 <= j < q ==> s.lists[j] == [])
  }

  /** The only way to the spin lock of a queue is from a read of the mask. */
  lemma HeadingPlan(s: State, u: nat, c: Choice, via: Caller, q: nat)
    requires WellShaped(s) && u < |s.threads|
    ensures Plan(s, u, c).pc == Worker(Lock(via, q)) ==>
      s.threads[u] == Worker(Read(via)) && q == First(s.mask) && q in s.mask
    ensures Plan(s, u, c).pc == Worker(Pick(via, q)) ==> s.threads[u] == Worker(Lock(via, q))
  {
  }

  lemma ThreadAfter(s: State, u: nat, m: Move, t: nat)
    requires WellShaped(s) && u < |s.threads| && Possible(s, m.effect) && t < |Apply(s, u, m).threads|
    ensures var pc := Apply(s, u, m).threads[t];
      pc == Worker(Born) || pc == Worker(MutexEnter) || (t == u && pc == m.pc)
      || (t < |s.threads| && pc == s.threads[t])
  {
  }

  lemma HeadingBefore(s: State, n: State, t: nat, via: Caller, q: nat)
    requires Next(s, n) && WellShaped(s) && MaskOk(s) && Heading(n, t, via, q)
    ensures Heading(s, t, via, q) || ReadsFirst(s, t, via, q)
  {
    var u: nat, c: Choice :| CanStep(s, u, c) && n == Step(s, u, c);
    FirstBitIsFirstQueue(s);
    HeadingPlan(s, u, c, via, q);
    ThreadAfter(s, u, Plan(s, u, c), t);
  }

  lemma MaskAt(run: seq<State>, i: nat)
    requires IsRun(run) && i < |run|
    ensures WellShaped(run[i]) && MaskOk(run[i])
  {
    Reachable(run, i);
  }

  lemma HeadingAt(run: seq<State>, j: nat, t: nat, via: Caller, q: nat)
    requires IsRun(run) && j < |run| && Heading(run[j], t, via, q)
    ensures 0 < j && (Heading(run[j - 1], t, via, q) || ReadsFirst(run[j - 1], t, via, q))
  {
    if 0 < j {
      MaskAt(run, j - 1);
      assert NextAt(run, j - 1);
      HeadingBefore(run[j - 1], run[j], t, via, q);
    }
  }

  lemma {:induction false} ScanOrigin(run: seq<State>, j: nat, t: nat, via: Caller, q: nat) returns (i: nat)
    requires IsRun(run) && j < |run| && Heading(run[j], t, via, q)
    ensures i < j && ReadsFirst(run[i], t, via, q)
    ensures forall k :: i < k <= j ==> Heading(run[k], t, via, q)
  {
    HeadingAt(run, j, t, via, q);
    if ReadsFirst(run[j - 1], t, via, q) {
      i := j - 1;
    } else {
      i := ScanOrigin(run, j - 1, t, via, q);
    }
  }

  /** Any item a worker takes was the head of its queue, and when the worker read the mask every
      queue of higher priority was empty. */
  lemma RacyScanPriority(run: seq<State>, j: nat, t: nat, c: Choice) returns (i: nat)
    requires IsRun(run) && j < |run| && CanStep(run[j], t, c) && Plan(run[j], t, c).effect.Dequeue?
    ensures i < j && run[i].threads != []
    ensures var q := Plan(run[j], t, c).effect.q;
      && q < SLOTS && run[j].lists[q] != []
      && WorkerItem(Plan(run[j], t, c).pc.w) == Some(run[j].lists[q][0])
      && ReadsFirst(run[i], t, run[j].threads[t].w.via, q)
  {
    var w := run[j].threads[t].w;
    i := ScanOrigin(run, j, t, w.via, w.q);
  }

  lemma ReadAlone(s: State, t: nat, via: Caller, c: Choice)
    requires WellShaped(s) && MaskOk(s) && t < |s.threads| && s.threads[t] == Worker(Read(via)) && s.mask != {}
    ensures CanStep(s, t, c) && First(s.mask) in s.cfg.queues
    ensures Step(s, t, c) == s.(threads := s.threads[t := Worker(Lock(via, First(s.mask)))])
  {
    FirstBitIsFirstQueue(s);
  }

  lemma LockAlone(s: State, t: nat, via: Caller, q: nat, c: Choice)
    requires WellShaped(s) && t < |s.threads| && s.threads[t] == Worker(Lock(via, q)) && s.spin[q].Open?
    ensures CanStep(s, t, c) && WellShaped(Step(s, t, c))
    ensures Step(s, t, c).threads[t] == Worker(Pick(via, q)) && Step(s, t, c).lists == s.lists
    ensures |Step(s, t, c).threads| == |s.threads|
  {
  }

  lemma PickAlone(s: State, t: nat, via: Caller, q: nat, c: Choice)
    requires WellShaped(s) && t < |s.threads| && s.threads[t] == Worker(Pick(via, q)) && s.lists[q] != []
    ensures CanStep(s, t, c) && Step(s, t, c).threads[t].Worker?
    ensures WorkerItem(Step(s, t, c).threads[t].w) ==
      if via != Waiting && s.lists[q][0].exit then None else Some(s.lists[q][0])
  {
  }

  /** Without interference a scan takes the head of the least-index non-empty queue, unless it skips
      exit items and one is at that head. */
  lemma UndisturbedScan(s: State, t: nat, via: Caller, c: Choice) returns (s1: State, s2: State, s3: State)
    requires WellShaped(s) && MaskOk(s) && t < |s.threads| && s.threads[t] == Worker(Read(via)) && s.mask != {}
    requires forall q :: 0 <= q < SLOTS ==> s.spin[q].Open?
    ensures CanStep(s, t, c) && s1 == Step(s, t, c)
    ensures CanStep(s1, t, c) && s2 == Step(s1, t, c)
    ensures CanStep(s2, t, c) && s3 == Step(s2, t, c) && |s3.threads| == |s.threads| && s3.threads[t].Worker?
    ensures
      var q := First(s.mask);
      && q < SLOTS && s.lists[q] != [] && (forall j :: 0 <= j < q ==> s.lists[j] == [])
      && WorkerItem(s3.threads[t].w) ==
           if via != Waiting && s.lists[q][0].exit then None else Some(s.lists[q][0])
  {
    var q := First(s.mask);
    FirstBitIsFirstQueue(s);
    MaskCoherent(s, q);
    ReadAlone(s, t, via, c);
    s1 := Step(s, t, c);
    LockAlone(s1, t, via, q, c);
    s2 := Step(s1, t, c);
    PickAlone(s2, t, via, q, c);
    s3 := Step(s2, t, c);
  }
}
