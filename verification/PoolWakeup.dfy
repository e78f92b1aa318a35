/** No lost wakeup.  A scan under the mutex may come back empty although work is queued: the mask may
    change after it is read, or another worker may empty the queue first.  The worker then sleeps.
    This module shows that whenever a worker sleeps over regular work whose producer has already
    signalled or decided not to, enough other workers are awake to serve it, even after every queued
    exit item has taken one of them away. */
module PoolWakeup {
  import opened Sums
  import opened PoolModel
  import opened PoolLocks
  import opened PoolMask
  import opened PoolCounters
  import opened PoolItems

  /** A worker that is awake and will scan again: not blocked, not retiring. */
  function FreeW(pc: Pc): int {
    match pc
    case Worker(w) => if w.Blocked? || w.Dead? || IsExit(WorkerItem(w)) then 0 else 1
    case Posting(h, _) => One(h.Some?)
    case _ => 0
  }

  /** A producer between its insertion and its signal, or its decision not to signal. */
  function WindowW(pc: Pc): int {
    One(pc.Posting? && (pc.post.PUnlock? || pc.post.PTest? || pc.post.PMutex? || pc.post.PSignal?))
  }

  /** The manager between the insertion of an exit item and its signal. */
  function StopWindowW(pc: Pc): int {
    One(pc.Manager? && pc.m.MStop? && (pc.m.stop.XUnlock? || pc.m.stop.XSignal?))
  }

  ghost predicate RegularQueued(s: State)
    requires WellShaped(s)
  {
    exists q, i :: 0 <= q < SLOTS && 0 <= i < |s.lists[q]| && !s.lists[q][i].exit
  }

  function FreeWorkers(s: State): int { Total(FreeW, s) }

  function BlockedWorkers(s: State): int { Total(BlockedW, s) }

  function Windows(s: State): int { Total(WindowW, s) }

  function StopWindows(s: State): int { Total(StopWindowW, s) }

  /** While a worker is blocked, the awake workers cover the queued exit items; while also regular
      work is queued and signalled, they more than cover them. */
  ghost predicate AwakeOk(s: State)
    requires WellShaped(s)
  {
    0 < BlockedWorkers(s) ==>
      && Exits(s) <= FreeWorkers(s) + StopWindows(s)
      && (RegularQueued(s) && Windows(s) == 0 ==> Exits(s) < FreeWorkers(s) + StopWindows(s))
  }

  /** The thread that holds the spin lock of `q` has set the bit and will insert. */
  predicate InsertPending(s: State, q: nat)
    requires WellShaped(s)
  {
    q < SLOTS && s.spin[q].Held? && s.spin[q].owner < |s.threads|
    && Inserting(s.cfg, s.threads[s.spin[q].owner], q)
  }

  /** What the worker scanning under the mutex may conclude from what it has seen so far. */
  ghost predicate ScanAt(s: State, w: WorkerPc)
    requires WellShaped(s) && SlotsIn(s.cfg, Worker(w))
  {
    && (w.Lock? && w.via == Waiting ==>
        && (0 < Exits(s) ==> w.q == First(s.cfg.queues))
        && (s.lists[w.q] == [] && !InsertPending(s, w.q) ==> 2 <= FreeWorkers(s)))
    && (w.Pick? && w.via == Waiting ==>
        && (0 < Exits(s) ==> w.q == First(s.cfg.queues))
        && (s.lists[w.q] == [] ==> 2 <= FreeWorkers(s)))
    && (w.Sleep? || (w.Unlock? && w.via == Waiting && w.got.None?) ==>
        && Exits(s) == 0
        && (RegularQueued(s) && Windows(s) == 0 ==> 2 <= FreeWorkers(s)))
  }

  ghost predicate ScanOk(s: State)
    requires WellShaped(s)
  {
    s.mutex.Held? && s.mutex.owner < |s.threads| && s.threads[s.mutex.owner].Worker? ==>
      ScanAt(s, s.threads[s.mutex.owner].w)
  }

  // What a move does to the four totals

  predicate FreeMove(s: State, pc: Pc, m: Move)
    requires WellShaped(s)
  {
    FreeW(m.pc) - FreeW(pc) == One(pc == Worker(Blocked)) - One(pc == Worker(Sleep))
      + (if m.effect.Dequeue? then ExitGain(s, m.effect) else 0)
  }

  predicate BlockedMove(s: State, pc: Pc, m: Move)
    requires WellShaped(s)
  {
    && BlockedW(m.pc) - BlockedW(pc) == One(pc == Worker(Sleep)) - One(pc == Worker(Blocked))
    && (ExitGain(s, m.effect) != 0 ==> HasMutex(pc))
    && (m.effect.Dequeue? && !HasMutex(pc) ==> FreeW(m.pc) == 1)
  }

  predicate GivesUp(s: State, pc: Pc) {
    pc.Posting? && pc.post.PTest? && s.idle <= 0
  }

  predicate WindowMove(s: State, pc: Pc, m: Move) {
    && WindowW(m.pc) - WindowW(pc) ==
         One(m.effect.Enqueue? && !m.effect.item.exit) - One(m.effect.Signal? && pc.Posting?) - One(GivesUp(s, pc))
    && StopWindowW(m.pc) - StopWindowW(pc) ==
         One(m.effect.Enqueue? && m.effect.item.exit) - One(m.effect.Signal? && pc.Manager?)
    && (m.effect.Signal? ==> HasMutex(pc) && (pc.Posting? || pc.Manager?))
  }

  lemma FreeWorker(s: State, w: WorkerPc, c: Choice)
    requires WellShaped(s) && SlotsIn(s.cfg, Worker(w)) && ItemOk(Worker(w))
    ensures FreeMove(s, Worker(w), PlanWorker(s, w, c))
  {
  }

  lemma FreePlan(s: State, t: nat, c: Choice)
    requires WellShaped(s) && t < |s.threads| && ItemOk(s.threads[t])
    ensures FreeMove(s, s.threads[t], Plan(s, t, c)) && BlockedMove(s, s.threads[t], Plan(s, t, c))
  {
    if s.threads[t].Worker? {
      FreeWorker(s, s.threads[t].w, c);
      BlockedWorker(s, s.threads[t].w, c);
    }
  }

  lemma BlockedWorker(s: State, w: WorkerPc, c: Choice)
    requires WellShaped(s) && SlotsIn(s.cfg, Worker(w)) && ItemOk(Worker(w))
    ensures BlockedMove(s, Worker(w), PlanWorker(s, w, c))
  {
  }

  lemma WindowPlan(s: State, t: nat, c: Choice)
    requires WellShaped(s) && t < |s.threads| && ItemOk(s.threads[t])
    ensures WindowMove(s, s.threads[t], Plan(s, t, c))
  {
  }

  /** The invariants the argument rests on. */
  predicate BaseOk(s: State) {
    WellShaped(s) && SpinsOk(s) && MutexOk(s) && MaskOk(s) && GapsOk(s) && CountersOk(s) && ItemsOk(s)
  }

  /** How a step changes the numbers the argument is about. */
  predicate NumbersMove(s: State, n: State, pc: Pc, m: Move)
    requires WellShaped(s) && WellShaped(n)
  {
    var woke := One(Wakes(s, m.effect));
    && FreeWorkers(n) == FreeWorkers(s) + FreeW(m.pc) - FreeW(pc) + woke + One(m.effect.Spawn?)
    && BlockedWorkers(n) == BlockedWorkers(s) + BlockedW(m.pc) - BlockedW(pc) - woke
    && Windows(n) == Windows(s) + WindowW(m.pc) - WindowW(pc)
    && StopWindows(n) == StopWindows(s) + StopWindowW(m.pc) - StopWindowW(pc)
    && Exits(n) == Exits(s) + ExitGain(s, m.effect)
  }

  lemma NumbersStep(s: State, t: nat, c: Choice)
    requires CanStep(s, t, c) && ItemsOk(s)
    ensures WellShaped(Step(s, t, c)) && NumbersMove(s, Step(s, t, c), s.threads[t], Plan(s, t, c))
  {
    ShapeStep(s, t, c);
    TotalStep(FreeW, s, t, c);
    TotalStep(BlockedW, s, t, c);
    TotalStep(WindowW, s, t, c);
    TotalStep(StopWindowW, s, t, c);
    ItemPlan(s, t, c);
    ExitsApply(s, t, Plan(s, t, c));
  }

  /** The totals are not negative, the thread at `t` is part of them, and a blocked worker is idle. */
  lemma NumbersBounds(s: State, t: nat)
    requires WellShaped(s) && CountersOk(s) && t < |s.threads|
    ensures FreeW(s.threads[t]) <= FreeWorkers(s)
    ensures 0 <= BlockedW(s.threads[t]) <= BlockedWorkers(s) <= s.idle
    ensures 0 <= WindowW(s.threads[t]) <= Windows(s)
    ensures 0 <= StopWindowW(s.threads[t]) <= StopWindows(s)
    ensures IdleW(s.threads[t]) <= s.idle
  {
    SumAtLeast(FreeW, s.threads, t);
    SumAtLeast(BlockedW, s.threads, t);
    SumAtLeast(WindowW, s.threads, t);
    SumAtLeast(StopWindowW, s.threads, t);
    SumAtLeast(IdleW, s.threads, t);
    ScoreboardBounds(s);
  }

  /** Regular work that is queued after a step was queued before, unless the step inserted it. */
  lemma RegularBefore(s: State, t: nat, m: Move)
    requires WellShaped(s) && t < |s.threads| && Possible(s, m.effect)
    requires WellShaped(Apply(s, t, m)) && RegularQueued(Apply(s, t, m))
    requires !(m.effect.Enqueue? && !m.effect.item.exit)
    ensures RegularQueued(s)
  {
    var n := Apply(s, t, m);
    var q, i :| 0 <= q < SLOTS && 0 <= i < |n.lists[q]| && !n.lists[q][i].exit;
    if m.effect.Dequeue? && m.effect.q == q {
      assert s.lists[q][i + 1] == n.lists[q][i];
    } else {
      assert s.lists[q][i] == n.lists[q][i];
    }
  }

  /** A signal that wakes nobody found nobody blocked. */
  lemma NobodyBlocked(s: State, e: Effect)
    requires WellShaped(s) && Possible(s, e) && e.Signal? && !Wakes(s, e)
    ensures BlockedWorkers(s) == 0
  {
    SumZero(BlockedW, s.threads);
  }

  lemma AwakeApply(s: State, t: nat, m: Move)
    requires WellShaped(s) && t < |s.threads| && Possible(s, m.effect)
    requires WellShaped(Apply(s, t, m)) && CountersOk(s) && AwakeOk(s)
    requires s.threads[t] == Worker(Sleep) ==> ScanAt(s, Sleep)
    requires NumbersMove(s, Apply(s, t, m), s.threads[t], m)
    requires FreeMove(s, s.threads[t], m) && BlockedMove(s, s.threads[t], m) && WindowMove(s, s.threads[t], m)
    ensures AwakeOk(Apply(s, t, m))
  {
    var n := Apply(s, t, m);
    NumbersBounds(s, t);
    if Wakes(s, m.effect) {
      NumbersBounds(s, m.effect.woken);
    } else if m.effect.Signal? {
      NobodyBlocked(s, m.effect);
    }
    if RegularQueued(n) && !(m.effect.Enqueue? && !m.effect.item.exit) {
      RegularBefore(s, t, m);
    }
  }

  // The scan under the mutex

  /** The worker under the mutex reads the mask. */
  lemma ScanReads(s: State, t: nat, q: nat)
    requires BaseOk(s) && t < |s.threads| && s.threads[t] == Worker(Read(Waiting))
    requires q == First(s.mask) && q in s.mask
    ensures q in s.cfg.queues && (0 < Exits(s) ==> q == First(s.cfg.queues))
    ensures s.lists[q] == [] && !InsertPending(s, q) ==> 2 <= FreeWorkers(s)
  {
    assert BitOk(s, q);
    if 0 < Exits(s) {
      FirstQueueExists(s);
      assert BitOk(s, First(s.cfg.queues));
    }
    if s.lists[q] == [] && !InsertPending(s, q) {
      var u := s.spin[q].owner;
      assert Emptied(s.threads[u], q);
      assert s.mutex == Held(t) && !HasMutex(s.threads[u]) && ItemOk(s.threads[u]);
      TwoFree(s, t, u);
    }
  }

  lemma TwoFree(s: State, t: nat, u: nat)
    requires t < |s.threads| && u < |s.threads| && t != u
    requires FreeW(s.threads[t]) == 1 && FreeW(s.threads[u]) == 1
    ensures 2 <= FreeWorkers(s)
  {
    SumAtLeastTwo(FreeW, s.threads, if t < u then t else u, if t < u then u else t);
  }

  /** No bit set: nothing is queued. */
  lemma ScanFindsNothing(s: State)
    requires BaseOk(s) && First(s.mask) !in s.mask
    ensures Exits(s) == 0 && !RegularQueued(s)
  {
    FirstBitIsFirstQueue(s);
    forall q | 0 <= q < SLOTS ensures s.lists[q] == [] {
      assert BitOk(s, q);
    }
  }

  /** The step of the worker that holds the mutex. */
  lemma ScanOwn(s: State, t: nat, c: Choice, w: WorkerPc, m: Move)
    requires BaseOk(s) && t < |s.threads| && s.threads[t] == Worker(w) && HasMutex(Worker(w))
    requires m == PlanWorker(s, w, c) && Possible(s, m.effect) && SlotsIn(s.cfg, m.pc)
    requires ScanAt(s, w)
    requires WellShaped(Apply(s, t, m)) && NumbersMove(s, Apply(s, t, m), Worker(w), m)
    ensures m.pc.Worker? ==> ScanAt(Apply(s, t, m), m.pc.w)
  {
    if w.Read? {
      ScanReadOwn(s, t, c);
    } else if w.Lock? {
      ScanLockOwn(s, t, m, w.q);
    } else if w.Pick? || w.Unlock? {
      ScanQueueOwn(s, t, c, w, m);
    }
  }

  lemma ScanQueueOwn(s: State, t: nat, c: Choice, w: WorkerPc, m: Move)
    requires BaseOk(s) && t < |s.threads| && s.threads[t] == Worker(w) && (w.Pick? || w.Unlock?)
    requires w.via == Waiting && ScanAt(s, w)
    requires m == PlanWorker(s, w, c) && Possible(s, m.effect) && SlotsIn(s.cfg, m.pc)
    requires WellShaped(Apply(s, t, m)) && NumbersMove(s, Apply(s, t, m), Worker(w), m)
    ensures m.pc.Worker? && ScanAt(Apply(s, t, m), m.pc.w)
  {
    if (w.Pick? && s.lists[w.q] == []) || (w.Unlock? && w.got.None?) {
      ScanNothingOwn(s, t, m);
    }
  }

  lemma ScanLockOwn(s: State, t: nat, m: Move, q: nat)
    requires BaseOk(s) && t < |s.threads| && s.threads[t] == Worker(Lock(Waiting, q))
    requires ScanAt(s, Lock(Waiting, q)) && Possible(s, m.effect)
    requires m == Move(Worker(Pick(Waiting, q)), SpinAcquire(q))
    requires WellShaped(Apply(s, t, m)) && NumbersMove(s, Apply(s, t, m), s.threads[t], m)
    ensures ScanAt(Apply(s, t, m), m.pc.w)
  {
    assert !InsertPending(s, q);
  }

  lemma ScanNothingOwn(s: State, t: nat, m: Move)
    requires BaseOk(s) && t < |s.threads| && s.threads[t].Worker? && ScanAt(s, s.threads[t].w)
    requires || (s.threads[t].w.Pick? && s.threads[t].w.via == Waiting && s.lists[s.threads[t].w.q] == [])
             || (s.threads[t].w.Unlock? && s.threads[t].w.via == Waiting && s.threads[t].w.got.None?)
    requires m.pc.Worker? && (m.pc.w.Unlock? || m.pc.w.Sleep?) && SlotsIn(s.cfg, m.pc)
    requires FreeW(m.pc) == 1 && WindowW(m.pc) == 0
    requires (m.effect.Tau? || m.effect.SpinRelease?) && Possible(s, m.effect)
    requires WellShaped(Apply(s, t, m)) && NumbersMove(s, Apply(s, t, m), s.threads[t], m)
    ensures ScanAt(Apply(s, t, m), m.pc.w)
  {
    FirstQueueExists(s);
    assert Exits(s) == 0 by {
      SumNonNegative(ExitW, s.lists[First(s.cfg.queues)]);
    }
    if RegularQueued(Apply(s, t, m)) {
      RegularBefore(s, t, m);
    }
  }

  lemma ScanReadOwn(s: State, t: nat, c: Choice)
    requires CanStep(s, t, c) && BaseOk(s) && s.threads[t] == Worker(Read(Waiting))
    requires WellShaped(Step(s, t, c)) && NumbersMove(s, Step(s, t, c), s.threads[t], Plan(s, t, c))
    ensures Plan(s, t, c).pc.Worker? && ScanAt(Step(s, t, c), Plan(s, t, c).pc.w)
  {
    var m, n := Plan(s, t, c), Step(s, t, c);
    var q := First(s.mask);
    if q in s.mask {
      ScanReads(s, t, q);
      if InsertPending(s, q) {
        OthersStay(s, t, m, s.spin[q].owner);
        assert InsertPending(n, q);
      }
    } else {
      ScanFindsNothing(s);
      if RegularQueued(n) {
        RegularBefore(s, t, m);
      }
    }
  }

  /** A step of another thread while `o` scans under the mutex. */
  lemma ScanOther(s: State, t: nat, c: Choice, o: nat)
    requires CanStep(s, t, c) && BaseOk(s) && o < |s.threads| && o != t
    requires s.threads[o].Worker? && HasMutex(s.threads[o]) && ScanAt(s, s.threads[o].w)
    requires WellShaped(Step(s, t, c)) && NumbersMove(s, Step(s, t, c), s.threads[t], Plan(s, t, c))
    ensures Step(s, t, c).threads[o] == s.threads[o] && ScanAt(Step(s, t, c), s.threads[o].w)
  {
    var m := Plan(s, t, c);
    assert !HasMutex(s.threads[t]);
    assert ItemOk(s.threads[t]);
    FreePlan(s, t, c);
    WindowPlan(s, t, c);
    SpinPlan(s, t, c);
    MaskPlan(s, t, c);
    if s.threads[o].w.Lock? {
      GapPlan(s, t, c, s.threads[o].w.q);
    }
    OthersStay(s, t, m, o);
    ScanOtherApply(s, t, m, o);
  }

  lemma ScanOtherApply(s: State, t: nat, m: Move, o: nat)
    requires BaseOk(s) && t < |s.threads| && Possible(s, m.effect) && o < |s.threads| && o != t
    requires s.threads[o].Worker? && HasMutex(s.threads[o]) && ScanAt(s, s.threads[o].w)
    requires WellShaped(Apply(s, t, m)) && NumbersMove(s, Apply(s, t, m), s.threads[t], m)
    requires !HasMutex(s.threads[t])
    requires FreeMove(s, s.threads[t], m) && BlockedMove(s, s.threads[t], m) && WindowMove(s, s.threads[t], m)
    requires SpinMove(s.cfg, s.threads[t], m) && MaskMove(s, s.threads[t], m)
    requires s.threads[o].w.Lock? ==> GapMove(s, s.threads[t], m, s.threads[o].w.q)
    requires Apply(s, t, m).threads[o] == s.threads[o]
    ensures ScanAt(Apply(s, t, m), s.threads[o].w)
  {
    var n, w := Apply(s, t, m), s.threads[o].w;
    NumbersBounds(s, o);
    NumbersBounds(s, t);
    assert Exits(n) == Exits(s) && FreeWorkers(s) <= FreeWorkers(n);
    if w.Lock? {
      QueueWhileWaiting(s, t, m, o);
    } else if w.Pick? {
      assert s.spin[w.q] == Held(o);
      assert n.lists[w.q] == s.lists[w.q];
    } else if RegularQueued(n) && Windows(n) == 0 {
      RegularBefore(s, t, m);
    }
  }

  /** While `o` waits for the spin lock of the queue it found, the queue keeps its item or its
      inserter, or another awake worker took the item. */
  lemma QueueWhileWaiting(s: State, t: nat, m: Move, o: nat)
    requires BaseOk(s) && t < |s.threads| && Possible(s, m.effect) && o < |s.threads| && o != t
    requires s.threads[o].Worker? && s.threads[o].w.Lock? && s.threads[o].w.via == Waiting
    requires ScanAt(s, s.threads[o].w)
    requires WellShaped(Apply(s, t, m)) && FreeWorkers(s) <= FreeWorkers(Apply(s, t, m))
    requires !HasMutex(s.threads[t])
    requires FreeMove(s, s.threads[t], m) && BlockedMove(s, s.threads[t], m)
    requires SpinMove(s.cfg, s.threads[t], m) && MaskMove(s, s.threads[t], m)
    requires GapMove(s, s.threads[t], m, s.threads[o].w.q)
    requires Apply(s, t, m).threads[o] == s.threads[o]
    ensures Apply(s, t, m).lists[s.threads[o].w.q] == [] && !InsertPending(Apply(s, t, m), s.threads[o].w.q) ==>
      2 <= FreeWorkers(Apply(s, t, m))
  {
    var n, q := Apply(s, t, m), s.threads[o].w.q;
    if n.lists[q] == [] && !InsertPending(n, q) {
      if s.lists[q] != [] {
        assert m.effect == Dequeue(q);
        assert n.threads[t] == m.pc && FreeW(m.pc) == 1;
        TwoFree(n, t, o);
      } else if InsertPending(s, q) {
        var u := s.spin[q].owner;
        if u != t {
          OthersStay(s, t, m, u);
        }
        assert false;
      }
    }
  }

  /** Every step keeps both invariants. */
  lemma WakeupStep(s: State, t: nat, c: Choice)
    requires CanStep(s, t, c) && BaseOk(s) && AwakeOk(s) && ScanOk(s)
    ensures WellShaped(Step(s, t, c)) && AwakeOk(Step(s, t, c)) && ScanOk(Step(s, t, c))
  {
    var m, n := Plan(s, t, c), Step(s, t, c);
    NumbersStep(s, t, c);
    assert ItemOk(s.threads[t]);
    FreePlan(s, t, c);
    WindowPlan(s, t, c);
    AwakeApply(s, t, m);
    ScanStep(s, t, c);
  }

  lemma ScanStep(s: State, t: nat, c: Choice)
    requires CanStep(s, t, c) && BaseOk(s) && ScanOk(s)
    requires WellShaped(Step(s, t, c)) && NumbersMove(s, Step(s, t, c), s.threads[t], Plan(s, t, c))
    ensures ScanOk(Step(s, t, c))
  {
    var m := Plan(s, t, c);
    MutexPlan(s, t, c);
    SlotsPlan(s, t, c);
    if HasMutex(s.threads[t]) && s.threads[t].Worker? {
      ScanOwn(s, t, c, s.threads[t].w, m);
    } else if s.mutex.Held? && s.mutex.owner != t && s.threads[s.mutex.owner].Worker? {
      ScanOther(s, t, c, s.mutex.owner);
    }
    if HasMutex(m.pc) && m.pc.Worker? {
      MutexHolderKind(s, t, c);
    }
    ScanApply(s, t, m);
  }

  lemma ScanApply(s: State, t: nat, m: Move)
    requires BaseOk(s) && t < |s.threads| && Possible(s, m.effect)
    requires WellShaped(Apply(s, t, m)) && MutexMove(s.threads[t], m)
    requires HasMutex(m.pc) && m.pc.Worker? ==> SlotsIn(s.cfg, m.pc) && ScanAt(Apply(s, t, m), m.pc.w)
    requires s.mutex.Held? && s.mutex.owner != t && s.threads[s.mutex.owner].Worker? ==>
      SlotsIn(s.cfg, s.threads[s.mutex.owner]) && ScanAt(Apply(s, t, m), s.threads[s.mutex.owner].w)
    ensures ScanOk(Apply(s, t, m))
  {
    var n := Apply(s, t, m);
    if s.mutex.Held? && s.mutex.owner != t {
      OthersStay(s, t, m, s.mutex.owner);
    }
    if HasMutex(m.pc) {
      assert n.threads[t] == m.pc;
    }
  }

  /** A thread that keeps the mutex stays what it was; a worker that takes it starts a scan. */
  lemma MutexHolderKind(s: State, t: nat, c: Choice)
    requires WellShaped(s) && t < |s.threads| && HasMutex(Plan(s, t, c).pc) && Plan(s, t, c).pc.Worker?
    ensures s.threads[t].Worker?
    ensures HasMutex(s.threads[t]) || Plan(s, t, c).pc == Worker(Read(Waiting))
  {
  }
}
