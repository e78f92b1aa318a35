/** The queue spin locks and the pool mutex: each is held by exactly the thread whose program
    counter is inside the section it guards. */
module PoolLocks {
  import opened PoolModel

  /** The queue whose spin lock a thread at `pc` holds, or -1. */
  function SpinOf(cfg: Config, pc: Pc): int {
    match pc
    case Worker(w) => if w.Pick? || w.Clear? || w.Unlock? then w.q else -1
    case Posting(_, p) => if p.PCheck? || p.PSet? || p.PInsert? || p.PUnlock? then p.q else -1
    case Manager(m) =>
      if m.MStop? && (m.stop.XSet? || m.stop.XInsert? || m.stop.XUnlock?) then First(cfg.queues) else -1
    case Rest => -1
  }

  /** Whether a thread at `pc` holds `wqlist_mtx`. */
  predicate HasMutex(pc: Pc) {
    match pc
    case Worker(w) =>
      || ((w.Read? || w.Lock? || w.Pick? || w.Clear? || w.Unlock?) && w.via == Waiting)
      || w.Sleep? || w.MutexLeave?
    case Posting(_, p) => p.PSignal? || p.PMutexUnlock?
    case Manager(m) => m.MStop? && !m.stop.XAlloc? && !m.stop.XMutex?
    case Rest => false
  }

  /** A thread inside a section of queue `q` holds its spin lock. */
  predicate HoldersOk(s: State)
    requires WellShaped(s)
  {
    forall t :: 0 <= t < |s.threads| && 0 <= SpinOf(s.cfg, s.threads[t]) < SLOTS ==>
      s.spin[SpinOf(s.cfg, s.threads[t])] == Held(t)
  }

  /** A spin lock that is held is held by a thread inside its section. */
  predicate OwnersOk(s: State)
    requires WellShaped(s)
  {
    forall q :: 0 <= q < SLOTS && s.spin[q].Held? ==>
      s.spin[q].owner < |s.threads| && SpinOf(s.cfg, s.threads[s.spin[q].owner]) == q
  }

  predicate SpinsOk(s: State)
    requires WellShaped(s)
  {
    HoldersOk(s) && OwnersOk(s)
  }

  predicate MutexOk(s: State) {
    && (forall t :: 0 <= t < |s.threads| && HasMutex(s.threads[t]) ==> s.mutex == Held(t))
    && (s.mutex.Held? ==> s.mutex.owner < |s.threads| && HasMutex(s.threads[s.mutex.owner]))
  }

  /** How a move changes the spin lock its thread holds. */
  predicate SpinMove(cfg: Config, pc: Pc, m: Move) {
    if m.effect.SpinAcquire? then SpinOf(cfg, pc) == -1 && SpinOf(cfg, m.pc) == m.effect.q
    else if m.effect.SpinRelease? then SpinOf(cfg, pc) == m.effect.q && SpinOf(cfg, m.pc) == -1
    else SpinOf(cfg, m.pc) == SpinOf(cfg, pc)
  }

  /** How a move changes whether its thread holds the mutex. */
  predicate MutexMove(pc: Pc, m: Move) {
    if m.effect.MutexAcquire? then !HasMutex(pc) && HasMutex(m.pc)
    else if m.effect.MutexRelease? then HasMutex(pc) && !HasMutex(m.pc)
    else HasMutex(m.pc) == HasMutex(pc)
  }

  lemma SpinWorker(s: State, w: WorkerPc, c: Choice)
    requires WellShaped(s) && SlotsIn(s.cfg, Worker(w))
    ensures SpinMove(s.cfg, Worker(w), PlanWorker(s, w, c))
  {
  }

  lemma SpinPost(s: State, h: Option<Item>, post: Post, c: Choice)
    requires WellShaped(s) && SlotsIn(s.cfg, Posting(h, post))
    ensures SpinMove(s.cfg, Posting(h, post), PlanPost(s, h, post, c))
  {
  }

  lemma SpinManager(s: State, m: ManagerPc, c: Choice)
    requires WellShaped(s)
    ensures SpinMove(s.cfg, Manager(m), PlanManager(s, m, c))
  {
  }

  lemma SpinPlan(s: State, t: nat, c: Choice)
    requires WellShaped(s) && t < |s.threads|
    ensures SpinMove(s.cfg, s.threads[t], Plan(s, t, c))
  {
    match s.threads[t]
    case Worker(w) => SpinWorker(s, w, c);
    case Posting(h, post) => SpinPost(s, h, post, c);
    case Manager(m) => SpinManager(s, m, c);
    case Rest =>
  }

  lemma MutexPlan(s: State, t: nat, c: Choice)
    requires WellShaped(s) && t < |s.threads|
    ensures MutexMove(s.threads[t], Plan(s, t, c))
  {
  }

  lemma HoldersApply(s: State, t: nat, m: Move)
    requires WellShaped(s) && t < |s.threads| && Possible(s, m.effect) && SpinsOk(s)
    requires WellShaped(Apply(s, t, m))
    requires SpinMove(s.cfg, s.threads[t], m)
    ensures HoldersOk(Apply(s, t, m))
  {
  }

  lemma OwnersApply(s: State, t: nat, m: Move)
    requires WellShaped(s) && t < |s.threads| && Possible(s, m.effect) && SpinsOk(s)
    requires WellShaped(Apply(s, t, m))
    requires SpinMove(s.cfg, s.threads[t], m)
    ensures OwnersOk(Apply(s, t, m))
  {
  }

  lemma MutexApply(s: State, t: nat, m: Move)
    requires WellShaped(s) && t < |s.threads| && Possible(s, m.effect) && MutexOk(s)
    requires MutexMove(s.threads[t], m)
    ensures MutexOk(Apply(s, t, m))
  {
  }

  /** Mutual exclusion: two threads are never inside sections guarded by the same lock. */
  lemma MutualExclusion(s: State, t: nat, u: nat)
    requires WellShaped(s) && SpinsOk(s) && MutexOk(s) && t < |s.threads| && u < |s.threads|
    requires || (0 <= SpinOf(s.cfg, s.threads[t]) < SLOTS && SpinOf(s.cfg, s.threads[t]) == SpinOf(s.cfg, s.threads[u]))
             || (HasMutex(s.threads[t]) && HasMutex(s.threads[u]))
    ensures t == u
  {
    assert Held(t).owner == t;
  }

  lemma LocksStep(s: State, t: nat, c: Choice)
    requires CanStep(s, t, c) && SpinsOk(s) && MutexOk(s)
    ensures WellShaped(Step(s, t, c)) && SpinsOk(Step(s, t, c)) && MutexOk(Step(s, t, c))
  {
    ShapeStep(s, t, c);
    SpinPlan(s, t, c);
    MutexPlan(s, t, c);
    HoldersApply(s, t, Plan(s, t, c));
    OwnersApply(s, t, Plan(s, t, c));
    MutexApply(s, t, Plan(s, t, c));
  }
}
