/** The manager's growth rules: the ceiling on the pool, the requests for threads, and what a refused
    creation does to the pool for good. */
module PoolManager {
  import opened Sums
  import opened PoolModel
  import opened PoolCounters

  /** Thread 0 is the manager and nobody else is. */
  predicate RolesOk(s: State) {
    && 0 < |s.threads|
    && s.threads[0].Manager?
    && (forall t :: 0 < t < |s.threads| ==> !s.threads[t].Manager?)
  }

  predicate RoleMove(pc: Pc, m: Move) {
    && (m.pc.Manager? <==> pc.Manager?)
    && (!pc.Manager? ==>
      && (m.effect.Adjust? ==> m.effect.count <= 0 && m.effect.pending <= 0)
      && !m.effect.TakeRequest? && !m.effect.Settle? && !m.effect.Spawn? && !m.effect.Refuse?)
  }

  lemma RolePlan(s: State, t: nat, c: Choice)
    requires WellShaped(s) && t < |s.threads|
    ensures RoleMove(s.threads[t], Plan(s, t, c))
  {
  }

  function Max(a: nat, b: nat): nat {
    if a < b then b else a
  }

  /** The ceiling: the largest of the three settings, plus one for each request granted. */
  function Ceiling(s: State): nat {
    Max(s.cfg.workerMin, Max(s.cfg.threshold, s.cfg.workerMax)) + s.requestsTaken
  }

  /** `worker_start` before it counts the new worker. */
  predicate NotCounted(start: Start) {
    start.SPending? || start.SIdle? || start.SCount?
  }

  predicate InStartup(m: ManagerPc) {
    m.MStartup? || (m.MStart? && m.resume.ToStartup?)
  }

  /** Between seeing `pending_thread_create` at zero and counting a new pending worker. */
  predicate Deciding(m: ManagerPc) {
    m.MTestRequest? || m.MTakeRequest? || m.MTestLow? || m.MTestHigh? || m.MProbe? || m.MRetestIdle?
    || (m.MStart? && m.start.SPending? && m.resume.ToLoop?)
  }

  /** What the manager knows about `count` at each of its statements. */
  predicate CeilingAt(s: State, m: ManagerPc) {
    && s.count <= Ceiling(s)
    && (m.MStartup? ==> s.count <= m.i <= s.cfg.workerMin)
    && (m.MStart? && m.resume.ToStartup? ==>
      s.count + One(NotCounted(m.start)) <= m.resume.i <= s.cfg.workerMin)
    && (m.MStart? && m.resume.ToLoop? && NotCounted(m.start) ==> s.count < Ceiling(s))
    && (m.MProbe? || m.MRetestIdle? ==> s.count < s.cfg.workerMax)
  }

  /** What it knows about requests and pending workers. */
  predicate PendingAt(s: State, m: ManagerPc) {
    && 0 <= s.requests == s.requestsMade - s.requestsTaken
    && (m.MTakeRequest? ==> 0 < s.requests)
    && (InStartup(m) ==> !s.settled)
    && (s.settled ==> s.pending <= 1)
    && (Deciding(m) ==> s.pending <= 0)
    && (m.MStart? && m.resume.ToLoop? ==> s.settled)
    && (Deciding(m) ==> s.settled)
  }

  predicate ManagerOk(s: State) {
    && RolesOk(s)
    && CeilingAt(s, s.threads[0].m)
    && PendingAt(s, s.threads[0].m)
  }

  /** The manager's own step, by the part of its program it is in. */
  lemma DecideOwn(s: State, m: ManagerPc, c: Choice, n: State)
    requires !m.MStart? && !m.MStop? && CeilingAt(s, m) && PendingAt(s, m) && 0 <= s.pending
    requires n.cfg == s.cfg && n.count == s.count && n.pending == s.pending && n.requestsMade == s.requestsMade
    requires n.requests == s.requests - One(m.MTakeRequest?) && n.requestsTaken == s.requestsTaken + One(m.MTakeRequest?)
    requires n.settled == (s.settled || (m.MTestPending? && s.pending == 0))
    ensures CeilingAt(n, Decide(s, m, c)) && PendingAt(n, Decide(s, m, c))
  {
  }

  lemma StartOwn(s: State, m: ManagerPc, c: Choice, n: State)
    requires m.MStart? && CeilingAt(s, m) && PendingAt(s, m)
    requires n.cfg == s.cfg && n.requestsMade == s.requestsMade && n.settled == s.settled
    requires n.requests == s.requests && n.requestsTaken == s.requestsTaken
    requires n.count == s.count + One(m.start.SCount?) - One(m.start.SUndoCount?)
    requires n.pending == s.pending + One(m.start.SPending?)
    ensures PlanStart(m.start, m.resume, c).pc.Manager?
    ensures CeilingAt(n, PlanStart(m.start, m.resume, c).pc.m) && PendingAt(n, PlanStart(m.start, m.resume, c).pc.m)
  {
  }

  lemma ManagerOwn(s: State, c: Choice)
    requires CanStep(s, 0, c) && ManagerOk(s) && CountersOk(s)
    ensures Plan(s, 0, c).pc.Manager?
    ensures CeilingAt(Step(s, 0, c), Plan(s, 0, c).pc.m) && PendingAt(Step(s, 0, c), Plan(s, 0, c).pc.m)
  {
    var m, n := s.threads[0].m, Step(s, 0, c);
    ScoreboardBounds(s);
    if m.MStart? {
      StartOwn(s, m, c, n);
    } else if !m.MStop? {
      DecideOwn(s, m, c, n);
    }
  }

  lemma ManagerApply(s: State, t: nat, m: Move)
    requires WellShaped(s) && t < |s.threads| && Possible(s, m.effect) && ManagerOk(s)
    requires RoleMove(s.threads[t], m)
    requires t == 0 ==> CeilingAt(Apply(s, t, m), m.pc.m) && PendingAt(Apply(s, t, m), m.pc.m)
    ensures ManagerOk(Apply(s, t, m))
  {
    var n := Apply(s, t, m);
    assert t != 0 ==> n.threads[0] == s.threads[0];
  }

  lemma ManagerStep(s: State, t: nat, c: Choice)
    requires CanStep(s, t, c) && ManagerOk(s) && CountersOk(s)
    ensures ManagerOk(Step(s, t, c))
  {
    RolePlan(s, t, c);
    if t == 0 {
      ManagerOwn(s, c);
    }
    ManagerApply(s, t, Plan(s, t, c));
  }

  /** Once the manager has seen all startup workers begun, at most one created worker has not yet
      begun, and none while a creation has been refused. */
  lemma AtMostOnePending(s: State)
    requires ManagerOk(s) && CountersOk(s) && s.settled
    ensures Total(BornW, s) + s.failed <= 1
  {
    ScoreboardBounds(s);
  }

  /** The startup loop is over, and the manager has since found every created worker begun or none is
      waiting to begin. */
  predicate PastStartup(s: State) {
    RolesOk(s) && !InStartup(s.threads[0].m) && (s.settled || Total(BornW, s) == 0)
  }

  predicate BirthMove(pc: Pc, m: Move) {
    && m.pc != Worker(Born)
    && (m.effect.Spawn? ==> pc.Manager? && pc.m.MStart?)
    && (m.pc.Manager? && InStartup(m.pc.m) ==> pc.Manager? && InStartup(pc.m))
  }

  lemma BirthPlan(s: State, t: nat, c: Choice)
    requires WellShaped(s) && t < |s.threads|
    ensures BirthMove(s.threads[t], Plan(s, t, c))
  {
  }

  /** Before the manager has seen every worker begun, it creates none outside the startup loop. */
  lemma PastStartupStep(s: State, t: nat, c: Choice)
    requires CanStep(s, t, c) && ManagerOk(s) && CountersOk(s) && PastStartup(s)
    ensures PastStartup(Step(s, t, c))
  {
    RolePlan(s, t, c);
    BirthPlan(s, t, c);
    TotalStep(BornW, s, t, c);
    SumNonNegative(BornW, Step(s, t, c).threads);
    PastStartupApply(s, t, Plan(s, t, c));
  }

  lemma PastStartupApply(s: State, t: nat, m: Move)
    requires WellShaped(s) && t < |s.threads| && Possible(s, m.effect) && ManagerOk(s) && PastStartup(s)
    requires RoleMove(s.threads[t], m) && BirthMove(s.threads[t], m)
    requires 0 <= Total(BornW, Apply(s, t, m)) ==
      Total(BornW, s) - BornW(s.threads[t]) + BornW(m.pc) + Extra(BornW, s, m.effect)
    ensures PastStartup(Apply(s, t, m))
  {
    var n := Apply(s, t, m);
    assert t != 0 ==> n.threads[0] == s.threads[0];
  }

  /** The manager's test for growth passes exactly when every created worker has begun and no creation
      was ever refused. */
  lemma GrowthTest(s: State, c: Choice)
    requires ManagerOk(s) && CountersOk(s) && s.threads[0].m.MTestPending?
    ensures Decide(s, s.threads[0].m, c).MTestRequest? <==> Total(BornW, s) == 0 && s.failed == 0
  {
    ScoreboardBounds(s);
    forall t | 0 <= t < |s.threads| ensures PendingW(s.threads[t]) <= BornW(s.threads[t]) {
      assert t > 0 ==> !s.threads[t].Manager?;
    }
    SumMonotone(PendingW, BornW, s.threads);
  }

  /** A creation was refused and the manager is back in its loop. */
  predicate Stalled(s: State) {
    RolesOk(s) && 0 < s.failed && !s.threads[0].m.MStart? && !s.threads[0].m.MStartup?
  }

  /** From then on no worker is ever created: `pending_thread_create` never returns to zero. */
  lemma StalledStep(s: State, t: nat, c: Choice)
    requires CanStep(s, t, c) && ManagerOk(s) && CountersOk(s) && Stalled(s)
    ensures Stalled(Step(s, t, c)) && |Step(s, t, c).threads| == |s.threads|
  {
    RolePlan(s, t, c);
    ScoreboardBounds(s);
    if t != 0 {
      assert Step(s, t, c).threads[0] == s.threads[0];
    }
    ManagerStep(s, t, c);
  }

  /** The pool has no worker and the manager is past the point where it could still start one. */
  predicate Deserted(s: State) {
    && RolesOk(s) && s.count == 0
    && var m := s.threads[0].m; !InStartup(m) && !m.MStart? && !Deciding(m) && !m.MTestPending?
  }

  /** From then on no worker is ever created: the growth test asks for a pool that is not empty. */
  lemma DesertedStep(s: State, t: nat, c: Choice)
    requires CanStep(s, t, c) && CountersOk(s) && CountersOk(Step(s, t, c)) && Deserted(s)
    ensures Deserted(Step(s, t, c)) && |Step(s, t, c).threads| == |s.threads|
  {
    RolePlan(s, t, c);
    ScoreboardBounds(Step(s, t, c));
    DesertedApply(s, t, c, Plan(s, t, c));
  }

  lemma DesertedApply(s: State, t: nat, c: Choice, m: Move)
    requires CanStep(s, t, c) && m == Plan(s, t, c) && Deserted(s) && RoleMove(s.threads[t], m)
    requires 0 <= Step(s, t, c).count
    ensures Deserted(Step(s, t, c)) && |Step(s, t, c).threads| == |s.threads|
  {
    var n := Step(s, t, c);
    assert t != 0 ==> n.threads[0] == s.threads[0];
  }
}
