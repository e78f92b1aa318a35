/** The floor of the running pool: how far one timer tick can shrink it while workers come and go and
    earlier exit items may still be on their way. */
module PoolFloor {
  import opened Sums
  import opened PoolModel
  import opened PoolCounters
  import opened PoolItems
  import opened PoolManager
  import opened PoolRuns
  import opened PoolDecisions

  /** A worker, in the pool or not. */
  function EverW(pc: Pc): int {
    One(pc.Worker? || (pc.Posting? && pc.host.Some?))
  }

  /** A worker that has left the pool. */
  function LeftW(pc: Pc): int {
    One(pc.Worker? && (pc.w.RetireFree? || pc.w.Dead?))
  }

  /** The exit items made that have not yet taken a worker out of the pool. */
  function ExitsOut(s: State): int {
    s.exitsMade - Total(LeftW, s)
  }

  // Workers leave only for exit items

  lemma EverPlan(s: State, t: nat, c: Choice)
    requires WellShaped(s) && t < |s.threads|
    ensures EverW(Plan(s, t, c).pc) == EverW(s.threads[t])
  {
  }

  lemma EverAt(run: seq<State>, j: nat)
    requires IsRun(run) && j + 1 < |run|
    ensures Total(EverW, run[j]) <= Total(EverW, run[j + 1])
  {
    assert NextAt(run, j);
    var t: nat, c: Choice :| CanStep(run[j], t, c) && run[j + 1] == Step(run[j], t, c);
    EverPlan(run[j], t, c);
    TotalStep(EverW, run[j], t, c);
  }

  lemma {:induction false} EverGrows(run: seq<State>, i: nat, j: nat)
    requires IsRun(run) && i <= j < |run|
    ensures Total(EverW, run[i]) <= Total(EverW, run[j])
    decreases j
  {
    if i < j {
      EverGrows(run, i, j - 1);
      EverAt(run, j - 1);
    }
  }

  /** The pool has at least the workers that have not left, and exactly those while the manager is not
      inside `worker_start`. */
  lemma {:induction false} Members(threads: seq<Pc>)
    ensures Sum(EverW, threads) - Sum(LeftW, threads) <= Sum(CountW, threads)
    ensures (forall t :: 0 <= t < |threads| ==> !(threads[t].Manager? && threads[t].m.MStart?)) ==>
      Sum(CountW, threads) == Sum(EverW, threads) - Sum(LeftW, threads) && Sum(IdleW, threads) <= Sum(CountW, threads)
  {
    if threads != [] {
      Members(threads[..|threads| - 1]);
    }
  }

  /** Every worker that has left took an exit item. */
  lemma LeftByExit(run: seq<State>, j: nat)
    requires IsRun(run) && j < |run|
    ensures 0 <= ExitsOut(run[j])
  {
    Reachable(run, j);
    var s := run[j];
    FirstQueueExists(s);
    SumNonNegative(MakingW, s.threads);
    SumNonNegative(ExitW, s.lists[First(s.cfg.queues)]);
    forall t | 0 <= t < |s.threads| ensures LeftW(s.threads[t]) <= RetiredW(s.threads[t]) {
      assert ItemOk(s.threads[t]);
    }
    SumMonotone(LeftW, RetiredW, s.threads);
  }

  /** Between two states of a run the pool loses at most the exit items that were out and those made
      since. */
  lemma LossIsExits(run: seq<State>, d: nat, j: nat)
    requires IsRun(run) && d <= j < |run| && ManagerAt(run, d).Manager? && !ManagerAt(run, d).m.MStart?
    ensures run[j].count >= run[d].count - ExitsOut(run[d]) - (run[j].exitsMade - run[d].exitsMade)
    ensures run[d].idle <= run[d].count
  {
    ScoreboardAlwaysExact(run, d);
    ScoreboardAlwaysExact(run, j);
    RolesAt(run, d);
    EverGrows(run, d, j);
    LeftByExit(run, j);
    Members(run[d].threads);
    Members(run[j].threads);
  }

  // One tick makes no more exit items than its limit

  /** The exit items made since the limit was set, `base` of them earlier. */
  predicate Within(s: State, m: ManagerPc, base: nat, max: nat) {
    if m.DLoop? || m.MStop? then Stopping(m, max) && s.exitsMade - base <= Rounds(m) else s.exitsMade - base <= max
  }

  lemma WithinStep(s: State, t: nat, c: Choice, base: nat, max: nat)
    requires CanStep(s, t, c) && RolesOk(s) && RolesOk(Step(s, t, c))
    requires Within(s, s.threads[0].m, base, max) && !s.threads[0].m.DSurplus?
    ensures Within(Step(s, t, c), Step(s, t, c).threads[0].m, base, max)
  {
    ThreadAfter(s, t, Plan(s, t, c), 0);
    if t != 0 {
      OnlyManagerExits(s, t, c);
    }
  }

  lemma WithinAt(run: seq<State>, j: nat, base: nat, max: nat)
    requires IsRun(run) && j + 1 < |run| && ManagerAt(run, j).Manager? && !ManagerAt(run, j).m.DSurplus?
    requires Within(run[j], ManagerAt(run, j).m, base, max)
    ensures ManagerAt(run, j + 1).Manager? && Within(run[j + 1], ManagerAt(run, j + 1).m, base, max)
  {
    RolesAt(run, j);
    RolesAt(run, j + 1);
    assert NextAt(run, j);
    var t: nat, c: Choice :| CanStep(run[j], t, c) && run[j + 1] == Step(run[j], t, c);
    WithinStep(run[j], t, c, base, max);
  }

  lemma LimitStep(s: State, t: nat, c: Choice)
    requires CanStep(s, t, c) && RolesOk(s) && s.threads[0].m.DSurplus?
    ensures Step(s, t, c).threads != []
    ensures var n := Step(s, t, c); n.threads[0] != s.threads[0] ==>
      && n.threads[0] == Manager(DLoop(0, Min(s.threads[0].m.max, (s.idle - s.cfg.threshold) % UINT)))
      && n.exitsMade == s.exitsMade
  {
    ThreadAfter(s, t, Plan(s, t, c), 0);
  }

  lemma LimitSet(run: seq<State>, d: nat)
    requires IsRun(run) && d + 1 < |run| && ManagerAt(run, d).Manager? && ManagerAt(run, d).m.DSurplus?
    requires ManagerAt(run, d + 1) != ManagerAt(run, d)
    ensures ManagerAt(run, d + 1) ==
      Manager(DLoop(0, Min(ManagerAt(run, d).m.max, (run[d].idle - run[d].cfg.threshold) % UINT)))
    ensures run[d + 1].exitsMade == run[d].exitsMade
  {
    RolesAt(run, d);
    assert NextAt(run, d);
    LimitNext(run[d], run[d + 1]);
  }

  lemma LimitNext(s: State, n: State)
    requires Next(s, n) && RolesOk(s) && s.threads[0].m.DSurplus?
    ensures n.threads != []
    ensures n.threads[0] != s.threads[0] ==>
      && n.threads[0] == Manager(DLoop(0, Min(s.threads[0].m.max, (s.idle - s.cfg.threshold) % UINT)))
      && n.exitsMade == s.exitsMade
  {
    var t: nat, c: Choice :| CanStep(s, t, c) && n == Step(s, t, c);
    LimitStep(s, t, c);
  }

  /** The instant `d` executes the computation of the surplus, and up to `j` no later one is reached. */
  predicate LastLimit(run: seq<State>, d: nat, j: nat) {
    && d < j < |run| && ManagerAt(run, d).Manager? && ManagerAt(run, d).m.DSurplus?
    && (forall k :: d < k <= j ==> ManagerAt(run, k).Manager? && !ManagerAt(run, k).m.DSurplus?)
  }

  lemma {:induction false} TickBudget(run: seq<State>, d: nat, j: nat, max: nat)
    requires IsRun(run) && LastLimit(run, d, j)
    requires max == Min(ManagerAt(run, d).m.max, (run[d].idle - run[d].cfg.threshold) % UINT)
    ensures Within(run[j], ManagerAt(run, j).m, run[d].exitsMade, max)
    decreases j
  {
    if j == d + 1 {
      LimitSet(run, d);
    } else {
      TickBudget(run, d, j - 1, max);
      WithinAt(run, j - 1, run[d].exitsMade, max);
    }
  }

  lemma {:induction false} SameSettings(run: seq<State>, i: nat)
    requires IsRun(run) && i < |run|
    ensures run[i].cfg == run[0].cfg
  {
    if i > 0 {
      SameSettings(run, i - 1);
      assert NextAt(run, i - 1);
    }
  }

  /** The floor, in every run: when the surplus is computed with at least the threshold of idle workers,
      then until the next computation the pool keeps the threshold, less the exit items that were
      still out. */
  lemma FloorHolds(run: seq<State>, d: nat, j: nat)
    requires IsRun(run) && LastLimit(run, d, j) && run[d].idle >= run[d].cfg.threshold
    ensures run[j].count >= run[j].cfg.threshold - ExitsOut(run[d])
  {
    SameSettings(run, d);
    SameSettings(run, j);
    var surplus := run[d].idle - run[d].cfg.threshold;
    TickBudget(run, d, j, Min(ManagerAt(run, d).m.max, surplus % UINT));
    assert surplus % UINT <= surplus;
    LossIsExits(run, d, j);
  }

  /** The computation at line 731 bounds the limit by the surplus if and only if there is no deficit:
      with fewer idle workers than the threshold the difference wraps and bounds nothing. */
  lemma SurplusWraps(s: State, max: nat, c: Choice)
    requires 0 <= s.idle < UINT && s.cfg.threshold < UINT && 0 < max
    ensures var n := Decide(s, DSurplus(max), c);
      && n.DLoop? && n.i == 0
      && (n.max <= s.idle - s.cfg.threshold <==> s.cfg.threshold <= s.idle)
      && (s.idle < s.cfg.threshold && max <= UINT - s.cfg.threshold ==> n.max == max)
  {
  }
}
