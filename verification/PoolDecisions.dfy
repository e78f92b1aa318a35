/** Why the manager of the running pool acts: each worker it starts in its loop and each exit item it
    posts is traced back to what it observed, although the scoreboard may have changed since. */
module PoolDecisions {
  import opened PoolModel
  import opened PoolManager
  import opened PoolRuns

  /** The manager's statement at state `i` of a run. */
  function ManagerAt(run: seq<State>, i: nat): Pc
    requires i < |run|
  {
    if run[i].threads == [] then Rest else run[i].threads[0]
  }

  /** A step that moves the manager was taken by the manager. */
  lemma MovedItself(s: State, n: State) returns (c: Choice)
    requires Next(s, n) && RolesOk(s) && RolesOk(n)
    ensures n.threads[0] == s.threads[0] || (CanStep(s, 0, c) && n.threads[0] == Plan(s, 0, c).pc)
  {
    var u: nat, d: Choice :| CanStep(s, u, d) && n == Step(s, u, d);
    c := d;
    ThreadAfter(s, u, Plan(s, u, d), 0);
  }

  lemma RolesAt(run: seq<State>, i: nat)
    requires IsRun(run) && i < |run|
    ensures RolesOk(run[i])
  {
    Reachable(run, i);
  }

  lemma MovedAt(run: seq<State>, j: nat) returns (c: Choice)
    requires IsRun(run) && 0 < j < |run|
    ensures ManagerAt(run, j).Manager? && ManagerAt(run, j - 1).Manager?
    ensures || ManagerAt(run, j) == ManagerAt(run, j - 1)
            || (CanStep(run[j - 1], 0, c) && ManagerAt(run, j) == Plan(run[j - 1], 0, c).pc)
  {
    RolesAt(run, j - 1);
    RolesAt(run, j);
    assert NextAt(run, j - 1);
    c := MovedItself(run[j - 1], run[j]);
  }

  /** The statement the manager came from, and when. */
  lemma {:induction false} CameFrom(run: seq<State>, j: nat) returns (i: nat, c: Choice)
    requires IsRun(run) && j < |run| && ManagerAt(run, j) != Manager(MStartup(0))
    ensures i < j && ManagerAt(run, i).Manager?
    ensures CanStep(run[i], 0, c) && ManagerAt(run, j) == Plan(run[i], 0, c).pc
    ensures forall k :: i < k <= j ==> ManagerAt(run, k) == ManagerAt(run, j)
  {
    c := MovedAt(run, j);
    if ManagerAt(run, j) == ManagerAt(run, j - 1) {
      i, c := CameFrom(run, j - 1);
    } else {
      i := j - 1;
    }
  }

  /** What the manager saw on its way from statement `m` into statement `n` of the growth decision. */
  predicate GrowthMove(s: State, m: ManagerPc, n: ManagerPc) {
    && (n.MTestCount? ==> m.MTestIdle? && s.idle == 0)
    && (n.MTestPending? ==> m.MTestCount? && s.count > 0)
    && (n.MTestRequest? ==> m.MTestPending? && s.pending == 0)
    && (n.MTakeRequest? ==> m.MTestRequest? && s.requests != 0)
    && (n.MTestLow? ==> m.MTestRequest? && s.requests == 0)
    && (n.MTestHigh? ==> m.MTestLow? && s.count >= s.cfg.threshold)
    && (n.MProbe? ==> m.MTestHigh? && s.count < s.cfg.workerMax)
    && (n.MRetestIdle? ==> m.MProbe?)
    && (n.MStart? && n.start.SPending? && n.resume.ToLoop? ==>
      m.MTakeRequest? || (m.MTestLow? && s.count < s.cfg.threshold) || (m.MRetestIdle? && s.idle == 0))
  }

  /** The same for ramp-down. */
  predicate RampMove(s: State, m: ManagerPc, n: ManagerPc) {
    && (n.DTest? ==> (m.MTestIdle? || m.MTestCount? || m.MTestPending?) && m.tick && m.acc == n.acc)
    && (n.DAdd? ==> m.DTest? && m.acc == n.acc && s.idle > s.cfg.threshold)
    && (n.DSurplus? ==> m.DAdd? && n.max == (m.acc + s.idle) % UINT / IDLE_SECONDS > 0)
    && (n.DLoop? ==>
      || (m.DSurplus? && n.i == 0 && n.max == Min(m.max, (s.idle - s.cfg.threshold) % UINT))
      || ((m.DLoop? || m.MStop?) && m.max == n.max && n.i == m.i + 1))
    && (n.MStop? ==>
      if n.stop.XAlloc? then m == DLoop(n.i, n.max) && n.i < n.max && s.idle > s.cfg.threshold
      else m.MStop? && m.i == n.i && m.max == n.max)
  }

  lemma GrowthPlan(s: State, c: Choice)
    requires WellShaped(s) && 0 < |s.threads| && s.threads[0].Manager? && Plan(s, 0, c).pc.Manager?
    ensures GrowthMove(s, s.threads[0].m, Plan(s, 0, c).pc.m)
  {
  }

  lemma RampPlan(s: State, c: Choice)
    requires WellShaped(s) && 0 < |s.threads| && s.threads[0].Manager? && Plan(s, 0, c).pc.Manager?
    ensures RampMove(s, s.threads[0].m, Plan(s, 0, c).pc.m)
  {
  }

  /** From `a` to `j` the manager did not return to the head of its loop. */
  predicate SamePass(run: seq<State>, a: nat, j: nat) {
    && a <= j < |run|
    && (forall k :: a <= k <= j ==> ManagerAt(run, k).Manager? && !ManagerAt(run, k).m.MLoop?)
  }

  /** One statement back: the step at `i` executed it. */
  lemma Back(run: seq<State>, j: nat) returns (i: nat)
    requires IsRun(run) && j < |run| && ManagerAt(run, j).Manager? && !ManagerAt(run, j).m.MStartup?
    ensures i < j && ManagerAt(run, i).Manager? && ManagerAt(run, i + 1) == ManagerAt(run, j)
    ensures GrowthMove(run[i], ManagerAt(run, i).m, ManagerAt(run, j).m)
    ensures RampMove(run[i], ManagerAt(run, i).m, ManagerAt(run, j).m)
    ensures !ManagerAt(run, i).m.MLoop? && !ManagerAt(run, j).m.MLoop? ==> SamePass(run, i, j)
  {
    var c;
    i, c := CameFrom(run, j);
    GrowthPlan(run[i], c);
    RampPlan(run[i], c);
  }

  /** The steps of one pass at these three instants execute the manager's first three tests, and each
      passes. */
  predicate FoundBusy(run: seq<State>, a: nat, b: nat, d: nat, j: nat) {
    && a < b < d < j && SamePass(run, a, j)
    && ManagerAt(run, a).m.MTestIdle? && run[a].idle == 0 && ManagerAt(run, a + 1).m.MTestCount?
    && ManagerAt(run, b).m.MTestCount? && run[b].count > 0 && ManagerAt(run, b + 1).m.MTestPending?
    && ManagerAt(run, d).m.MTestPending? && run[d].pending == 0 && ManagerAt(run, d + 1).m.MTestRequest?
  }

  lemma BusyBefore(run: seq<State>, j: nat) returns (a: nat, b: nat, d: nat)
    requires IsRun(run) && j < |run| && ManagerAt(run, j).Manager? && ManagerAt(run, j).m.MTestRequest?
    ensures FoundBusy(run, a, b, d, j)
  {
    d := Back(run, j);
    b := Back(run, d);
    a := Back(run, b);
  }

  /** Why a worker is started, by the steps at two later instants of the pass: a request was found and
      taken; or none was, and the pool was below the threshold; or the pool was below the maximum, and
      still without an idle worker after the load probe. */
  predicate Reason(run: seq<State>, d: nat, e: nat, f: nat, j: nat)
    requires SamePass(run, d, j)
  {
    && d < e < f < j
    && ManagerAt(run, f + 1) == ManagerAt(run, j)
    && var p, next, q := ManagerAt(run, e).m, ManagerAt(run, e + 1).m, ManagerAt(run, f).m;
       || (p.MTestRequest? && run[e].requests != 0 && next == q && q.MTakeRequest?)
       || (p.MTestRequest? && run[e].requests == 0 && next == q && q.MTestLow? && run[f].count < run[f].cfg.threshold)
       || (p.MTestHigh? && run[e].count < run[e].cfg.workerMax && next.MProbe? && q.MRetestIdle? && run[f].idle == 0)
  }

  /** Every worker started in the loop, in every run: in the same pass the manager tested and found no
      worker idle, the pool not empty and no creation pending, and then one of the three reasons. */
  lemma GrowthIsJustified(run: seq<State>, j: nat) returns (a: nat, b: nat, d: nat, e: nat, f: nat)
    requires IsRun(run) && j < |run| && ManagerAt(run, j).Manager?
    requires ManagerAt(run, j).m.MStart? && ManagerAt(run, j).m.start.SPending? && ManagerAt(run, j).m.resume.ToLoop?
    ensures FoundBusy(run, a, b, d, j) && Reason(run, d, e, f, j)
  {
    f := Back(run, j);
    if ManagerAt(run, f).m.MTakeRequest? || ManagerAt(run, f).m.MTestLow? {
      e := Back(run, f);
      a, b, d := BusyBefore(run, e);
    } else {
      var probe := Back(run, f);
      e := Back(run, probe);
      var low := Back(run, e);
      var request := Back(run, low);
      a, b, d := BusyBefore(run, request);
    }
  }

  // Ramp-down

  /** The manager is in the stopping loop of one tick that may stop up to `max` workers. */
  predicate Stopping(m: ManagerPc, max: nat) {
    (m.DLoop? || m.MStop?) && m.max == max && m.i <= max && (m.MStop? ==> m.i < max)
  }

  /** The rounds of the loop that have made their exit item. */
  function Rounds(m: ManagerPc): nat
    requires m.DLoop? || m.MStop?
  {
    if m.MStop? && !m.stop.XAlloc? then m.i + 1 else m.i
  }

  lemma StoppingStep(s: State, t: nat, c: Choice, max: nat)
    requires CanStep(s, t, c) && RolesOk(s) && RolesOk(Step(s, t, c))
    requires Stopping(s.threads[0].m, max)
    ensures var m, n := s.threads[0].m, Step(s, t, c).threads[0].m;
      n.DLoop? || n.MStop? ==>
        && Stopping(n, max)
        && Step(s, t, c).exitsMade - s.exitsMade <= Rounds(n) - Rounds(m)
        && (m.DLoop? && n.MStop? ==> s.idle > s.cfg.threshold)
  {
    ThreadAfter(s, t, Plan(s, t, c), 0);
    if t != 0 {
      OnlyManagerExits(s, t, c);
    }
  }

  lemma OnlyManagerExits(s: State, t: nat, c: Choice)
    requires CanStep(s, t, c) && RolesOk(s) && t != 0
    ensures !(Plan(s, t, c).effect.Alloc? && Plan(s, t, c).effect.exit)
  {
  }

  lemma StoppingAt(run: seq<State>, j: nat, max: nat)
    requires IsRun(run) && j + 1 < |run| && ManagerAt(run, j).Manager? && Stopping(ManagerAt(run, j).m, max)
    ensures ManagerAt(run, j + 1).Manager?
    ensures var m, n := ManagerAt(run, j).m, ManagerAt(run, j + 1).m;
      n.DLoop? || n.MStop? ==>
        && Stopping(n, max)
        && run[j + 1].exitsMade - run[j].exitsMade <= Rounds(n) - Rounds(m)
        && (m.DLoop? && n.MStop? ==> run[j].idle > run[j].cfg.threshold)
  {
    RolesAt(run, j);
    RolesAt(run, j + 1);
    assert NextAt(run, j);
    var t: nat, c: Choice :| CanStep(run[j], t, c) && run[j + 1] == Step(run[j], t, c);
    StoppingStep(run[j], t, c, max);
  }

  /** In the stopping loop of one tick, in every run: at most `max` exit items are made, one a round,
      however idle workers come and go. */
  lemma {:induction false} StopsPerTick(run: seq<State>, a: nat, j: nat, max: nat)
    requires IsRun(run) && a <= j < |run| && ManagerAt(run, a) == Manager(DLoop(0, max))
    requires forall k :: a <= k <= j ==>
      ManagerAt(run, k).Manager? && (ManagerAt(run, k).m.DLoop? || ManagerAt(run, k).m.MStop?)
    ensures Stopping(ManagerAt(run, j).m, max)
    ensures run[j].exitsMade - run[a].exitsMade <= Rounds(ManagerAt(run, j).m) <= max
    decreases j
  {
    if a < j {
      StopsPerTick(run, a, j - 1, max);
      StoppingAt(run, j - 1, max);
    }
  }

  /** The test of the round an exit item belongs to. */
  lemma {:induction false} RoundOrigin(run: seq<State>, j: nat) returns (i: nat)
    requires IsRun(run) && j < |run| && ManagerAt(run, j).Manager? && ManagerAt(run, j).m.MStop?
    ensures i < j && SamePass(run, i, j)
    ensures var n := ManagerAt(run, j).m; ManagerAt(run, i) == Manager(DLoop(n.i, n.max)) && n.i < n.max
    ensures run[i].idle > run[i].cfg.threshold
    ensures ManagerAt(run, i + 1).m.MStop? && ManagerAt(run, i + 1).m.stop.XAlloc?
  {
    i := Back(run, j);
    if !ManagerAt(run, j).m.stop.XAlloc? {
      i := RoundOrigin(run, i);
    }
  }

  /** Where the limit of the stopping loop was set. */
  lemma {:induction false} LimitOrigin(run: seq<State>, j: nat) returns (i: nat)
    requires IsRun(run) && j < |run| && ManagerAt(run, j).Manager?
    requires ManagerAt(run, j).m.DLoop? || ManagerAt(run, j).m.MStop?
    ensures i < j && SamePass(run, i, j) && ManagerAt(run, i).m.DSurplus? && ManagerAt(run, i + 1).m.DLoop?
    ensures ManagerAt(run, j).m.max == Min(ManagerAt(run, i).m.max, (run[i].idle - run[i].cfg.threshold) % UINT)
  {
    i := Back(run, j);
    if !ManagerAt(run, i).m.DSurplus? {
      i := LimitOrigin(run, i);
    }
  }

  /** Every exit item, in every run: in one pass of the loop that came with a timer tick, the manager
      found more idle workers than the threshold, had accumulated at least 15 idle thread-seconds,
      limited itself to the multiples of 15 and to the surplus it then saw, and in the round at hand,
      within that limit, again found more idle workers than the threshold. */
  lemma StopIsJustified(run: seq<State>, j: nat) returns (tick: nat, test: nat, add: nat, surplus: nat, round: nat)
    requires IsRun(run) && j < |run| && ManagerAt(run, j).Manager? && ManagerAt(run, j).m.MStop?
    ensures tick < test < add < surplus < round < j && SamePass(run, tick, j)
    ensures var p := ManagerAt(run, tick).m; (p.MTestIdle? || p.MTestCount? || p.MTestPending?) && p.tick
    ensures ManagerAt(run, tick + 1).m.DTest?
    ensures ManagerAt(run, test).m.DTest? && run[test].idle > run[test].cfg.threshold && ManagerAt(run, test + 1).m.DAdd?
    ensures ManagerAt(run, add).m.DAdd? && ManagerAt(run, add + 1).m.DSurplus?
    ensures ManagerAt(run, surplus).m.DSurplus? && ManagerAt(run, surplus + 1).m.DLoop?
    ensures var seconds := (ManagerAt(run, add).m.acc + run[add].idle) % UINT;
      && seconds >= IDLE_SECONDS
      && ManagerAt(run, surplus).m.max == seconds / IDLE_SECONDS
      && ManagerAt(run, j).m.max ==
           Min(seconds / IDLE_SECONDS, (run[surplus].idle - run[surplus].cfg.threshold) % UINT)
    ensures var n := ManagerAt(run, j).m; ManagerAt(run, round) == Manager(DLoop(n.i, n.max)) && n.i < n.max
    ensures run[round].idle > run[round].cfg.threshold
    ensures ManagerAt(run, round + 1).m.MStop? && ManagerAt(run, round + 1).m.stop.XAlloc?
  {
    round := RoundOrigin(run, j);
    surplus := LimitOrigin(run, round);
    add := Back(run, surplus);
    test := Back(run, add);
    tick := Back(run, test);
  }
}
