/** A whole timer tick of the running pool's manager, from the head of its loop back to it, while no
    other thread moves: it is the tick of `RampDown`. */
module PoolTick {
  import opened PoolModel
  import opened PoolManager
  import opened PoolRuns
  import opened PoolDecisions
  import RD = RampDown

  /** The test for growth fails. */
  predicate NoGrowth(s: State) {
    s.idle != 0 || s.count <= 0 || s.pending != 0
  }

  /** What the manager has done by the time it is at statement `m` of the tick that began with `r`
      and with `made` exit items. */
  predicate OnTick(s: State, m: ManagerPc, r: RD.Ramp, made: nat) {
    var threshold := s.cfg.threshold;
    && s.idle == r.idle
    && match m
       case MTestIdle(tick, acc) => tick && acc == r.acc && s.exitsMade == made
       case MTestCount(tick, acc) => tick && acc == r.acc && s.exitsMade == made && s.idle == 0
       case MTestPending(tick, acc) => tick && acc == r.acc && s.exitsMade == made && s.idle == 0 && s.count > 0
       case DTest(acc) => acc == r.acc && s.exitsMade == made
       case DAdd(acc) => acc == r.acc && s.exitsMade == made && s.idle > threshold
       case DSurplus(max) =>
         && s.exitsMade == made && s.idle > threshold
         && max == (r.acc + r.idle) / IDLE_SECONDS && r.acc + r.idle >= IDLE_SECONDS
       case DLoop(i, max) =>
         && s.exitsMade == made + i && i <= max && s.idle > threshold
         && max == RD.Stops(r, threshold) && RD.NewAcc(r, threshold) == 0
       case MStop(_, i, max) =>
         && s.exitsMade == made + Rounds(m) && i < max && s.idle > threshold
         && max == RD.Stops(r, threshold) && RD.NewAcc(r, threshold) == 0
       case MLoop(acc) => acc == RD.NewAcc(r, threshold) && s.exitsMade == made + RD.Stops(r, threshold)
       case _ => false
  }

  predicate SameCounters(s: State, n: State) {
    n.cfg == s.cfg && n.idle == s.idle && n.count == s.count && n.pending == s.pending
  }

  /** The tests before the loop over the stops. */
  lemma TickTests(s: State, m: ManagerPc, c: Choice, n: State, r: RD.Ramp, made: nat)
    requires OnTick(s, m, r, made) && (m.MTestIdle? || m.MTestCount? || m.MTestPending? || m.DTest? || m.DLoop?)
    requires NoGrowth(s)
    requires SameCounters(s, n) && n.exitsMade == s.exitsMade
    ensures OnTick(n, Decide(s, m, c), r, made)
  {
  }

  lemma Fits(n: nat)
    requires n < UINT
    ensures n % UINT == n && (n / IDLE_SECONDS > 0 <==> n >= IDLE_SECONDS)
  {
  }

  /** The computation of the limit. */
  lemma TickAdds(s: State, m: ManagerPc, c: Choice, n: State, r: RD.Ramp, made: nat)
    requires OnTick(s, m, r, made) && m.DAdd? && RD.Calm(r)
    requires SameCounters(s, n) && n.exitsMade == s.exitsMade
    ensures OnTick(n, Decide(s, m, c), r, made)
  {
    Fits(r.acc + r.idle);
  }

  lemma TickLimits(s: State, m: ManagerPc, c: Choice, n: State, r: RD.Ramp, made: nat)
    requires OnTick(s, m, r, made) && m.DSurplus? && RD.Calm(r)
    requires SameCounters(s, n) && n.exitsMade == s.exitsMade
    ensures OnTick(n, Decide(s, m, c), r, made)
  {
    Fits(r.idle - s.cfg.threshold);
    assert Decide(s, m, c) == DLoop(0, Min(m.max, r.idle - s.cfg.threshold));
  }

  /** The statements of `manager_main`, none of which changes a counter. */
  lemma TickDecides(s: State, m: ManagerPc, c: Choice, n: State, r: RD.Ramp, made: nat)
    requires OnTick(s, m, r, made) && !m.MLoop? && !m.MStop?
    requires NoGrowth(s) && RD.Calm(r)
    requires SameCounters(s, n) && n.exitsMade == s.exitsMade
    ensures OnTick(n, Decide(s, m, c), r, made)
  {
    if m.DAdd? {
      TickAdds(s, m, c, n, r, made);
    } else if m.DSurplus? {
      TickLimits(s, m, c, n, r, made);
    } else {
      TickTests(s, m, c, n, r, made);
    }
  }

  /** A stage of `worker_stop`. */
  lemma TickStops(s: State, c: Choice, r: RD.Ramp, made: nat)
    requires CanStep(s, 0, c) && s.threads[0].Manager? && s.threads[0].m.MStop? && OnTick(s, s.threads[0].m, r, made)
    ensures Step(s, 0, c).threads != [] && Step(s, 0, c).threads[0].Manager?
    ensures SameCounters(s, Step(s, 0, c)) && OnTick(Step(s, 0, c), Step(s, 0, c).threads[0].m, r, made)
  {
  }

  lemma TickStep(s: State, c: Choice, r: RD.Ramp, made: nat)
    requires CanStep(s, 0, c) && s.threads[0].Manager? && OnTick(s, s.threads[0].m, r, made) && !s.threads[0].m.MLoop?
    requires NoGrowth(s) && RD.Calm(r)
    ensures Step(s, 0, c).threads != [] && Step(s, 0, c).threads[0].Manager?
    ensures SameCounters(s, Step(s, 0, c)) && OnTick(Step(s, 0, c), Step(s, 0, c).threads[0].m, r, made)
  {
    var m, n := s.threads[0].m, Step(s, 0, c);
    if m.MStop? {
      TickStops(s, c, r, made);
    } else {
      TickDecides(s, m, c, n, r, made);
    }
  }

  /** The step at `k` is the manager's. */
  ghost predicate ManagerSteps(run: seq<State>, k: nat) {
    k + 1 < |run| && exists c: Choice :: CanStep(run[k], 0, c) && run[k + 1] == Step(run[k], 0, c)
  }

  /** The step at `k` is the manager's, and the timer has fired. */
  ghost predicate TimerFires(run: seq<State>, k: nat) {
    k + 1 < |run| && exists c: Choice :: c.yes && CanStep(run[k], 0, c) && run[k + 1] == Step(run[k], 0, c)
  }

  /** The step at `k` is the manager's, inside its loop. */
  ghost predicate TickStepAt(run: seq<State>, k: nat) {
    ManagerSteps(run, k) && ManagerAt(run, k).Manager? && !ManagerAt(run, k).m.MLoop?
  }

  /** From the head of the loop at `a`, where the timer fires, only the manager moves, and up to `j` it
      does not come back to the head. */
  ghost predicate TickAlone(run: seq<State>, a: nat, j: nat) {
    && a < j < |run| && ManagerAt(run, a).Manager? && ManagerAt(run, a).m.MLoop? && TimerFires(run, a)
    && (forall k :: a < k < j ==> TickStepAt(run, k))
  }

  lemma TickBegins(run: seq<State>, a: nat)
    requires a + 1 < |run| && ManagerAt(run, a).Manager? && ManagerAt(run, a).m.MLoop? && TimerFires(run, a)
    requires 0 <= run[a].idle
    ensures ManagerAt(run, a + 1).Manager? && SameCounters(run[a], run[a + 1])
    ensures OnTick(run[a + 1], ManagerAt(run, a + 1).m, RD.Ramp(ManagerAt(run, a).m.acc, run[a].idle), run[a].exitsMade)
  {
    var c: Choice :| c.yes && CanStep(run[a], 0, c) && run[a + 1] == Step(run[a], 0, c);
  }

  lemma TickGoesOn(run: seq<State>, j: nat, r: RD.Ramp, made: nat)
    requires j + 1 < |run| && TickStepAt(run, j)
    requires OnTick(run[j], ManagerAt(run, j).m, r, made)
    requires NoGrowth(run[j]) && RD.Calm(r)
    ensures ManagerAt(run, j + 1).Manager? && SameCounters(run[j], run[j + 1])
    ensures OnTick(run[j + 1], ManagerAt(run, j + 1).m, r, made)
  {
    var c: Choice :| CanStep(run[j], 0, c) && run[j + 1] == Step(run[j], 0, c);
    TickStep(run[j], c, r, made);
  }

  lemma {:induction false} TickSoFar(run: seq<State>, a: nat, j: nat, r: RD.Ramp)
    requires TickAlone(run, a, j) && NoGrowth(run[a])
    requires r.acc == ManagerAt(run, a).m.acc && r.idle == run[a].idle && RD.Calm(r)
    ensures ManagerAt(run, j).Manager? && SameCounters(run[a], run[j])
    ensures OnTick(run[j], ManagerAt(run, j).m, r, run[a].exitsMade)
    decreases j
  {
    if j == a + 1 {
      TickBegins(run, a);
    } else {
      TickSoFar(run, a, j - 1, r);
      assert TickStepAt(run, j - 1);
      TickGoesOn(run, j - 1, r, run[a].exitsMade);
    }
  }

  // The accumulator

  /** The idle thread-seconds the manager carries. */
  function Acc(m: ManagerPc): nat {
    match m
    case MLoop(acc) => acc
    case MTestIdle(_, acc) => acc
    case MTestCount(_, acc) => acc
    case MTestPending(_, acc) => acc
    case MTestRequest(acc) => acc
    case MTakeRequest(acc) => acc
    case MTestLow(acc) => acc
    case MTestHigh(acc) => acc
    case MProbe(acc) => acc
    case MRetestIdle(acc) => acc
    case DTest(acc) => acc
    case DAdd(acc) => acc
    case MStart(_, resume) => if resume.ToLoop? then resume.acc else 0
    case _ => 0
  }

  lemma AccStep(s: State, c: Choice)
    requires WellShaped(s) && 0 < |s.threads| && s.threads[0].Manager? && Acc(s.threads[0].m) < IDLE_SECONDS
    ensures Plan(s, 0, c).pc.Manager? && Acc(Plan(s, 0, c).pc.m) < IDLE_SECONDS
  {
  }

  /** In every run the accumulator stays below the limit. */
  lemma {:induction false} AccStaysSmall(run: seq<State>, i: nat)
    requires IsRun(run) && i < |run|
    ensures ManagerAt(run, i).Manager? && Acc(ManagerAt(run, i).m) < IDLE_SECONDS
  {
    if i > 0 {
      AccStaysSmall(run, i - 1);
      var c := MovedAt(run, i);
      if ManagerAt(run, i) != ManagerAt(run, i - 1) {
        AccStep(run[i - 1], c);
      }
    }
  }

  /** A whole tick, in every run: when the timer fires, growth is not called for and only the manager
      moves until it is back, it has posted exactly the stops of the specification and carries over
      exactly its accumulator. */
  lemma TickIsSpecified(run: seq<State>, a: nat, z: nat)
    requires IsRun(run) && TickAlone(run, a, z) && ManagerAt(run, z).Manager? && ManagerAt(run, z).m.MLoop?
    requires NoGrowth(run[a]) && run[a].idle + IDLE_SECONDS <= UINT
    ensures 0 <= run[a].idle
    ensures var r := RD.Ramp(ManagerAt(run, a).m.acc, run[a].idle);
      && run[z].exitsMade == run[a].exitsMade + RD.Stops(r, run[a].cfg.threshold)
      && ManagerAt(run, z).m.acc == RD.NewAcc(r, run[a].cfg.threshold)
  {
    ScoreboardAlwaysExact(run, a);
    AccStaysSmall(run, a);
    TickSoFar(run, a, z, RD.Ramp(ManagerAt(run, a).m.acc, run[a].idle));
  }
}
