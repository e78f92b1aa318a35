/** Exactly when the manager starts a worker: the converse of what `PoolDecisions` says about the
    workers it has started. */
module PoolGrowth {
  import opened PoolModel
  import opened PoolManager
  import opened PoolRuns
  import opened PoolDecisions

  /** The manager is about to call `worker_start` from its loop, or has decided against it: it is back at
      the head of its loop or goes on to ramp-down. */
  predicate Decided(pc: Pc) {
    pc.Manager? && (pc.m.MLoop? || pc.m.DTest? || (pc.m.MStart? && pc.m.start.SPending? && pc.m.resume.ToLoop?))
  }

  /** The step at `i` is the manager's, with choice `c`. */
  predicate Acts(run: seq<State>, i: nat, c: Choice) {
    && i + 1 < |run| && ManagerAt(run, i).Manager? && CanStep(run[i], 0, c)
    && ManagerAt(run, i + 1) == Plan(run[i], 0, c).pc && ManagerAt(run, i + 1) != ManagerAt(run, i)
  }

  /** The next step of the manager after it arrived at its statement. */
  lemma {:induction false} Onward(run: seq<State>, a: nat, z: nat) returns (k: nat, c: Choice)
    requires IsRun(run) && a < z < |run| && ManagerAt(run, a) != ManagerAt(run, z)
    ensures a <= k < z && ManagerAt(run, k) == ManagerAt(run, a) && Acts(run, k, c)
    decreases z - a
  {
    c := MovedAt(run, a + 1);
    if ManagerAt(run, a + 1) == ManagerAt(run, a) {
      k, c := Onward(run, a + 1, z);
    } else {
      k := a;
    }
  }

  /** The load probe at `i` allowed a thread. */
  ghost predicate Allowed(run: seq<State>, i: nat) {
    exists c: Choice :: Acts(run, i, c) && c.yes
  }

  /** The instants at which one pass reads the scoreboard and the probe. */
  datatype Pass = Pass(idle: nat, count: nat, pending: nat, request: nat, low: nat, high: nat, probe: nat, retest: nat)

  /** The manager executes a statement at `i`, on its way to `z`. */
  predicate Executes(run: seq<State>, i: nat, z: nat) {
    i < z < |run| && ManagerAt(run, i).Manager? && ManagerAt(run, i + 1) != ManagerAt(run, i)
  }

  /** The second half of the pass, from the test for requests on. */
  ghost predicate ChoosesAt(run: seq<State>, p: Pass, z: nat) {
    && Executes(run, p.request, z) && ManagerAt(run, p.request).m.MTestRequest?
    && (run[p.request].requests == 0 ==>
      && p.request < p.low && Executes(run, p.low, z) && ManagerAt(run, p.low).m.MTestLow?
      && (run[p.low].count >= run[p.low].cfg.threshold ==>
        && p.low < p.high && Executes(run, p.high, z) && ManagerAt(run, p.high).m.MTestHigh?
        && (run[p.high].count < run[p.high].cfg.workerMax ==>
          && p.high < p.probe && Executes(run, p.probe, z) && ManagerAt(run, p.probe).m.MProbe?
          && (Allowed(run, p.probe) ==>
            p.probe < p.retest && Executes(run, p.retest, z) && ManagerAt(run, p.retest).m.MRetestIdle?))))
  }

  ghost predicate Chooses(run: seq<State>, p: Pass, z: nat)
    requires ChoosesAt(run, p, z)
  {
    || run[p.request].requests != 0
    || run[p.low].count < run[p.low].cfg.threshold
    || (run[p.high].count < run[p.high].cfg.workerMax && Allowed(run, p.probe) && run[p.retest].idle == 0)
  }

  /** Until `z` the decision is open. */
  predicate Open(run: seq<State>, a: nat, z: nat) {
    && a < z < |run| && ManagerAt(run, a).Manager? && Decided(ManagerAt(run, z))
    && (forall k :: a <= k < z ==> !Decided(ManagerAt(run, k)))
  }

  /** The manager executes its statement and, unless that decides, goes on. */
  lemma Executed(run: seq<State>, a: nat, z: nat) returns (k: nat, c: Choice)
    requires IsRun(run) && Open(run, a, z) && !ManagerAt(run, a).m.MStart? && !ManagerAt(run, a).m.MStop?
    ensures a <= k && Executes(run, k, z) && ManagerAt(run, k) == ManagerAt(run, a) && Acts(run, k, c)
    ensures ManagerAt(run, k + 1) == Manager(Decide(run[k], ManagerAt(run, k).m, c))
    ensures if Decided(ManagerAt(run, k + 1)) then k + 1 == z else Open(run, k + 1, z)
  {
    k, c := Onward(run, a, z);
  }

  lemma FromProbe(run: seq<State>, a: nat, z: nat) returns (probe: nat, retest: nat)
    requires IsRun(run) && Open(run, a, z) && ManagerAt(run, a).m.MProbe?
    ensures a <= probe && Executes(run, probe, z) && ManagerAt(run, probe).m.MProbe?
    ensures Allowed(run, probe) ==> probe < retest && Executes(run, retest, z) && ManagerAt(run, retest).m.MRetestIdle?
    ensures ManagerAt(run, z).m.MStart? <==> Allowed(run, probe) && run[retest].idle == 0
  {
    var c, d;
    probe, c := Executed(run, a, z);
    retest := probe;
    if c.yes {
      retest, d := Executed(run, probe + 1, z);
    }
  }

  lemma FromRequest(run: seq<State>, a: nat, z: nat) returns (p: Pass)
    requires IsRun(run) && Open(run, a, z) && ManagerAt(run, a).m.MTestRequest?
    ensures a <= p.request && ChoosesAt(run, p, z)
    ensures ManagerAt(run, z).m.MStart? <==> Chooses(run, p, z)
  {
    var request, low, high, probe, retest := 0, 0, 0, 0, 0;
    var c;
    request, c := Executed(run, a, z);
    if run[request].requests == 0 {
      low, c := Executed(run, request + 1, z);
      if run[low].count >= run[low].cfg.threshold {
        high, c := Executed(run, low + 1, z);
        if run[high].count < run[high].cfg.workerMax {
          probe, retest := FromProbe(run, high + 1, z);
        }
      }
    } else {
      var take, d := Executed(run, request + 1, z);
    }
    p := Pass(0, 0, 0, request, low, high, probe, retest);
  }

  lemma FromPending(run: seq<State>, a: nat, z: nat) returns (p: Pass)
    requires IsRun(run) && Open(run, a, z) && ManagerAt(run, a).m.MTestPending?
    ensures a <= p.pending && Executes(run, p.pending, z) && ManagerAt(run, p.pending).m.MTestPending?
    ensures run[p.pending].pending == 0 ==> p.pending < p.request && ChoosesAt(run, p, z)
    ensures ManagerAt(run, z).m.MStart? <==> run[p.pending].pending == 0 && Chooses(run, p, z)
  {
    p := Pass(0, 0, 0, 0, 0, 0, 0, 0);
    var pending, c := Executed(run, a, z);
    if run[pending].pending == 0 {
      p := FromRequest(run, pending + 1, z);
    }
    p := p.(pending := pending);
  }

  /** The first half of the pass: the three tests of line 650. */
  ghost predicate TestsAt(run: seq<State>, p: Pass, z: nat) {
    && Executes(run, p.idle, z) && ManagerAt(run, p.idle).m.MTestIdle?
    && (run[p.idle].idle == 0 ==>
      && p.idle < p.count && Executes(run, p.count, z) && ManagerAt(run, p.count).m.MTestCount?
      && (run[p.count].count > 0 ==>
        && p.count < p.pending && Executes(run, p.pending, z) && ManagerAt(run, p.pending).m.MTestPending?
        && (run[p.pending].pending == 0 ==> p.pending < p.request && ChoosesAt(run, p, z))))
  }

  /** Growth, exactly, in every run: with the values that one pass of the manager reads, each at the
      step that executes the test, it starts a worker if and only if no worker is idle, the pool is
      not empty, no creation is pending, and a request waits, or the pool is below the threshold, or
      it is below the maximum, the load probe allows it and still no worker is idle. */
  lemma GrowthExactly(run: seq<State>, a: nat, z: nat) returns (p: Pass)
    requires IsRun(run) && Open(run, a, z) && ManagerAt(run, a).m.MTestIdle?
    ensures a <= p.idle && TestsAt(run, p, z)
    ensures ManagerAt(run, z).m.MStart? <==>
      run[p.idle].idle == 0 && run[p.count].count > 0 && run[p.pending].pending == 0 && Chooses(run, p, z)
  {
    var count := 0;
    var c;
    p := Pass(0, 0, 0, 0, 0, 0, 0, 0);
    var idle, d := Executed(run, a, z);
    if run[idle].idle == 0 {
      count, c := Executed(run, idle + 1, z);
      if run[count].count > 0 {
        p := FromPending(run, count + 1, z);
      }
    }
    p := p.(idle := idle, count := count);
  }

  // What a started worker is

  /** Creations attempted, successful or refused. */
  function Attempts(s: State): nat {
    |s.threads| + s.failed
  }

  /** `worker_start` has attempted its creation. */
  predicate Attempted(start: Start) {
    start.SUndoIdle? || start.SUndoCount?
  }

  lemma AttemptStep(s: State, t: nat, c: Choice)
    requires CanStep(s, t, c) && RolesOk(s) && RolesOk(Step(s, t, c)) && s.threads[0].m.MStart?
    ensures var m, n := s.threads[0].m, Step(s, t, c).threads[0].m;
      if n.MStart?
      then n.resume == m.resume && Attempts(Step(s, t, c)) - One(Attempted(n.start)) == Attempts(s) - One(Attempted(m.start))
      else n == AfterStart(m.resume) && Attempts(Step(s, t, c)) == Attempts(s) + One(!Attempted(m.start))
  {
    RolePlan(s, t, c);
    ThreadAfter(s, t, Plan(s, t, c), 0);
  }

  lemma AttemptAt(run: seq<State>, j: nat)
    requires IsRun(run) && j + 1 < |run| && ManagerAt(run, j).Manager? && ManagerAt(run, j).m.MStart?
    ensures ManagerAt(run, j + 1).Manager?
    ensures var m, n := ManagerAt(run, j).m, ManagerAt(run, j + 1).m;
      if n.MStart?
      then n.resume == m.resume && Attempts(run[j + 1]) - One(Attempted(n.start)) == Attempts(run[j]) - One(Attempted(m.start))
      else n == AfterStart(m.resume) && Attempts(run[j + 1]) == Attempts(run[j]) + One(!Attempted(m.start))
  {
    RolesAt(run, j);
    RolesAt(run, j + 1);
    assert NextAt(run, j);
    var t: nat, c: Choice :| CanStep(run[j], t, c) && run[j + 1] == Step(run[j], t, c);
    AttemptStep(run[j], t, c);
  }

  /** A call of `worker_start`, in every run: by the time it returns, exactly one creation was attempted
      since it began, whoever else moved, and the manager resumes where it left off. */
  lemma {:induction false} StartAttemptsOne(run: seq<State>, a: nat, j: nat)
    requires IsRun(run) && a <= j < |run| && ManagerAt(run, a).Manager?
    requires ManagerAt(run, a).m.MStart? && ManagerAt(run, a).m.start.SPending?
    requires forall k :: a <= k < j ==> ManagerAt(run, k).Manager? && ManagerAt(run, k).m.MStart?
    ensures ManagerAt(run, j).Manager?
    ensures var m := ManagerAt(run, j).m;
      if m.MStart? then m.resume == ManagerAt(run, a).m.resume && Attempts(run[j]) == Attempts(run[a]) + One(Attempted(m.start))
      else m == AfterStart(ManagerAt(run, a).m.resume) && Attempts(run[j]) == Attempts(run[a]) + 1
    decreases j
  {
    if a < j {
      StartAttemptsOne(run, a, j - 1);
      AttemptAt(run, j - 1);
    }
  }

  // Requests

  /** A client or a callback that asks for a thread is recorded, in every run. */
  lemma AskIsRecorded(run: seq<State>, i: nat, t: nat, c: Choice)
    requires IsRun(run) && i + 1 < |run| && CanStep(run[i], t, c) && run[i + 1] == Step(run[i], t, c)
    requires run[i].threads[t].Rest? || (run[i].threads[t].Worker? && run[i].threads[t].w.Run?)
    requires c.act.DoAsk?
    ensures 0 < run[i + 1].requests == run[i].requests + 1
  {
    Reachable(run, i);
  }

  lemma TakenStep(s: State, t: nat, c: Choice)
    requires CanStep(s, t, c) && RolesOk(s) && Step(s, t, c).requestsTaken != s.requestsTaken
    ensures t == 0 && s.threads[0].m.MTakeRequest? && Step(s, t, c).requestsTaken == s.requestsTaken + 1
    ensures Step(s, t, c).threads[0] == Manager(MStart(SPending, ToLoop(s.threads[0].m.acc)))
  {
    RolePlan(s, t, c);
  }

  /** Each request that is taken, in every run: in the same step the manager enters `worker_start`,
      which attempts one creation (`StartAttemptsOne`). */
  lemma TakenIsStarted(run: seq<State>, j: nat)
    requires IsRun(run) && j + 1 < |run| && run[j + 1].requestsTaken != run[j].requestsTaken
    ensures run[j + 1].requestsTaken == run[j].requestsTaken + 1
    ensures ManagerAt(run, j).Manager? && ManagerAt(run, j).m.MTakeRequest?
    ensures ManagerAt(run, j + 1) == Manager(MStart(SPending, ToLoop(ManagerAt(run, j).m.acc)))
  {
    RolesAt(run, j);
    assert NextAt(run, j);
    var t: nat, c: Choice :| CanStep(run[j], t, c) && run[j + 1] == Step(run[j], t, c);
    TakenStep(run[j], t, c);
  }
}
