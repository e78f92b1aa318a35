/** When a worker gives up spinning: only because all places for spinning workers are taken. */
module PoolSlowPath {
  import opened PoolModel
  import opened PoolRuns

  /** The worker is on its way from its place in the count of spinners to the mutex, without an item. */
  predicate GivingUp(pc: Pc) {
    pc == Worker(SpinLeave(None)) || pc == Worker(MutexEnter)
  }

  /** The step at `i` is that of worker `t`, which counts itself among the spinners and finds that there
      are already as many as allowed. */
  predicate FoundNoPlace(run: seq<State>, i: nat, t: nat) {
    && i + 1 < |run| && t < |run[i].threads| && t < |run[i + 1].threads|
    && run[i].threads[t] == Worker(SpinEnter) && run[i + 1].threads[t] == Worker(SpinLeave(None))
    && run[i].spinning >= run[i].cfg.spinMax
  }

  lemma GivingUpStep(s: State, u: nat, c: Choice, t: nat)
    requires CanStep(s, u, c) && t < |Step(s, u, c).threads| && GivingUp(Step(s, u, c).threads[t])
    ensures t < |s.threads|
    ensures || GivingUp(s.threads[t]) || s.threads[t] == Worker(Blocked)
            || (u == t && s.threads[t] == Worker(SpinEnter) && s.spinning >= s.cfg.spinMax
                && Step(s, u, c).threads[t] == Worker(SpinLeave(None)))
  {
  }

  /** The slow path, in every run: a worker about to lock the mutex was blocked on the condition before,
      or its fast scan had found nothing and there was no place for it among the spinners. */
  lemma {:induction false} WaitsForCause(run: seq<State>, j: nat, t: nat) returns (i: nat)
    requires IsRun(run) && j < |run| && t < |run[j].threads| && GivingUp(run[j].threads[t])
    ensures i < j && t < |run[i].threads| && (run[i].threads[t] == Worker(Blocked) || FoundNoPlace(run, i, t))
  {
    i := j - 1;
    assert NextAt(run, i);
    var u: nat, c: Choice :| CanStep(run[i], u, c) && run[j] == Step(run[i], u, c);
    GivingUpStep(run[i], u, c, t);
    if GivingUp(run[i].threads[t]) {
      i := WaitsForCause(run, i, t);
    }
  }

  lemma EntersSpinning(s: State, u: nat, c: Choice, t: nat)
    requires CanStep(s, u, c) && t < |Step(s, u, c).threads| && Step(s, u, c).threads[t] == Worker(SpinEnter)
    ensures t < |s.threads|
    ensures s.threads[t] == Worker(SpinEnter) || s.threads[t] == Worker(Read(Fast))
            || (s.threads[t].Worker? && s.threads[t].w.Unlock? && s.threads[t].w.via == Fast && s.threads[t].w.got.None?)
  {
  }

  /** A worker counts itself among the spinners only after its fast scan found nothing. */
  lemma {:induction false} SpinsForCause(run: seq<State>, j: nat, t: nat) returns (i: nat)
    requires IsRun(run) && j < |run| && t < |run[j].threads| && run[j].threads[t] == Worker(SpinEnter)
    ensures i < j && t < |run[i].threads| && run[i].threads[t].Worker?
    ensures run[i].threads[t].w == Read(Fast) || (run[i].threads[t].w.Unlock? && run[i].threads[t].w.via == Fast && run[i].threads[t].w.got.None?)
  {
    i := j - 1;
    assert NextAt(run, i);
    var u: nat, c: Choice :| CanStep(run[i], u, c) && run[j] == Step(run[i], u, c);
    EntersSpinning(run[i], u, c, t);
    if run[i].threads[t] == Worker(SpinEnter) {
      i := SpinsForCause(run, i, t);
    }
  }
}
