/** The items of the overcommit pool: each enters the queue it is added to, is run by the one callback
    that removed it, and a worker leaves only when its timed wait ended without a signal. */
module OvercommitItems {
  import opened Sums
  import PM = PoolModel
  import opened Overcommit

  // What one section does to the items

  /** What a scan does between two states, in terms of the queues alone: with nothing queued the thread
      goes to sleep; otherwise it runs the head of the first non-empty queue `q`, which leaves that
      queue, and all other queues stay. */
  predicate ScanRuns(s: Oc, n: Oc, t: nat, q: nat)
    requires Shaped(s) && t < |s.threads|
  {
    && n.enqueued == s.enqueued && n.failed == s.failed
    && if q < PM.SLOTS then
         && s.lists[q] != [] && (forall p :: 0 <= p < q ==> s.lists[p] == [])
         && n.threads == s.threads[t := Running(s.lists[q][0])]
         && n.lists == s.lists[q := s.lists[q][1..]]
         && n.dequeued == s.dequeued[q := s.dequeued[q] + [s.lists[q][0]]]
         && n.idle == s.idle
       else
         && (forall p :: 0 <= p < PM.SLOTS ==> s.lists[p] == [])
         && n.threads == s.threads[t := Asleep] && n.lists == s.lists && n.dequeued == s.dequeued && n.idle == s.idle + 1
  }

  /** The section is a scan: by a thread about to enter, or after a signal. */
  predicate Scans(s: Oc, l: Label) {
    l.Scan? || (l.Resume? && s.signals > 0)
  }

  lemma ScanStepRuns(s: Oc, l: Label) returns (q: nat)
    requires Enabled(s, l) && Scans(s, l) && MaskOk(s)
    ensures q <= PM.SLOTS && ScanRuns(s, Step(s, l), l.t, q)
  {
    q := PM.First(s.mask);
    if !Found(s) {
      NothingQueued(s);
      q := PM.SLOTS;
    }
  }

  /** Every scan, in every run, runs exactly the item it removes: the head of the first queue that is
      not empty. */
  lemma ScanRunsHead(run: seq<Oc>, labels: seq<Label>, i: nat) returns (q: nat)
    requires IsRun(run, labels) && i < |labels| && Scans(run[i], labels[i])
    ensures Shaped(run[i]) && labels[i].t < |run[i].threads| && q <= PM.SLOTS
    ensures ScanRuns(run[i], run[i + 1], labels[i].t, q)
    ensures labels[i].Resume? ==> run[i + 1].signals == run[i].signals - 1
  {
    Reachable(run, labels, i);
    assert StepAt(run, labels, i);
    q := ScanStepRuns(run[i], labels[i]);
  }

  // Accounts

  /** Whether the section adds `x` to queue `q`. */
  predicate AddsTo(l: Label, q: nat, x: nat) {
    l.Add? && l.q == q && l.item == x
  }

  /** How often `x` was added to queue `q` by these sections. */
  function Added(labels: seq<Label>, q: nat, x: nat): nat {
    if labels == [] then 0
    else Added(labels[..|labels| - 1], q, x) + PM.One(AddsTo(labels[|labels| - 1], q, x))
  }

  /** Some thread is at the callback of `x` after a step and was not before. */
  predicate Begins(s: Oc, n: Oc, x: nat) {
    exists t :: 0 <= t < |s.threads| && t < |n.threads| && n.threads[t] == Running(x) && s.threads[t] != Running(x)
  }

  /** How often a callback of `x` was begun in the first `i` steps. */
  function Begun(run: seq<Oc>, i: nat, x: nat): nat
    requires i < |run|
  {
    if i == 0 then 0 else Begun(run, i - 1, x) + PM.One(Begins(run[i - 1], run[i], x))
  }

  /** How often `x` has been removed from any queue. */
  function Removed(s: Oc, x: nat): int {
    Sum(TimesW(x), s.dequeued)
  }

  lemma EnteredStep(s: Oc, l: Label, q: nat, x: nat)
    requires Enabled(s, l) && q < PM.SLOTS
    ensures Shaped(Step(s, l))
    ensures Sum(IsW(x), Step(s, l).enqueued[q]) == Sum(IsW(x), s.enqueued[q]) + PM.One(AddsTo(l, q, x))
  {
    if l.Add? && l.q == q {
      SumAppend(IsW(x), s.enqueued[q], l.item);
    }
  }

  lemma RemovedStep(s: Oc, l: Label, x: nat)
    requires Enabled(s, l) && MaskOk(s)
    ensures Removed(Step(s, l), x) == Removed(s, x) + PM.One(Begins(s, Step(s, l), x))
  {
    if Scans(s, l) {
      var q := ScanStepRuns(s, l);
      if q < PM.SLOTS {
        var head := s.lists[q][0];
        SumAppend(IsW(x), s.dequeued[q], head);
        SumUpdate(TimesW(x), s.dequeued, q, s.dequeued[q] + [head]);
        assert Step(s, l).threads[l.t] == Running(head) && s.threads[l.t] != Running(x);
      }
    }
  }

  /** Items enter the queue they are added to, in every run: the history of each queue has each item as
      often as it was added to that queue. */
  lemma {:induction false} AddedIsEntered(run: seq<Oc>, labels: seq<Label>, i: nat, q: nat, x: nat)
    requires IsRun(run, labels) && i < |run| && q < PM.SLOTS
    ensures Shaped(run[i]) && Sum(IsW(x), run[i].enqueued[q]) == Added(labels[..i], q, x)
  {
    Reachable(run, labels, i);
    if i > 0 {
      AddedIsEntered(run, labels, i - 1, q, x);
      assert StepAt(run, labels, i - 1);
      EnteredStep(run[i - 1], labels[i - 1], q, x);
      assert labels[..i][..i - 1] == labels[..i - 1];
    }
  }

  /** Callbacks are begun exactly for the items removed, in every run. */
  lemma {:induction false} BegunIsRemoved(run: seq<Oc>, labels: seq<Label>, i: nat, x: nat)
    requires IsRun(run, labels) && i < |run|
    ensures Begun(run, i, x) == Removed(run[i], x)
  {
    if i == 0 {
      SumZero(TimesW(x), run[0].dequeued);
    } else {
      BegunIsRemoved(run, labels, i - 1, x);
      Reachable(run, labels, i - 1);
      assert StepAt(run, labels, i - 1);
      RemovedStep(run[i - 1], labels[i - 1], x);
    }
  }

  lemma {:induction false} SumConcat(x: nat, a: seq<nat>, b: seq<nat>)
    ensures Sum(IsW(x), a + b) == Sum(IsW(x), a) + Sum(IsW(x), b)
  {
    if b == [] {
      assert a + b == a;
    } else {
      var n := |b| - 1;
      SumConcat(x, a, b[..n]);
      assert a + b == a + b[..n] + [b[n]];
      SumAppend(IsW(x), a + b[..n], b[n]);
    }
  }

  lemma {:induction false} FifoTotals(x: nat, a: seq<seq<nat>>, b: seq<seq<nat>>, c: seq<seq<nat>>)
    requires |a| == |b| == |c| && Fifo(a, b, c)
    ensures Sum(TimesW(x), a) == Sum(TimesW(x), b) + Sum(TimesW(x), c)
  {
    if a != [] {
      var n := |a| - 1;
      FifoTotals(x, a[..n], b[..n], c[..n]);
      SumConcat(x, b[n], c[n]);
    }
  }

  /** Ownership, in every run: what was added is queued or had its callback begun, as often as it was
      added and no more.  An item added once is queued once or begun once. */
  lemma AddedIsQueuedOrBegun(run: seq<Oc>, labels: seq<Label>, i: nat, x: nat)
    requires IsRun(run, labels) && i < |run|
    ensures Sum(TimesW(x), run[i].enqueued) == Sum(TimesW(x), run[i].lists) + Begun(run, i, x)
    ensures 0 <= Sum(TimesW(x), run[i].lists)
  {
    Reachable(run, labels, i);
    BegunIsRemoved(run, labels, i, x);
    FifoTotals(x, run[i].enqueued, run[i].dequeued, run[i].lists);
    forall q | 0 <= q < |run[i].lists| ensures 0 <= TimesW(x)(run[i].lists[q]) {
      TimesNonNegative(x, run[i].lists[q]);
    }
    SumNonNegative(TimesW(x), run[i].lists);
  }

  /** A worker is gone, in every run, because its timed wait ended without a signal to account for. */
  lemma {:induction false} LeavesOnlyIdle(run: seq<Oc>, labels: seq<Label>, j: nat, t: nat) returns (i: nat)
    requires IsRun(run, labels) && j < |run| && t < |run[j].threads| && run[j].threads[t].Gone?
    ensures i < j && labels[i] == Resume(t) && run[i].signals == 0
  {
    i := j - 1;
    Reachable(run, labels, i);
    assert StepAt(run, labels, i);
    if t < |run[i].threads| && run[i].threads[t].Gone? {
      i := LeavesOnlyIdle(run, labels, i, t);
    }
  }

  /** A worker whose callback is over is about to scan again. */
  lemma FinishedScansAgain(run: seq<Oc>, labels: seq<Label>, i: nat, t: nat)
    requires IsRun(run, labels) && i < |labels| && t < |run[i].threads| && run[i].threads[t].Running?
    ensures t < |run[i + 1].threads|
    ensures run[i + 1].threads[t] == if labels[i] == Finish(t) then Enter else run[i].threads[t]
  {
    assert StepAt(run, labels, i);
  }
}
