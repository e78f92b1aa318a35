/** The overcommit pool of src/posix/manager.c.  One mutex guards everything, so a step of the model
    is one critical section: from taking the mutex, or from the return of the timed wait, to releasing
    it or to the next timed wait.  A timed wait may end by a signal, by its timeout or spuriously, and
    the code cannot tell which; a counter of signals repairs that. */
module Overcommit {
  import opened Sums
  import opened PM = PoolModel

  /** An overcommit worker: about to take the mutex and scan, inside the timed wait and asleep, inside
      it and awake but without the mutex, running a callback, or gone. */
  datatype Thread = Enter | Asleep | Awake | Running(item: nat) | Gone

  datatype Oc = Oc(
    lists: seq<seq<nat>>,
    mask: set<nat>,
    idle: int,
    signals: int,
    threads: seq<Thread>,
    failed: nat,
    enqueued: seq<seq<nat>>,
    dequeued: seq<seq<nat>>)

  /** A critical section, or a thread waking up inside its timed wait.  `woken` is the sleeper that a
      signal wakes, `created` whether a thread could be created. */
  datatype Label =
    | Add(q: nat, item: nat, woken: nat, created: bool)
    | Scan(t: nat)
    | WakeUp(t: nat)
    | Resume(t: nat)
    | Finish(t: nat)

  predicate Shaped(s: Oc) {
    |s.lists| == |s.enqueued| == |s.dequeued| == SLOTS
  }

  predicate Enabled(s: Oc, l: Label) {
    && Shaped(s)
    && match l
       case Add(q, _, w, _) =>
         && q < SLOTS
         && (s.idle > 0 ==> (w < |s.threads| && s.threads[w] == Asleep)
                            || (forall t :: 0 <= t < |s.threads| ==> s.threads[t] != Asleep))
       case Scan(t) => t < |s.threads| && s.threads[t] == Enter
       case WakeUp(t) => t < |s.threads| && s.threads[t] == Asleep
       case Resume(t) => t < |s.threads| && s.threads[t] == Awake
       case Finish(t) => t < |s.threads| && s.threads[t].Running?
  }

  /** manager_workqueue_additem, overcommit branch. */
  function AddItem(s: Oc, q: nat, item: nat, woken: nat, created: bool): Oc
    requires Shaped(s) && q < SLOTS
  {
    var n := s.(lists := s.lists[q := s.lists[q] + [item]],
                enqueued := s.enqueued[q := s.enqueued[q] + [item]],
                mask := s.mask + {q});
    if s.idle > 0 then
      n.(idle := s.idle - 1, signals := s.signals + 1,
         threads := if woken < |s.threads| && s.threads[woken] == Asleep then s.threads[woken := Awake] else s.threads)
    else if created then n.(threads := s.threads + [Enter])
    else n.(failed := s.failed + 1)
  }

  /** The bit test and the head test of the scan. */
  predicate Found(s: Oc)
    requires Shaped(s)
  {
    First(s.mask) < SLOTS && s.lists[First(s.mask)] != []
  }

  /** The loop body of overcommit_worker_main with the mutex held: take the first item of the first
      queue whose bit is set, or go into the timed wait. */
  function ScanStep(s: Oc, t: nat): Oc
    requires Shaped(s) && t < |s.threads|
  {
    var q := First(s.mask);
    if Found(s) then
      var rest := s.lists[q][1..];
      s.(lists := s.lists[q := rest],
         dequeued := s.dequeued[q := s.dequeued[q] + [s.lists[q][0]]],
         mask := if rest == [] then s.mask - {q} else s.mask,
         threads := s.threads[t := Running(s.lists[q][0])])
    else
      s.(idle := s.idle + 1, threads := s.threads[t := Asleep])
  }

  /** The return of the timed wait: with a signal to account for, scan again; without one, leave. */
  function ResumeStep(s: Oc, t: nat): Oc
    requires Shaped(s) && t < |s.threads|
  {
    if s.signals > 0 then ScanStep(s.(signals := s.signals - 1), t)
    else s.(idle := s.idle - 1, threads := s.threads[t := Gone])
  }

  function Step(s: Oc, l: Label): Oc
    requires Enabled(s, l)
  {
    match l
    case Add(q, item, w, created) => AddItem(s, q, item, w, created)
    case Scan(t) => ScanStep(s, t)
    case WakeUp(t) => s.(threads := s.threads[t := Awake])
    case Resume(t) => ResumeStep(s, t)
    case Finish(t) => s.(threads := s.threads[t := Enter])
  }

  predicate Init(s: Oc) {
    && Shaped(s)
    && (forall q :: 0 <= q < SLOTS ==> s.lists[q] == [] && s.enqueued[q] == [] && s.dequeued[q] == [])
    && s.mask == {} && s.idle == s.signals == s.failed == 0 && s.threads == []
  }

  function EnterW(t: Thread): int { One(t.Enter?) }

  function AsleepW(t: Thread): int { One(t.Asleep?) }

  function AwakeW(t: Thread): int { One(t.Awake?) }

  function Items(s: Oc): int { Sum(LenW, s.lists) }

  /** Threads that are neither running a callback nor in the timed wait. */
  function Entering(s: Oc): int { Sum(EnterW, s.threads) }

  function Sleepers(s: Oc): int { Sum(AsleepW, s.threads) }

  function Woken(s: Oc): int { Sum(AwakeW, s.threads) }

  /** Between critical sections the bit of a queue says exactly whether its list is not empty. */
  predicate MaskOk(s: Oc)
    requires Shaped(s)
  {
    && (forall q :: q in s.mask ==> q < SLOTS)
    && (forall q :: 0 <= q < SLOTS ==> (q in s.mask <==> s.lists[q] != []))
  }

  /** The threads in the timed wait are the idle ones plus those signalled, every signal not yet
      accounted for has a thread already awake, and no counter is negative. */
  predicate TokensOk(s: Oc) {
    && Sleepers(s) + Woken(s) == s.idle + s.signals
    && 0 <= s.signals <= Woken(s)
    && 0 <= s.idle
  }

  /** Queued items never outnumber the threads bound to serve them: those about to scan and those
      with a signal to account for.  Each refused creation may leave one item uncovered. */
  predicate CoverOk(s: Oc) {
    Items(s) <= Entering(s) + s.signals + s.failed
  }

  predicate FifoOk(s: Oc)
    requires Shaped(s)
  {
    Fifo(s.enqueued, s.dequeued, s.lists)
  }

  predicate Inv(s: Oc) {
    Shaped(s) && MaskOk(s) && TokensOk(s) && CoverOk(s) && FifoOk(s)
  }

  /** The three thread totals after thread `t` became `x`. */
  lemma ThreadMoves(s: Oc, t: nat, x: Thread)
    requires t < |s.threads|
    ensures var n := s.threads[t := x];
      && Sum(EnterW, n) == Entering(s) - EnterW(s.threads[t]) + EnterW(x)
      && Sum(AsleepW, n) == Sleepers(s) - AsleepW(s.threads[t]) + AsleepW(x)
      && Sum(AwakeW, n) == Woken(s) - AwakeW(s.threads[t]) + AwakeW(x)
  {
    SumUpdate(EnterW, s.threads, t, x);
    SumUpdate(AsleepW, s.threads, t, x);
    SumUpdate(AwakeW, s.threads, t, x);
  }

  lemma TotalsNonNegative(s: Oc)
    ensures 0 <= Entering(s) && 0 <= Sleepers(s) && 0 <= Woken(s) && 0 <= Items(s)
  {
    SumNonNegative(EnterW, s.threads);
    SumNonNegative(AsleepW, s.threads);
    SumNonNegative(AwakeW, s.threads);
    SumNonNegative(LenW, s.lists);
  }

  lemma NothingQueued(s: Oc)
    requires Shaped(s) && MaskOk(s) && !Found(s)
    ensures s.mask == {} && Items(s) == 0
  {
    if q :| q in s.mask {
      assert q < SLOTS;
    }
    SumZero(LenW, s.lists);
  }

  /** The scan keeps the mask and the histories, and either one item leaves or nothing was queued. */
  lemma ScanEffect(s: Oc, t: nat)
    requires Shaped(s) && t < |s.threads| && MaskOk(s) && FifoOk(s)
    ensures Shaped(ScanStep(s, t)) && MaskOk(ScanStep(s, t)) && FifoOk(ScanStep(s, t))
    ensures ScanStep(s, t).signals == s.signals && ScanStep(s, t).failed == s.failed
    ensures if Found(s)
      then ScanStep(s, t).threads == s.threads[t := Running(s.lists[First(s.mask)][0])]
           && ScanStep(s, t).idle == s.idle && Items(ScanStep(s, t)) == Items(s) - 1
      else ScanStep(s, t).threads == s.threads[t := Asleep]
           && ScanStep(s, t).idle == s.idle + 1 && Items(ScanStep(s, t)) == Items(s) == 0
  {
    var q, n := First(s.mask), ScanStep(s, t);
    if Found(s) {
      SumUpdate(LenW, s.lists, q, s.lists[q][1..]);
      assert n.threads == s.threads[t := Running(s.lists[q][0])];
      forall p | 0 <= p < SLOTS ensures n.enqueued[p] == n.dequeued[p] + n.lists[p] {
        assert s.enqueued[p] == s.dequeued[p] + s.lists[p];
      }
    } else {
      NothingQueued(s);
    }
  }

  lemma AddKeeps(s: Oc, l: Label)
    requires Enabled(s, l) && l.Add? && Inv(s)
    ensures Inv(Step(s, l))
  {
    var n := Step(s, l);
    SumUpdate(LenW, s.lists, l.q, s.lists[l.q] + [l.item]);
    TotalsNonNegative(s);
    if s.idle > 0 {
      if l.woken < |s.threads| && s.threads[l.woken] == Asleep {
        ThreadMoves(s, l.woken, Awake);
      } else {
        SumZero(AsleepW, s.threads);
      }
    } else if l.created {
      SumAppend(EnterW, s.threads, Enter);
      SumAppend(AsleepW, s.threads, Enter);
      SumAppend(AwakeW, s.threads, Enter);
    }
    forall p | 0 <= p < SLOTS ensures n.enqueued[p] == n.dequeued[p] + n.lists[p] {
      assert s.enqueued[p] == s.dequeued[p] + s.lists[p];
    }
  }

  /** A scan by a thread that was about to enter, or that had a signal to account for. */
  lemma ScanKeeps(s: Oc, l: Label)
    requires Enabled(s, l) && (l.Scan? || (l.Resume? && s.signals > 0)) && Inv(s)
    ensures Inv(Step(s, l))
  {
    var m := if l.Scan? then s else s.(signals := s.signals - 1);
    TotalsNonNegative(s);
    ScanEffect(m, l.t);
    ThreadMoves(s, l.t, if Found(m) then Running(m.lists[First(m.mask)][0]) else Asleep);
    TotalsNonNegative(Step(s, l));
  }

  lemma InvStep(s: Oc, l: Label)
    requires Enabled(s, l) && Inv(s)
    ensures Inv(Step(s, l))
  {
    match l
    case Add(_, _, _, _) => AddKeeps(s, l);
    case Scan(_) => ScanKeeps(s, l);
    case WakeUp(t) => ThreadMoves(s, t, Awake);
    case Resume(t) =>
      if s.signals > 0 {
        ScanKeeps(s, l);
      } else {
        ThreadMoves(s, t, Gone);
        TotalsNonNegative(s);
        SumAtLeast(AwakeW, s.threads, t);
      }
    case Finish(t) => ThreadMoves(s, t, Enter);
  }

  /** Queued items are covered by the threads about to scan and the signals under way. */
  predicate Covered(s: Oc) {
    Items(s) <= Entering(s) + s.signals
  }

  /** The insertion that strands an item: no idle thread to signal, the creation refused, and no thread
      about to scan to spare. */
  predicate Strands(s: Oc, l: Label) {
    l.Add? && s.idle <= 0 && !l.created && Items(s) >= Entering(s) + s.signals
  }

  /** Exactly when one critical section breaks the cover. */
  lemma CoverExact(s: Oc, l: Label)
    requires Enabled(s, l) && Inv(s) && Covered(s)
    ensures Covered(Step(s, l)) <==> !Strands(s, l)
  {
    var n := Step(s, l);
    TotalsNonNegative(n);
    match l
    case Add(q, item, w, created) =>
      SumUpdate(LenW, s.lists, q, s.lists[q] + [item]);
      if s.idle > 0 && w < |s.threads| && s.threads[w] == Asleep {
        ThreadMoves(s, w, Awake);
      } else if created {
        SumAppend(EnterW, s.threads, Enter);
      }
    case WakeUp(t) => ThreadMoves(s, t, Awake);
    case Finish(t) => ThreadMoves(s, t, Enter);
    case Scan(t) => ScanCover(s, l);
    case Resume(t) =>
      if s.signals > 0 {
        ScanCover(s, l);
      } else {
        ThreadMoves(s, t, Gone);
      }
  }

  lemma ScanCover(s: Oc, l: Label)
    requires Enabled(s, l) && (l.Scan? || (l.Resume? && s.signals > 0)) && Inv(s) && Covered(s)
    ensures Covered(Step(s, l))
  {
    var m := if l.Scan? then s else s.(signals := s.signals - 1);
    TotalsNonNegative(Step(s, l));
    ScanEffect(m, l.t);
    ThreadMoves(s, l.t, if Found(m) then Running(m.lists[First(m.mask)][0]) else Asleep);
  }

  /** A run of critical sections. */
  predicate IsRun(run: seq<Oc>, labels: seq<Label>) {
    && |run| == |labels| + 1
    && Init(run[0])
    && (forall i :: 0 <= i < |labels| ==> StepAt(run, labels, i))
  }

  predicate StepAt(run: seq<Oc>, labels: seq<Label>, i: nat)
    requires i < |labels| < |run|
  {
    Enabled(run[i], labels[i]) && run[i + 1] == Step(run[i], labels[i])
  }

  lemma InitInv(s: Oc)
    requires Init(s)
    ensures Inv(s)
  {
    SumZero(LenW, s.lists);
  }

  lemma {:induction false} Reachable(run: seq<Oc>, labels: seq<Label>, i: nat)
    requires IsRun(run, labels) && i < |run|
    ensures Inv(run[i])
  {
    if i == 0 {
      InitInv(run[0]);
    } else {
      Reachable(run, labels, i - 1);
      assert StepAt(run, labels, i - 1);
      InvStep(run[i - 1], labels[i - 1]);
    }
  }

  /** Token accounting in every run. */
  lemma TokensExact(run: seq<Oc>, labels: seq<Label>, i: nat)
    requires IsRun(run, labels) && i < |run|
    ensures Sleepers(run[i]) + Woken(run[i]) == run[i].idle + run[i].signals
    ensures 0 <= run[i].signals <= Woken(run[i]) && 0 <= run[i].idle
  {
    Reachable(run, labels, i);
  }

  /** The overcommit guarantee in every run in which no creation was refused: each queued item has its
      own thread that is neither running a callback nor asleep, so no item waits for the callback of
      another one. */
  lemma NoItemWaitsForACallback(run: seq<Oc>, labels: seq<Label>, i: nat)
    requires IsRun(run, labels) && i < |run|
    ensures Items(run[i]) <= Entering(run[i]) + run[i].signals + run[i].failed
    ensures run[i].failed == 0 ==> Items(run[i]) <= Entering(run[i]) + Woken(run[i])
  {
    Reachable(run, labels, i);
  }

  /** The guarantee and its exact condition over a run: every state so far is covered if and only if no
      section so far was a refused creation with no idle thread and no thread about to scan to spare. */
  lemma {:induction false} CoveredExactly(run: seq<Oc>, labels: seq<Label>, i: nat)
    requires IsRun(run, labels) && i < |run|
    ensures (forall k :: 0 <= k <= i ==> Covered(run[k])) <==>
            (forall k :: 0 <= k < i ==> !Strands(run[k], labels[k]))
  {
    if i == 0 {
      Reachable(run, labels, 0);
    } else {
      CoveredExactly(run, labels, i - 1);
      Reachable(run, labels, i - 1);
      assert StepAt(run, labels, i - 1);
      if Covered(run[i - 1]) {
        CoverExact(run[i - 1], labels[i - 1]);
      }
    }
  }

  /** A worker that leaves after its timeout strands no work: afterwards what is queued is covered by
      the threads about to scan if and only if it was covered before, and in a run without refusals
      it is. */
  lemma LeavingStrandsNothing(run: seq<Oc>, labels: seq<Label>, i: nat)
    requires IsRun(run, labels) && i < |labels|
    requires labels[i].Resume? && run[i].signals == 0
    ensures labels[i].t < |run[i + 1].threads| && run[i + 1].threads[labels[i].t] == Gone
    ensures Items(run[i + 1]) <= Entering(run[i + 1]) <==> Covered(run[i])
    ensures run[i].failed == 0 ==> Covered(run[i])
  {
    Reachable(run, labels, i);
    assert StepAt(run, labels, i);
    ThreadMoves(run[i], labels[i].t, Gone);
  }

  /** The scan never finds a set bit over an empty list, and takes the head of the first non-empty
      queue. */
  lemma ScanTakesFirst(run: seq<Oc>, labels: seq<Label>, i: nat, q: nat)
    requires IsRun(run, labels) && i < |run| && q < SLOTS
    ensures Shaped(run[i])
    ensures First(run[i].mask) < SLOTS ==> run[i].lists[First(run[i].mask)] != []
    ensures q < First(run[i].mask) ==> run[i].lists[q] == []
    ensures run[i].enqueued[q] == run[i].dequeued[q] + run[i].lists[q]
  {
    Reachable(run, labels, i);
  }

  /** The result of thread creation is ignored: a refused creation leaves an item that no thread is
      bound to serve. */
  lemma RefusedItemIsStranded(s: Oc, q: nat, item: nat)
    requires Init(s) && q < SLOTS
    ensures var l := Add(q, item, 0, false);
      && Enabled(s, l)
      && Items(Step(s, l)) == 1 && Step(s, l).threads == []
  {
    SumZero(LenW, s.lists);
    SumUpdate(LenW, s.lists, q, s.lists[q] + [item]);
  }
}
