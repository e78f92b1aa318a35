/** Callbacks: every item that is freed as work has been run, once, by the worker that held it, and an
    exit item never is. */
module PoolCallbacks {
  import opened Sums
  import opened PoolModel
  import opened PoolItems
  import opened PoolRuns

  /** The thread has called the function of `item` and not yet freed it. */
  function Called(item: Item, pc: Pc): int {
    One(Hosts(pc, item) || pc == Worker(Finish(item)))
  }

  function CalledW(item: Item): Pc -> int {
    pc => Called(item, pc)
  }

  /** Callbacks begun are under way, or over and their item freed. */
  predicate BegunOk(s: State, item: Item) {
    s.begun[item] == Total(CalledW(item), s) + if item.exit then 0 else s.freed[item]
  }

  /** What one move does to the callbacks of `item`. */
  predicate BegunMove(pc: Pc, m: Move, item: Item) {
    One(Begins(pc, m.pc) && m.pc.w.item == item) ==
      Called(item, m.pc) - Called(item, pc) + One(m.effect == Free(item) && !item.exit)
  }

  lemma BegunWorker(s: State, w: WorkerPc, c: Choice, item: Item)
    requires WellShaped(s) && SlotsIn(s.cfg, Worker(w)) && ItemOk(Worker(w))
    ensures BegunMove(Worker(w), PlanWorker(s, w, c), item)
  {
  }

  lemma BegunPlan(s: State, t: nat, c: Choice, item: Item)
    requires WellShaped(s) && t < |s.threads| && ItemOk(s.threads[t])
    ensures BegunMove(s.threads[t], Plan(s, t, c), item)
  {
    match s.threads[t]
    case Worker(w) => BegunWorker(s, w, c, item);
    case Posting(h, p) =>
    case Manager(m) =>
    case Rest =>
  }

  lemma BegunStep(s: State, t: nat, c: Choice, item: Item)
    requires CanStep(s, t, c) && ItemOk(s.threads[t]) && BegunOk(s, item)
    ensures BegunOk(Step(s, t, c), item)
  {
    BegunPlan(s, t, c, item);
    TotalStep(CalledW(item), s, t, c);
  }

  lemma {:induction false} BegunAt(run: seq<State>, i: nat, item: Item)
    requires IsRun(run) && i < |run|
    ensures BegunOk(run[i], item)
  {
    if i == 0 {
      SumZero(CalledW(item), run[0].threads);
    } else {
      BegunAt(run, i - 1, item);
      ItemsAt(run, i - 1);
      assert NextAt(run, i - 1);
      BegunNext(run[i - 1], run[i], item);
    }
  }

  lemma ItemsAt(run: seq<State>, i: nat)
    requires IsRun(run) && i < |run|
    ensures WellShaped(run[i]) && ItemsOk(run[i])
  {
    Reachable(run, i);
  }

  lemma BegunNext(s: State, n: State, item: Item)
    requires Next(s, n) && WellShaped(s) && ItemsOk(s) && BegunOk(s, item)
    ensures BegunOk(n, item)
  {
    var t: nat, c: Choice :| CanStep(s, t, c) && n == Step(s, t, c);
    assert ItemOk(s.threads[t]);
    BegunStep(s, t, c, item);
  }

  /** What is called is in the caller's hands, and is a regular item. */
  lemma CalledIsHeld(s: State, item: Item)
    requires WellShaped(s) && ItemsOk(s)
    ensures 0 <= Total(CalledW(item), s) <= Total(HoldsW(item.id), s)
    ensures item.exit ==> Total(CalledW(item), s) == 0
  {
    SumNonNegative(CalledW(item), s.threads);
    SumMonotone(CalledW(item), HoldsW(item.id), s.threads);
    if item.exit {
      forall t | 0 <= t < |s.threads| ensures Called(item, s.threads[t]) == 0 {
        assert ItemOk(s.threads[t]);
      }
      SumZero(CalledW(item), s.threads);
    }
  }

  lemma QueuedIsCounted(s: State, item: Item, q: nat)
    requires WellShaped(s) && q < SLOTS && item in s.lists[q]
    ensures 1 <= Queued(item.id, s)
  {
    var k :| 0 <= k < |s.lists[q]| && s.lists[q][k] == item;
    forall p | 0 <= p < |s.lists| ensures 0 <= ListW(item.id)(s.lists[p]) {
      SumNonNegative(IdW(item.id), s.lists[p]);
    }
    SumAtLeast(IdW(item.id), s.lists[q], k);
    SumAtLeast(ListW(item.id), s.lists, q);
  }

  /** Callbacks, in every run: the function of an item is called at most once, never for an exit item
      nor for an item that is still queued, and has been called exactly once when the item is freed
      as work. */
  lemma CalledOnce(run: seq<State>, i: nat, item: Item)
    requires IsRun(run) && i < |run|
    ensures run[i].begun[item] == Total(CalledW(item), run[i]) + (if item.exit then 0 else run[i].freed[item]) <= 1
    ensures item.exit ==> run[i].begun[item] == 0
    ensures !item.exit && 0 < run[i].freed[item] ==> run[i].begun[item] == 1
    ensures forall q :: 0 <= q < |run[i].lists| && item in run[i].lists[q] ==> run[i].begun[item] == 0
  {
    BegunAt(run, i, item);
    ItemsAt(run, i);
    OwnedExactlyOnce(run, i, item.id);
    CalledIsHeld(run[i], item);
    forall q | 0 <= q < |run[i].lists| && item in run[i].lists[q] ensures run[i].begun[item] == 0 {
      QueuedIsCounted(run[i], item, q);
    }
  }

  /** A callback that has begun: the worker that was at it. */
  lemma {:induction false} BegunWasRun(run: seq<State>, j: nat, item: Item) returns (i: nat, t: nat)
    requires IsRun(run) && j < |run| && 0 < run[j].begun[item]
    ensures i <= j && t < |run[i].threads| && run[i].threads[t] == Worker(Run(item))
  {
    assert 0 < j;
    if 0 < run[j - 1].begun[item] {
      i, t := BegunWasRun(run, j - 1, item);
    } else {
      assert NextAt(run, j - 1);
      var c: Choice;
      i := j;
      t, c :| CanStep(run[j - 1], t, c) && run[j] == Step(run[j - 1], t, c);
      MovesThere(run[j - 1], t, c);
    }
  }

  lemma MovesThere(s: State, t: nat, c: Choice)
    requires CanStep(s, t, c) && Begins(s.threads[t], Plan(s, t, c).pc)
    ensures t < |Step(s, t, c).threads| && Step(s, t, c).threads[t] == Plan(s, t, c).pc
  {
    ThreadAfter(s, t, Plan(s, t, c), t);
  }

  /** Nothing is freed as work before its callback, in every run: some worker was at the callback of
      the item earlier. */
  lemma RunBeforeFreed(run: seq<State>, j: nat, item: Item) returns (i: nat, t: nat)
    requires IsRun(run) && j < |run| && !item.exit && 0 < run[j].freed[item]
    ensures i < j && t < |run[i].threads| && run[i].threads[t] == Worker(Run(item))
  {
    CalledOnce(run, j, item);
    i, t := BegunWasRun(run, j, item);
    FreedIsGone(run, j, item.id);
  }
}
