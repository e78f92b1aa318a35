/** Work items: who owns them, in which order they leave a queue, and that an exit item is never
    run as work. */
module PoolItems {
  import opened Sums
  import opened PoolModel

  /** The item a worker has in its hands. */
  function WorkerItem(w: WorkerPc): Option<Item> {
    match w
    case Clear(_, _, item) => Some(item)
    case Unlock(_, _, got) => got
    case SpinLeave(got) => got
    case MutexLeave(item) => Some(item)
    case RetireIdle(item) => Some(item)
    case RetireCount(item) => Some(item)
    case RetireFree(item) => Some(item)
    case Got(item) => Some(item)
    case Run(item) => Some(item)
    case Finish(item) => Some(item)
    case _ => None
  }

  /** The item a poster is about to insert. */
  function PostItem(p: Post): Option<Item> {
    if p.PLock? || p.PCheck? || p.PSet? || p.PInsert? then Some(p.item) else None
  }

  function StopItem(m: ManagerPc): Option<Item> {
    if m.MStop? && (m.stop.XMutex? || m.stop.XLock? || m.stop.XSet? || m.stop.XInsert?) then Some(m.stop.item) else None
  }

  /** Exit items are made by the manager and taken only by the scan under the mutex; a worker that
      holds one is retiring, every other worker holds a regular item. */
  predicate ItemOk(pc: Pc) {
    match pc
    case Worker(w) =>
      WorkerItem(w).Some? ==>
        if w.RetireIdle? || w.RetireCount? || w.RetireFree? then WorkerItem(w).value.exit
        else w.MutexLeave? || ((w.Clear? || w.Unlock?) && w.via == Waiting) || !WorkerItem(w).value.exit
    case Posting(h, p) => (h.Some? ==> !h.value.exit) && (PostItem(p).Some? ==> !PostItem(p).value.exit)
    case Manager(m) => StopItem(m).Some? ==> StopItem(m).value.exit
    case Rest => true
  }

  predicate RegularOnly(l: seq<Item>) {
    forall i :: 0 <= i < |l| ==> !l[i].exit
  }

  /** Exit items wait only in the first queue. */
  predicate ItemsOk(s: State)
    requires WellShaped(s)
  {
    && (forall t :: 0 <= t < |s.threads| ==> ItemOk(s.threads[t]))
    && (forall q :: 0 <= q < SLOTS && q != First(s.cfg.queues) ==> RegularOnly(s.lists[q]))
  }

  predicate ItemMove(s: State, pc: Pc, m: Move) {
    && ItemOk(m.pc)
    && (m.effect.Enqueue? ==> m.effect.item.exit ==> m.effect.q == First(s.cfg.queues))
  }

  lemma ItemWorker(s: State, w: WorkerPc, c: Choice)
    requires WellShaped(s) && SlotsIn(s.cfg, Worker(w)) && ItemOk(Worker(w))
    ensures ItemMove(s, Worker(w), PlanWorker(s, w, c))
  {
  }

  lemma ItemPlan(s: State, t: nat, c: Choice)
    requires WellShaped(s) && t < |s.threads| && ItemOk(s.threads[t])
    ensures ItemMove(s, s.threads[t], Plan(s, t, c))
  {
    if s.threads[t].Worker? {
      ItemWorker(s, s.threads[t].w, c);
    }
  }

  lemma ItemsApply(s: State, t: nat, m: Move)
    requires WellShaped(s) && t < |s.threads| && Possible(s, m.effect) && ItemsOk(s)
    requires WellShaped(Apply(s, t, m))
    requires ItemMove(s, s.threads[t], m)
    ensures ItemsOk(Apply(s, t, m))
  {
    var n := Apply(s, t, m);
    forall q | 0 <= q < SLOTS && q != First(s.cfg.queues) ensures RegularOnly(n.lists[q]) {
      assert RegularOnly(s.lists[q]);
    }
  }

  lemma ItemsStep(s: State, t: nat, c: Choice)
    requires CanStep(s, t, c) && ItemsOk(s)
    ensures WellShaped(Step(s, t, c)) && ItemsOk(Step(s, t, c))
  {
    ShapeStep(s, t, c);
    ItemPlan(s, t, c);
    ItemsApply(s, t, Plan(s, t, c));
  }

  // Order

  predicate FifoOk(s: State)
    requires WellShaped(s)
  {
    Fifo(s.enqueued, s.dequeued, s.lists)
  }

  lemma FifoStep(s: State, t: nat, c: Choice)
    requires CanStep(s, t, c) && FifoOk(s)
    ensures WellShaped(Step(s, t, c)) && FifoOk(Step(s, t, c))
  {
    ShapeStep(s, t, c);
    FifoApply(s, t, Plan(s, t, c));
  }

  lemma FifoApply(s: State, t: nat, m: Move)
    requires WellShaped(s) && t < |s.threads| && Possible(s, m.effect) && FifoOk(s)
    requires WellShaped(Apply(s, t, m))
    ensures FifoOk(Apply(s, t, m))
  {
    var n := Apply(s, t, m);
    forall q | 0 <= q < SLOTS ensures n.enqueued[q] == n.dequeued[q] + n.lists[q] {
      assert s.enqueued[q] == s.dequeued[q] + s.lists[q];
    }
  }

  // Ownership

  function Is(x: nat, o: Option<Item>): int {
    One(o.Some? && o.value.id == x)
  }

  /** How many times a thread holds item `x`. */
  function Holds(x: nat, pc: Pc): int {
    match pc
    case Worker(w) => Is(x, WorkerItem(w))
    case Posting(h, p) => Is(x, h) + Is(x, PostItem(p))
    case Manager(m) => Is(x, StopItem(m))
    case Rest => 0
  }

  function HoldsW(x: nat): Pc -> int {
    pc => Holds(x, pc)
  }

  function IdW(x: nat): Item -> int {
    (item: Item) => One(item.id == x)
  }

  function ListW(x: nat): seq<Item> -> int {
    l => Sum(IdW(x), l)
  }

  /** How many times item `x` is queued. */
  function Queued(x: nat, s: State): int {
    Sum(ListW(x), s.lists)
  }

  /** Every item ever allocated is in exactly one place: with one thread, in one queue at one
      position, or freed once.  No other identity is anywhere. */
  ghost predicate AllOwned(s: State) {
    forall x: nat :: OwnerOk(s, x)
  }

  predicate OwnerOk(s: State, x: nat) {
    Total(HoldsW(x), s) + Queued(x, s) + Freed(x, s) == One(x < s.nextId)
  }

  /** How many times item `x` was freed. */
  function Freed(x: nat, s: State): nat {
    s.freed[Item(x, false)] + s.freed[Item(x, true)]
  }

  /** What an effect does with item `x`, beside the hands of the threads. */
  function Gain(s: State, e: Effect, x: nat): int
    requires WellShaped(s)
  {
    if e.Enqueue? then One(e.item.id == x)
    else if e.Dequeue? && e.q < SLOTS && s.lists[e.q] != [] then -One(s.lists[e.q][0].id == x)
    else if e.Free? then One(e.item.id == x)
    else if e.Alloc? then -One(s.nextId == x)
    else 0
  }

  /** A move hands item `x` on, and neither drops nor duplicates it. */
  predicate OwnerMove(s: State, pc: Pc, m: Move, x: nat)
    requires WellShaped(s)
  {
    Holds(x, m.pc) - Holds(x, pc) + Gain(s, m.effect, x) == 0
  }

  lemma OwnerClient(s: State, h: Option<Item>, c: Choice, x: nat)
    requires WellShaped(s)
    ensures OwnerMove(s, AfterPost(h), PlanClient(s, h, c), x)
  {
  }

  lemma OwnerWorker(s: State, w: WorkerPc, c: Choice, x: nat)
    requires WellShaped(s) && SlotsIn(s.cfg, Worker(w)) && (w.Run? ==> c.act.DoFinish?)
    ensures OwnerMove(s, Worker(w), PlanWorker(s, w, c), x)
  {
  }

  lemma OwnerPost(s: State, h: Option<Item>, p: Post, c: Choice, x: nat)
    requires WellShaped(s) && SlotsIn(s.cfg, Posting(h, p))
    ensures OwnerMove(s, Posting(h, p), PlanPost(s, h, p, c), x)
  {
  }

  lemma OwnerManager(s: State, m: ManagerPc, c: Choice, x: nat)
    requires WellShaped(s)
    ensures OwnerMove(s, Manager(m), PlanManager(s, m, c), x)
  {
  }

  lemma OwnerPlan(s: State, t: nat, c: Choice, x: nat)
    requires WellShaped(s) && t < |s.threads|
    ensures OwnerMove(s, s.threads[t], Plan(s, t, c), x)
  {
    match s.threads[t]
    case Worker(w) =>
      if w.Run? && !c.act.DoFinish? {
        OwnerClient(s, Some(w.item), c, x);
      } else {
        OwnerWorker(s, w, c, x);
      }
    case Posting(h, p) => OwnerPost(s, h, p, c, x);
    case Manager(m) => OwnerManager(s, m, c, x);
    case Rest =>
  }

  lemma QueuedApply(s: State, t: nat, m: Move, x: nat)
    requires WellShaped(s) && t < |s.threads| && Possible(s, m.effect)
    ensures Queued(x, Apply(s, t, m)) ==
      Queued(x, s) + if m.effect.Enqueue? || m.effect.Dequeue? then Gain(s, m.effect, x) else 0
  {
    var e := m.effect;
    if e.Enqueue? {
      SumAppend(IdW(x), s.lists[e.q], e.item);
      SumUpdate(ListW(x), s.lists, e.q, s.lists[e.q] + [e.item]);
    } else if e.Dequeue? {
      SumFront(IdW(x), s.lists[e.q]);
      SumUpdate(ListW(x), s.lists, e.q, s.lists[e.q][1..]);
    }
  }

  lemma OwnerStep(s: State, t: nat, c: Choice, x: nat)
    requires CanStep(s, t, c) && OwnerOk(s, x)
    ensures OwnerOk(Step(s, t, c), x)
  {
    TotalStep(HoldsW(x), s, t, c);
    OwnerPlan(s, t, c, x);
    OwnerApply(s, t, Plan(s, t, c), x);
  }

  lemma OwnerApply(s: State, t: nat, m: Move, x: nat)
    requires WellShaped(s) && t < |s.threads| && Possible(s, m.effect) && OwnerOk(s, x)
    requires OwnerMove(s, s.threads[t], m, x)
    requires Total(HoldsW(x), Apply(s, t, m)) == Total(HoldsW(x), s) - Holds(x, s.threads[t]) + Holds(x, m.pc)
    ensures OwnerOk(Apply(s, t, m), x)
  {
    QueuedApply(s, t, m, x);
  }

  lemma AllOwnedStep(s: State, t: nat, c: Choice)
    requires CanStep(s, t, c) && AllOwned(s)
    ensures AllOwned(Step(s, t, c))
  {
    forall x: nat ensures OwnerOk(Step(s, t, c), x) {
      OwnerStep(s, t, c, x);
    }
  }

  // Exit items

  function ExitW(item: Item): int {
    One(item.exit)
  }

  /** How many exit items are queued. */
  function Exits(s: State): int
    requires WellShaped(s)
  {
    if First(s.cfg.queues) < SLOTS then Sum(ExitW, s.lists[First(s.cfg.queues)]) else 0
  }

  predicate IsExit(o: Option<Item>) {
    o.Some? && o.value.exit
  }

  /** A worker that has taken an exit item, up to and including its end. */
  function RetiredW(pc: Pc): int {
    One(pc.Worker? && (pc.w.Dead? || IsExit(WorkerItem(pc.w))))
  }

  function MakingW(pc: Pc): int {
    One(pc.Manager? && StopItem(pc.m).Some?)
  }

  /** Each exit item is on its way into the queue, queued, or has retired exactly one worker. */
  predicate ExitsOk(s: State)
    requires WellShaped(s)
  {
    s.exitsMade == Total(MakingW, s) + Exits(s) + Total(RetiredW, s)
  }

  function ExitGain(s: State, e: Effect): int
    requires WellShaped(s)
  {
    if e.Enqueue? then One(e.item.exit)
    else if e.Dequeue? && e.q < SLOTS && s.lists[e.q] != [] then -One(s.lists[e.q][0].exit)
    else 0
  }

  predicate ExitMove(s: State, pc: Pc, m: Move)
    requires WellShaped(s)
  {
    One(m.effect.Alloc? && m.effect.exit) ==
      MakingW(m.pc) - MakingW(pc) + RetiredW(m.pc) - RetiredW(pc) + ExitGain(s, m.effect)
  }

  lemma ExitWorker(s: State, w: WorkerPc, c: Choice)
    requires WellShaped(s) && SlotsIn(s.cfg, Worker(w)) && ItemOk(Worker(w))
    ensures ExitMove(s, Worker(w), PlanWorker(s, w, c))
  {
  }

  lemma ExitManager(s: State, m: ManagerPc, c: Choice)
    requires WellShaped(s) && ItemOk(Manager(m))
    ensures ExitMove(s, Manager(m), PlanManager(s, m, c))
  {
  }

  lemma ExitPlan(s: State, t: nat, c: Choice)
    requires WellShaped(s) && t < |s.threads| && ItemOk(s.threads[t])
    ensures ExitMove(s, s.threads[t], Plan(s, t, c))
  {
    match s.threads[t]
    case Worker(w) => ExitWorker(s, w, c);
    case Posting(h, p) =>
    case Manager(m) => ExitManager(s, m, c);
    case Rest =>
  }

  lemma ExitsApply(s: State, t: nat, m: Move)
    requires WellShaped(s) && t < |s.threads| && Possible(s, m.effect) && ItemsOk(s)
    requires ItemMove(s, s.threads[t], m) && WellShaped(Apply(s, t, m))
    ensures Exits(Apply(s, t, m)) == Exits(s) + ExitGain(s, m.effect)
  {
    var e := m.effect;
    var q0 := First(s.cfg.queues);
    FirstQueueExists(s);
    if e.Enqueue? {
      SumAppend(ExitW, s.lists[e.q], e.item);
    } else if e.Dequeue? {
      SumFront(ExitW, s.lists[e.q]);
      assert e.q != q0 ==> RegularOnly(s.lists[e.q]);
    }
  }

  lemma FirstQueueExists(s: State)
    requires WellShaped(s)
    ensures First(s.cfg.queues) < SLOTS && First(s.cfg.queues) in s.cfg.queues
  {
    var q :| q in s.cfg.queues;
    assert q < SLOTS;
  }

  lemma ExitsStep(s: State, t: nat, c: Choice)
    requires CanStep(s, t, c) && ItemsOk(s) && ExitsOk(s)
    ensures WellShaped(Step(s, t, c)) && ExitsOk(Step(s, t, c))
  {
    ShapeStep(s, t, c);
    ItemPlan(s, t, c);
    ExitPlan(s, t, c);
    TotalStep(MakingW, s, t, c);
    TotalStep(RetiredW, s, t, c);
    ExitsApply(s, t, Plan(s, t, c));
  }
}
