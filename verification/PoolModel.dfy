/** The non-overcommit thread pool of src/posix/manager.c as a concurrent program.

    Shared memory is a `State`; each thread has a program counter `Pc` that also holds its local
    variables.  `Plan` is the program text: what the thread at a given counter does next, as a new
    counter and one atomic `Effect` on shared memory.  `Apply` is the meaning of an effect.  A step
    of the pool is one effect of one thread, so any interleaving of atomic operations is a run. */
module PoolModel {
  import opened Sums

  /** PTHREAD_WORKQUEUE_MAX: the number of slots in `wqlist`. */
  const SLOTS: nat := 31

  /** WORKER_IDLE_SECONDS_THRESHOLD. */
  const IDLE_SECONDS: nat := 15

  /** `unsigned int` arithmetic is modulo this. */
  const UINT: nat := 0x1_0000_0000

  /** A work item.  `exit` is `func == NULL`: an order to one worker to leave the pool. */
  datatype Item = Item(id: nat, exit: bool)

  datatype Option<+T> = None | Some(value: T)

  datatype LockWord = Open | Held(owner: nat)

  /** The settings that stay fixed: which slots of `wqlist` hold a queue, PWQ_SPIN_THREADS,
      `worker_min`, `worker_idle_threshold` and `worker_max`. */
  datatype Config = Config(queues: set<nat>, spinMax: nat, workerMin: nat, threshold: nat, workerMax: nat)

  /** Who called `wqlist_scan`: the head of the worker loop, the spinning loop, or the loop under
      the mutex.  Only the last one may take exit items. */
  datatype Caller = Fast | Spinning | Waiting

  /** The stages of `manager_workqueue_additem`. */
  datatype Post =
    | PLock(q: nat, item: Item)
    | PCheck(q: nat, item: Item)
    | PSet(q: nat, item: Item)
    | PInsert(q: nat, item: Item)
    | PUnlock(q: nat)
    | PTest
    | PMutex
    | PSignal
    | PMutexUnlock

  /** Where the manager goes after `worker_start`. */
  datatype Resume = ToStartup(i: nat) | ToLoop(acc: nat)

  /** The stages of `worker_start`. */
  datatype Start = SPending | SIdle | SCount | SCreate | SUndoIdle | SUndoCount

  /** The stages of `worker_stop`. */
  datatype Stop =
    | XAlloc
    | XMutex(item: Item)
    | XLock(item: Item)
    | XSet(item: Item)
    | XInsert(item: Item)
    | XUnlock
    | XSignal
    | XMutexUnlock

  /** worker_main, wqlist_scan, wqlist_scan_spin and wqlist_scan_wait. */
  datatype WorkerPc =
    | Born
    | Read(via: Caller)
    | Lock(via: Caller, q: nat)
    | Pick(via: Caller, q: nat)
    | Clear(via: Caller, q: nat, item: Item)
    | Unlock(via: Caller, q: nat, got: Option<Item>)
    | SpinEnter
    | SpinLeave(got: Option<Item>)
    | MutexEnter
    | Sleep
    | Blocked
    | MutexLeave(item: Item)
    | RetireIdle(item: Item)
    | RetireCount(item: Item)
    | RetireFree(item: Item)
    | Dead
    | Got(item: Item)
    | Run(item: Item)
    | Finish(item: Item)

  /** manager_main, worker_start and worker_stop. */
  datatype ManagerPc =
    | MStartup(i: nat)
    | MStart(start: Start, resume: Resume)
    | MLoop(acc: nat)
    | MTestIdle(tick: bool, acc: nat)
    | MTestCount(tick: bool, acc: nat)
    | MTestPending(tick: bool, acc: nat)
    | MTestRequest(acc: nat)
    | MTakeRequest(acc: nat)
    | MTestLow(acc: nat)
    | MTestHigh(acc: nat)
    | MProbe(acc: nat)
    | MRetestIdle(acc: nat)
    | DTest(acc: nat)
    | DAdd(acc: nat)
    | DSurplus(max: nat)
    | DLoop(i: nat, max: nat)
    | MStop(stop: Stop, i: nat, max: nat)

  /** A thread: a worker, a client at rest, a thread inside `manager_workqueue_additem` (a client,
      or a worker whose callback for the item `host` posts), or the manager. */
  datatype Pc =
    | Worker(w: WorkerPc)
    | Rest
    | Posting(host: Option<Item>, post: Post)
    | Manager(m: ManagerPc)

  /** Shared memory.  The fields after `threads` are bookkeeping: the history of every queue, item
      identities, the items freed and the callbacks begun, and what has been requested, granted and
      refused.  Allocation reads `nextId` for a fresh identity; no other step reads any of them. */
  datatype State = State(
    cfg: Config,
    lists: seq<seq<Item>>,
    mask: set<nat>,
    spin: seq<LockWord>,
    mutex: LockWord,
    idle: int,
    count: int,
    pending: int,
    spinning: int,
    requests: int,
    threads: seq<Pc>,
    enqueued: seq<seq<Item>>,
    dequeued: seq<seq<Item>>,
    nextId: nat,
    freed: multiset<Item>,
    begun: multiset<Item>,
    exitsMade: nat,
    requestsMade: nat,
    requestsTaken: nat,
    failed: nat,
    settled: bool)

  /** One atomic action on shared memory. */
  datatype Effect =
    | Tau
    | SpinAcquire(q: nat)
    | SpinRelease(q: nat)
    | MutexAcquire
    | MutexRelease
    | SetBit(q: nat)
    | ClearBit(q: nat)
    | Enqueue(q: nat, item: Item)
    | Dequeue(q: nat)
    | Adjust(idle: int, count: int, pending: int, spinning: int)
    | Alloc(exit: bool)
    | Free(item: Item)
    | Signal(woken: nat)
    | Spawn
    | Refuse
    | Request
    | TakeRequest
    | Settle

  datatype Move = Move(pc: Pc, effect: Effect)

  /** The outcome of what the program does not decide: what a client or callback does next, which
      queue it posts to, which blocked thread a signal wakes, whether the timer fired, whether the
      load probe allows a thread, whether a thread can be created. */
  datatype Act = DoPost | DoAsk | DoFinish | DoNothing
  datatype Choice = Choice(act: Act, q: nat, woken: nat, yes: bool)

  /** The least index at or above `i` whose bit is set, or SLOTS: `ffs` and the search of `worker_stop`. */
  function FirstFrom(bits: set<nat>, i: nat): (r: nat)
    requires i <= SLOTS
    ensures i <= r <= SLOTS
    ensures r < SLOTS ==> r in bits
    ensures forall j :: i <= j < r ==> j !in bits
    decreases SLOTS - i
  {
    if i == SLOTS || i in bits then i else FirstFrom(bits, i + 1)
  }

  function First(bits: set<nat>): nat {
    FirstFrom(bits, 0)
  }

  function Min(a: int, b: int): int {
    if a < b then a else b
  }

  /** Where `wqlist_scan` returns to, with what it found. */
  function AfterScan(via: Caller, got: Option<Item>): WorkerPc {
    match via
    case Fast => if got.Some? then Got(got.value) else SpinEnter
    case Spinning => if got.Some? then SpinLeave(got) else Read(Spinning)
    case Waiting => if got.Some? then MutexLeave(got.value) else Sleep
  }

  function AfterPost(host: Option<Item>): Pc {
    if host.Some? then Worker(Run(host.value)) else Rest
  }

  function AfterStart(resume: Resume): ManagerPc {
    match resume
    case ToStartup(i) => MStartup(i)
    case ToLoop(acc) => MLoop(acc)
  }

  predicate WellShaped(s: State) {
    && |s.lists| == |s.spin| == |s.enqueued| == |s.dequeued| == SLOTS
    && s.cfg.queues != {}
    && (forall q :: q in s.cfg.queues ==> q < SLOTS)
    && (forall t :: 0 <= t < |s.threads| ==> SlotsIn(s.cfg, s.threads[t]))
  }

  /** Queue indices held in local variables name existing queues. */
  predicate SlotsIn(cfg: Config, pc: Pc) {
    match pc
    case Worker(w) => w.Lock? || w.Pick? || w.Clear? || w.Unlock? ==> w.q in cfg.queues
    case Posting(_, p) => HasSlot(p) ==> p.q in cfg.queues
    case _ => true
  }

  predicate HasSlot(p: Post) {
    p.PLock? || p.PCheck? || p.PSet? || p.PInsert? || p.PUnlock?
  }

  /** `wqlist_scan` with the queue's spin lock held: take the head, unless there is none or it is an
      exit item and the caller skips those. */
  function PlanPick(via: Caller, q: nat, l: seq<Item>): Move {
    if l == [] || (via != Waiting && l[0].exit) then Move(Worker(Unlock(via, q, None)), Tau)
    else if |l| == 1 then Move(Worker(Clear(via, q, l[0])), Dequeue(q))
    else Move(Worker(Unlock(via, q, Some(l[0]))), Dequeue(q))
  }

  /** What a client at rest or a running callback may do: post an item, ask the manager for a
      thread, or nothing. */
  function PlanClient(s: State, host: Option<Item>, c: Choice): Move {
    match c.act
    case DoPost =>
      if c.q in s.cfg.queues
      then Move(Posting(host, PLock(c.q, Item(s.nextId, false))), Alloc(false)) else Move(AfterPost(host), Tau)
    case DoAsk => Move(AfterPost(host), Request)
    case _ => Move(AfterPost(host), Tau)
  }

  /** A bit of the mask that names no queue would be a null dereference in the scan; `MaskOk`
      shows that there is none. */
  function PlanWorker(s: State, w: WorkerPc, c: Choice): Move
    requires WellShaped(s) && SlotsIn(s.cfg, Worker(w))
  {
    match w
    case Born => Move(Worker(Read(Fast)), Adjust(0, 0, -1, 0))
    case Read(via) =>
      var q := First(s.mask);
      Move(Worker(if q in s.mask && q in s.cfg.queues then Lock(via, q) else AfterScan(via, None)), Tau)
    case Lock(via, q) => Move(Worker(Pick(via, q)), SpinAcquire(q))
    case Pick(via, q) => PlanPick(via, q, s.lists[q])
    case Clear(via, q, item) => Move(Worker(Unlock(via, q, Some(item))), ClearBit(q))
    case Unlock(via, q, got) => Move(Worker(AfterScan(via, got)), SpinRelease(q))
    case SpinEnter =>
      Move(Worker(if s.spinning + 1 <= s.cfg.spinMax then Read(Spinning) else SpinLeave(None)), Adjust(0, 0, 0, 1))
    case SpinLeave(got) => Move(Worker(if got.Some? then Got(got.value) else MutexEnter), Adjust(0, 0, 0, -1))
    case MutexEnter => Move(Worker(Read(Waiting)), MutexAcquire)
    case Sleep => Move(Worker(Blocked), MutexRelease)
    case Blocked => Move(Worker(MutexEnter), Tau)
    case MutexLeave(item) => Move(Worker(if item.exit then RetireIdle(item) else Got(item)), MutexRelease)
    case RetireIdle(item) => Move(Worker(RetireCount(item)), Adjust(-1, 0, 0, 0))
    case RetireCount(item) => Move(Worker(RetireFree(item)), Adjust(0, -1, 0, 0))
    case RetireFree(item) => Move(Worker(Dead), Free(item))
    case Dead => Move(Worker(Dead), Tau)
    case Got(item) => Move(Worker(Run(item)), Adjust(-1, 0, 0, 0))
    case Run(item) =>
      if c.act.DoFinish? then Move(Worker(Finish(item)), Adjust(1, 0, 0, 0)) else PlanClient(s, Some(item), c)
    case Finish(item) => Move(Worker(Read(Fast)), Free(item))
  }

  function PlanPost(s: State, h: Option<Item>, post: Post, c: Choice): Move
    requires WellShaped(s) && SlotsIn(s.cfg, Posting(h, post))
  {
    match post
    case PLock(q, item) => Move(Posting(h, PCheck(q, item)), SpinAcquire(q))
    case PCheck(q, item) => Move(Posting(h, if s.lists[q] == [] then PSet(q, item) else PInsert(q, item)), Tau)
    case PSet(q, item) => Move(Posting(h, PInsert(q, item)), SetBit(q))
    case PInsert(q, item) => Move(Posting(h, PUnlock(q)), Enqueue(q, item))
    case PUnlock(q) => Move(Posting(h, PTest), SpinRelease(q))
    case PTest => Move(if s.idle > 0 then Posting(h, PMutex) else AfterPost(h), Tau)
    case PMutex => Move(Posting(h, PSignal), MutexAcquire)
    case PSignal => Move(Posting(h, PMutexUnlock), Signal(c.woken))
    case PMutexUnlock => Move(AfterPost(h), MutexRelease)
  }

  function PlanStart(start: Start, resume: Resume, c: Choice): Move {
    match start
    case SPending => Move(Manager(MStart(SIdle, resume)), Adjust(0, 0, 1, 0))
    case SIdle => Move(Manager(MStart(SCount, resume)), Adjust(1, 0, 0, 0))
    case SCount => Move(Manager(MStart(SCreate, resume)), Adjust(0, 1, 0, 0))
    case SCreate =>
      if c.yes then Move(Manager(AfterStart(resume)), Spawn) else Move(Manager(MStart(SUndoIdle, resume)), Refuse)
    case SUndoIdle => Move(Manager(MStart(SUndoCount, resume)), Adjust(-1, 0, 0, 0))
    case SUndoCount => Move(Manager(AfterStart(resume)), Adjust(0, -1, 0, 0))
  }

  function PlanStop(s: State, stop: Stop, i: nat, max: nat, c: Choice): Move {
    var q := First(s.cfg.queues);
    match stop
    case XAlloc => Move(Manager(MStop(XMutex(Item(s.nextId, true)), i, max)), Alloc(true))
    case XMutex(item) => Move(Manager(MStop(XLock(item), i, max)), MutexAcquire)
    case XLock(item) => Move(Manager(MStop(XSet(item), i, max)), SpinAcquire(q))
    case XSet(item) => Move(Manager(MStop(XInsert(item), i, max)), SetBit(q))
    case XInsert(item) => Move(Manager(MStop(XUnlock, i, max)), Enqueue(q, item))
    case XUnlock => Move(Manager(MStop(XSignal, i, max)), SpinRelease(q))
    case XSignal => Move(Manager(MStop(XMutexUnlock, i, max)), Signal(c.woken))
    case XMutexUnlock => Move(Manager(DLoop(i + 1, max)), MutexRelease)
  }

  /** Ramp-down is considered only on the timer tick. */
  function RampDown(tick: bool, acc: nat): ManagerPc {
    if tick then DTest(acc) else MLoop(acc)
  }

  /** The tests and local computations of `manager_main`, none of which changes shared memory. */
  function Decide(s: State, m: ManagerPc, c: Choice): ManagerPc {
    match m
    case MStartup(i) => if i < s.cfg.workerMin then MStart(SPending, ToStartup(i + 1)) else MLoop(0)
    case MLoop(acc) => MTestIdle(c.yes, acc)
    case MTestIdle(tick, acc) => if s.idle == 0 then MTestCount(tick, acc) else RampDown(tick, acc)
    case MTestCount(tick, acc) => if s.count > 0 then MTestPending(tick, acc) else RampDown(tick, acc)
    case MTestPending(tick, acc) => if s.pending == 0 then MTestRequest(acc) else RampDown(tick, acc)
    case MTestRequest(acc) => if s.requests != 0 then MTakeRequest(acc) else MTestLow(acc)
    case MTakeRequest(acc) => MStart(SPending, ToLoop(acc))
    case MTestLow(acc) => if s.count < s.cfg.threshold then MStart(SPending, ToLoop(acc)) else MTestHigh(acc)
    case MTestHigh(acc) => if s.count < s.cfg.workerMax then MProbe(acc) else MLoop(acc)
    case MProbe(acc) => if c.yes then MRetestIdle(acc) else MLoop(acc)
    case MRetestIdle(acc) => if s.idle == 0 then MStart(SPending, ToLoop(acc)) else MLoop(acc)
    case DTest(acc) => if s.idle > s.cfg.threshold then DAdd(acc) else MLoop(0)
    case DAdd(acc) =>
      var sum := (acc + s.idle) % UINT;
      if sum / IDLE_SECONDS > 0 then DSurplus(sum / IDLE_SECONDS) else MLoop(sum)
    case DSurplus(max) => DLoop(0, Min(max, (s.idle - s.cfg.threshold) % UINT))
    case DLoop(i, max) =>
      if i >= max then MLoop(0) else if s.idle > s.cfg.threshold then MStop(XAlloc, i, max) else DLoop(i + 1, max)
    case MStart(_, _) => m
    case MStop(_, _, _) => m
  }

  function PlanManager(s: State, m: ManagerPc, c: Choice): Move {
    if m.MStart? then PlanStart(m.start, m.resume, c)
    else if m.MStop? then PlanStop(s, m.stop, m.i, m.max, c)
    else Move(Manager(Decide(s, m, c)),
              if m.MTakeRequest? then TakeRequest
              else if m.MTestPending? && s.pending == 0 then Settle
              else Tau)
  }

  /** The program text: what thread `t` does next. */
  function Plan(s: State, t: nat, c: Choice): Move
    requires WellShaped(s) && t < |s.threads|
  {
    match s.threads[t]
    case Worker(w) => PlanWorker(s, w, c)
    case Rest => PlanClient(s, None, c)
    case Posting(h, post) => PlanPost(s, h, post, c)
    case Manager(m) => PlanManager(s, m, c)
  }

  /** An effect that must wait (a lock that is held, a signal that would wake the wrong thread) is
      not possible.  A signal wakes a blocked worker when there is one. */
  predicate Possible(s: State, e: Effect)
    requires WellShaped(s)
  {
    match e
    case SpinAcquire(q) => q < SLOTS && s.spin[q].Open?
    case SpinRelease(q) => q < SLOTS
    case Enqueue(q, _) => q < SLOTS
    case Dequeue(q) => q < SLOTS && s.lists[q] != []
    case MutexAcquire => s.mutex.Open?
    case Signal(w) =>
      || (w < |s.threads| && s.threads[w] == Worker(Blocked))
      || (forall t :: 0 <= t < |s.threads| ==> s.threads[t] != Worker(Blocked))
    case _ => true
  }

  predicate Wakes(s: State, e: Effect) {
    e.Signal? && e.woken < |s.threads| && s.threads[e.woken] == Worker(Blocked)
  }

  /** The threads after thread `t` has moved to `m.pc`: a signal moves one blocked worker to the
      mutex it waits for, a creation adds a worker that has not begun. */
  function NextThreads(s: State, t: nat, m: Move): seq<Pc>
    requires t < |s.threads|
  {
    var ts := s.threads[t := m.pc];
    if Wakes(s, m.effect) then ts[m.effect.woken := Worker(MutexEnter)]
    else if m.effect.Spawn? then ts + [Worker(Born)]
    else ts
  }

  function NextLists(lists: seq<seq<Item>>, e: Effect): (r: seq<seq<Item>>)
    requires |lists| == SLOTS
    requires e.Enqueue? ==> e.q < SLOTS
    requires e.Dequeue? ==> e.q < SLOTS && lists[e.q] != []
    ensures |r| == SLOTS
  {
    match e
    case Enqueue(q, item) => lists[q := lists[q] + [item]]
    case Dequeue(q) => lists[q := lists[q][1..]]
    case _ => lists
  }

  function NextMask(mask: set<nat>, e: Effect): set<nat> {
    match e
    case SetBit(q) => mask + {q}
    case ClearBit(q) => mask - {q}
    case _ => mask
  }

  function NextSpin(spin: seq<LockWord>, t: nat, e: Effect): (r: seq<LockWord>)
    requires |spin| == SLOTS
    requires e.SpinAcquire? || e.SpinRelease? ==> e.q < SLOTS
    ensures |r| == SLOTS
  {
    match e
    case SpinAcquire(q) => spin[q := Held(t)]
    case SpinRelease(q) => spin[q := Open]
    case _ => spin
  }

  function NextMutex(mutex: LockWord, t: nat, e: Effect): LockWord {
    if e.MutexAcquire? then Held(t) else if e.MutexRelease? then Open else mutex
  }

  function NextEnqueued(enqueued: seq<seq<Item>>, e: Effect): (r: seq<seq<Item>>)
    requires |enqueued| == SLOTS
    requires e.Enqueue? ==> e.q < SLOTS
    ensures |r| == SLOTS
  {
    if e.Enqueue? then enqueued[e.q := enqueued[e.q] + [e.item]] else enqueued
  }

  function NextDequeued(dequeued: seq<seq<Item>>, lists: seq<seq<Item>>, e: Effect): (r: seq<seq<Item>>)
    requires |dequeued| == |lists| == SLOTS
    requires e.Dequeue? ==> e.q < SLOTS && lists[e.q] != []
    ensures |r| == SLOTS
  {
    if e.Dequeue? then dequeued[e.q := dequeued[e.q] + [lists[e.q][0]]] else dequeued
  }

  function One(b: bool): (r: int)
    ensures 0 <= r <= 1
  {
    if b then 1 else 0
  }

  /** The thread is inside the callback of `item`, be it posting. */
  predicate Hosts(pc: Pc, item: Item) {
    pc == Worker(Run(item)) || (pc.Posting? && pc.host == Some(item))
  }

  /** A thread that goes from `pc` to `next` calls the function of an item. */
  predicate Begins(pc: Pc, next: Pc) {
    next.Worker? && next.w.Run? && !Hosts(pc, next.w.item)
  }

  /** The meaning of an effect, field by field. */
  function Apply(s: State, t: nat, m: Move): State
    requires WellShaped(s) && t < |s.threads| && Possible(s, m.effect)
  {
    var e := m.effect;
    State(
      s.cfg,
      NextLists(s.lists, e),
      NextMask(s.mask, e),
      NextSpin(s.spin, t, e),
      NextMutex(s.mutex, t, e),
      s.idle + (if e.Adjust? then e.idle else 0),
      s.count + (if e.Adjust? then e.count else 0),
      s.pending + (if e.Adjust? then e.pending else 0),
      s.spinning + (if e.Adjust? then e.spinning else 0),
      s.requests + One(e.Request?) - One(e.TakeRequest?),
      NextThreads(s, t, m),
      NextEnqueued(s.enqueued, e),
      NextDequeued(s.dequeued, s.lists, e),
      s.nextId + One(e.Alloc?),
      if e.Free? then s.freed + multiset{e.item} else s.freed,
      if Begins(s.threads[t], m.pc) then s.begun + multiset{m.pc.w.item} else s.begun,
      s.exitsMade + One(e.Alloc? && e.exit),
      s.requestsMade + One(e.Request?),
      s.requestsTaken + One(e.TakeRequest?),
      s.failed + One(e.Refuse?),
      s.settled || e.Settle?)
  }

  predicate CanStep(s: State, t: nat, c: Choice) {
    WellShaped(s) && t < |s.threads| && Possible(s, Plan(s, t, c).effect)
  }

  function Step(s: State, t: nat, c: Choice): State
    requires CanStep(s, t, c)
  {
    Apply(s, t, Plan(s, t, c))
  }

  /** Thread 0 is the manager, about to create the first workers; the others are clients. */
  predicate Init(s: State) {
    && |s.lists| == |s.spin| == |s.enqueued| == |s.dequeued| == SLOTS
    && s.cfg.queues != {}
    && (forall q :: q in s.cfg.queues ==> q < SLOTS)
    && (forall q :: 0 <= q < SLOTS ==>
      s.lists[q] == [] && s.enqueued[q] == [] && s.dequeued[q] == [] && s.spin[q].Open?)
    && s.mask == {}
    && s.mutex.Open?
    && s.idle == s.count == s.pending == s.spinning == s.requests == 0
    && 0 < |s.threads|
    && s.threads[0] == Manager(MStartup(0))
    && (forall t :: 0 < t < |s.threads| ==> s.threads[t] == Rest)
    && s.nextId == s.exitsMade == s.requestsMade == s.requestsTaken == s.failed == 0
    && s.freed == s.begun == multiset{}
    && !s.settled
  }

  /** A weight summed over all threads. */
  function Total(w: Pc -> int, s: State): int {
    Sum(w, s.threads)
  }

  /** What a step adds to a total beside the move of the thread that took it. */
  function Extra(w: Pc -> int, s: State, e: Effect): int {
    if Wakes(s, e) then w(Worker(MutexEnter)) - w(Worker(Blocked))
    else if e.Spawn? then w(Worker(Born))
    else 0
  }

  /** Signals and creations aside, a total changes by the weight of one thread's move. */
  lemma TotalStep(w: Pc -> int, s: State, t: nat, c: Choice)
    requires CanStep(s, t, c)
    ensures Total(w, Step(s, t, c)) ==
      Total(w, s) - w(s.threads[t]) + w(Plan(s, t, c).pc) + Extra(w, s, Plan(s, t, c).effect)
  {
    var m := Plan(s, t, c);
    SumUpdate(w, s.threads, t, m.pc);
    var ts := s.threads[t := m.pc];
    if Wakes(s, m.effect) {
      SignalsAreSent(s, t, c);
      SumUpdate(w, ts, m.effect.woken, Worker(MutexEnter));
    } else if m.effect.Spawn? {
      SumAppend(w, ts, Worker(Born));
    }
  }

  /** Only the two signalling statements signal, and a thread at one of them is not blocked. */
  lemma SignalsAreSent(s: State, t: nat, c: Choice)
    requires CanStep(s, t, c) && Plan(s, t, c).effect.Signal?
    ensures s.threads[t] != Worker(Blocked)
  {
  }

  lemma SlotsPlan(s: State, t: nat, c: Choice)
    requires WellShaped(s) && t < |s.threads|
    ensures SlotsIn(s.cfg, Plan(s, t, c).pc)
  {
  }

  /** The shape is kept, and nothing changes the settings. */
  lemma ShapeStep(s: State, t: nat, c: Choice)
    requires CanStep(s, t, c)
    ensures WellShaped(Step(s, t, c)) && Step(s, t, c).cfg == s.cfg
    ensures |s.threads| <= |Step(s, t, c).threads|
  {
    SlotsPlan(s, t, c);
    ShapeApply(s, t, Plan(s, t, c));
  }

  lemma ShapeApply(s: State, t: nat, m: Move)
    requires WellShaped(s) && t < |s.threads| && Possible(s, m.effect) && SlotsIn(s.cfg, m.pc)
    ensures WellShaped(Apply(s, t, m)) && Apply(s, t, m).cfg == s.cfg
    ensures |s.threads| <= |Apply(s, t, m).threads|
  {
  }
}
