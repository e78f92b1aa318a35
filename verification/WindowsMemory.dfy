/** The legacy Windows pool (src/windows/manager.c) with one step per access to shared memory: the spin
    lock of each queue, the pointers of its list, and the late second initialisation of the spin lock
    that follows the release of the write lock.

    Calls into the library are numbered as they arrive.  Call `t` runs as thread `t`; when it creates
    a queue the queue is named `t`, when it adds an item the item is named `t`, and after it has
    submitted its callback the thread stands for that callback. */
module WindowsMemory {
  import opened Sums
  import RwLock

  /** A pointer to an item. */
  datatype Ptr = Null | To(item: nat)

  /** What `stqh_last` addresses: the first pointer of its head, or the next pointer of an item. */
  datatype Slot = OfHead | OfItem(item: nat)

  /** The last three fields are bookkeeping that no step reads: the items stored and not yet removed, all
      items stored, and all items that callbacks removed, in order. */
  datatype Queue = Queue(locked: bool, first: Ptr, last: Slot, list: seq<nat>, stored: seq<nat>, gone: seq<nat>)

  /** `home` is bookkeeping: the queue the item is added to. */
  datatype Item = Item(next: Ptr, home: nat)

  const NEW := Queue(false, Null, OfHead, [], [], [])

  /** manager_workqueue_create, manager_workqueue_additem, and worker_main with wqlist_scan. */
  datatype Pc =
    | Creator
    | WantCreate
    | Creating
    | Linked
    | Late
    | Created
    | AddLock(q: nat)
    | AddClear(q: nat)
    | AddStore(q: nat)
    | AddTail(q: nat)
    | AddUnlock(q: nat)
    | Submitting
    | Ready
    | Scanning(at: nat)
    | Test(at: nat, q: nat)
    | Take(at: nat, q: nat)
    | Remove(at: nat, q: nat, item: nat)
    | Write(at: nat, q: nat, item: nat, rest: Ptr)
    | Tail(at: nat, q: nat, item: nat)
    | Leave(at: nat, q: nat, item: nat)
    | Skip(at: nat, q: nat)
    | Fail(at: nat, q: nat)
    | Crashed(at: nat, q: nat)
    | Took(item: nat)
    | Nothing
    | Running(item: nat)
    | Done(item: nat)
    | EmptyHanded

  /** `order` has the names of the linked queues in scan order. */
  datatype Mem = Mem(order: seq<nat>, queues: seq<Queue>, items: seq<Item>, lock: RwLock.Word, threads: seq<Pc>)

  const START := Mem([], [], [], RwLock.FREE, [])

  /** A call arrives, or thread `t` performs its next access.  A new item's next pointer holds `junk`;
      a new queue is linked at position `at`. */
  datatype Label = CallCreate | CallAdd(q: nat, junk: Ptr) | Act(t: nat, at: nat)

  // Sections

  /** The thread is inside a section of some queue. */
  predicate Inside(pc: Pc) {
    InAdd(pc) || InScan(pc)
  }

  predicate InAdd(pc: Pc) {
    pc.AddClear? || pc.AddStore? || pc.AddTail? || pc.AddUnlock?
  }

  predicate InScan(pc: Pc) {
    pc.Test? || pc.Take? || pc.Remove? || pc.Write? || pc.Tail? || pc.Leave? || pc.Skip? || pc.Fail? || pc.Crashed?
  }

  /** A callback between `pthread_rwlock_rdlock` and `pthread_rwlock_unlock`. */
  predicate Scans(pc: Pc) {
    pc.Scanning? || InScan(pc) || pc.Took? || pc.Nothing?
  }

  /** A callback that has been submitted and has not returned from its scan. */
  predicate Outstanding(pc: Pc) {
    pc.Ready? || Scans(pc)
  }

  function In(q: nat, pc: Pc): int {
    if Inside(pc) && pc.q == q then 1 else 0
  }

  function InW(q: nat): Pc -> int {
    pc => In(q, pc)
  }

  /** The number of threads inside the sections of queue `q`. */
  function Holders(s: Mem, q: nat): int {
    Sum(InW(q), s.threads)
  }

  // Names

  predicate PtrIn(p: Ptr, n: nat) {
    p.To? ==> p.item < n
  }

  /** All names are those of calls that have arrived, and items are added only to queues whose
      creation has returned. */
  predicate Shaped(s: Mem) {
    && |s.queues| == |s.items| == |s.threads|
    && (forall p :: 0 <= p < |s.order| ==> s.order[p] < |s.threads|)
    && (forall q :: 0 <= q < |s.queues| ==>
      PtrIn(s.queues[q].first, |s.threads|) && (s.queues[q].last.OfItem? ==> s.queues[q].last.item < |s.threads|))
    && (forall x :: 0 <= x < |s.items| ==> PtrIn(s.items[x].next, |s.threads|))
    && (forall t :: 0 <= t < |s.threads| ==> PcIn(s.threads, s.threads[t]))
  }

  predicate PcIn(threads: seq<Pc>, pc: Pc) {
    && (Inside(pc) || pc.AddLock? ==> pc.q < |threads|)
    && (InAdd(pc) || pc.AddLock? ==> threads[pc.q].Created?)
    && (pc.Write? ==> PtrIn(pc.rest, |threads|))
  }

  // Steps

  predicate Enabled(s: Mem, l: Label) {
    && Shaped(s)
    && match l
       case CallCreate => true
       case CallAdd(q, junk) => q < |s.threads| && s.threads[q].Created? && PtrIn(junk, |s.threads|)
       case Act(t, at) => t < |s.threads| && Runs(s, s.threads[t], at)
  }

  /** A thread waits for a spin lock that is held, and stops when its call or callback is over. */
  predicate Runs(s: Mem, pc: Pc, at: nat)
    requires Shaped(s) && PcIn(s.threads, pc)
  {
    match pc
    case Creating => at <= |s.order|
    case AddLock(q) => !s.queues[q].locked
    case Scanning(p) => p < |s.order| ==> !s.queues[s.order[p]].locked
    case Created => false
    case Done(_) => false
    case EmptyHanded => false
    case Crashed(_, _) => false
    case _ => true
  }

  /** What thread `t` does to the queue it is at. */
  function NextQueue(pc: Pc, t: nat, u: Queue): Queue {
    match pc
    case AddLock(_) => u.(locked := true)
    case AddStore(_) => u.(first := if u.last.OfHead? then To(t) else u.first, list := u.list + [t],
                              stored := u.stored + [t])
    case AddTail(_) => u.(last := OfItem(t))
    case AddUnlock(_) => u.(locked := false)
    case Scanning(_) => u.(locked := true)
    case Write(_, _, x, rest) => u.(first := rest, list := if u.list == [] then [] else u.list[1..], gone := u.gone + [x])
    case Tail(_, _, _) => u.(last := OfHead)
    case Leave(_, _, _) => u.(locked := false)
    case Skip(_, _) => u.(locked := false)
    case Fail(_, _) => u.(locked := false)
    case Late => u.(locked := false)
    case _ => u
  }

  /** The queue thread `t` is at, if any. */
  function QueueAt(s: Mem, t: nat): Ptr
    requires t < |s.threads|
  {
    var pc := s.threads[t];
    if pc.Late? then To(t)
    else if pc.AddLock? || Inside(pc) then To(pc.q)
    else if pc.Scanning? && pc.at < |s.order| then To(s.order[pc.at])
    else Null
  }

  function NextQueues(s: Mem, t: nat): (r: seq<Queue>)
    requires Shaped(s) && t < |s.threads|
    ensures |r| == |s.queues|
  {
    var p := QueueAt(s, t);
    if p.To? then s.queues[p.item := NextQueue(s.threads[t], t, s.queues[p.item])] else s.queues
  }

  /** The first two stores of STAILQ_INSERT_TAIL: the item's own next pointer, and the one that
      `stqh_last` addresses. */
  function NextItems(s: Mem, t: nat): (r: seq<Item>)
    requires Shaped(s) && t < |s.threads|
    ensures |r| == |s.items|
  {
    match s.threads[t]
    case AddClear(_) => s.items[t := s.items[t].(next := Null)]
    case AddStore(q) =>
      (match s.queues[q].last
       case OfHead => s.items
       case OfItem(x) => s.items[x := s.items[x].(next := To(t))])
    case _ => s.items
  }

  /** The fields of `wqlist_mtx` and whether the thread got what it asked for. */
  function NextLock(s: Mem, t: nat): (RwLock.Word, bool)
    requires t < |s.threads|
  {
    match s.threads[t]
    case Creator => RwLock.WriteSection(s.lock.(waiting := s.lock.waiting + 1), t)
    case WantCreate => RwLock.WriteSection(s.lock, t)
    case Ready => RwLock.ReadSection(s.lock)
    case Linked => (RwLock.UnlockSection(s.lock, t), true)
    case Took(_) => (RwLock.UnlockSection(s.lock, t), true)
    case Nothing => (RwLock.UnlockSection(s.lock, t), true)
    case Scanning(p) => (if p < |s.order| then s.lock else RwLock.UnlockSection(s.lock, t), true)
    case _ => (s.lock, true)
  }

  /** The program text of wqlist_scan inside the section of queue `u`, whose first item, if any, has
      the next pointer `next`.  It reads `stqh_first` three times: for the test, for the result, and for
      the removal, which then follows the pointer. */
  function ScanPc(pc: Pc, u: Queue, next: Ptr): Pc
    requires InScan(pc)
  {
    match pc
    case Test(p, q) => if u.first.Null? then Skip(p, q) else Take(p, q)
    case Take(p, q) => if u.first.Null? then Fail(p, q) else Remove(p, q, u.first.item)
    case Remove(p, q, x) => if u.first.Null? then Crashed(p, q) else Write(p, q, x, next)
    case Write(p, q, x, rest) => if rest.Null? then Tail(p, q, x) else Leave(p, q, x)
    case Tail(p, q, x) => Leave(p, q, x)
    case Leave(_, _, x) => Took(x)
    case Skip(p, _) => Scanning(p + 1)
    case Fail(_, _) => Nothing
    case Crashed(_, _) => pc
  }

  /** The program text of manager_workqueue_additem inside the section. */
  function AddPc(pc: Pc): Pc
    requires InAdd(pc)
  {
    match pc
    case AddClear(q) => AddStore(q)
    case AddStore(q) => AddTail(q)
    case AddTail(q) => AddUnlock(q)
    case AddUnlock(_) => Submitting
  }

  /** The next pointer of the first item of queue `q`. */
  function NextOfFirst(s: Mem, q: nat): Ptr
    requires Shaped(s) && q < |s.queues|
  {
    if s.queues[q].first.Null? then Null else s.items[s.queues[q].first.item].next
  }

  /** The program text outside the sections. */
  function OuterPc(s: Mem, t: nat): Pc
    requires t < |s.threads|
  {
    match s.threads[t]
    case Creator => if NextLock(s, t).1 then Creating else WantCreate
    case WantCreate => if NextLock(s, t).1 then Creating else WantCreate
    case Creating => Linked
    case Linked => Late
    case Late => Created
    case AddLock(q) => AddClear(q)
    case Submitting => Ready
    case Ready => if NextLock(s, t).1 then Scanning(0) else Ready
    case Scanning(p) => if p < |s.order| then Test(p, s.order[p]) else EmptyHanded
    case Took(x) => Running(x)
    case Nothing => EmptyHanded
    case Running(x) => Done(x)
    case pc => pc
  }

  function NextPc(s: Mem, t: nat): Pc
    requires Shaped(s) && t < |s.threads|
  {
    var pc := s.threads[t];
    if InScan(pc) then ScanPc(pc, s.queues[pc.q], NextOfFirst(s, pc.q))
    else if InAdd(pc) then AddPc(pc)
    else OuterPc(s, t)
  }

  /** Linking puts the new queue at position `at`. */
  function NextOrder(s: Mem, t: nat, at: nat): seq<nat>
    requires t < |s.threads|
  {
    if s.threads[t].Creating? && at <= |s.order| then s.order[..at] + [t] + s.order[at..] else s.order
  }

  function Step(s: Mem, l: Label): Mem
    requires Enabled(s, l)
  {
    match l
    case CallCreate => s.(queues := s.queues + [NEW], items := s.items + [Item(Null, 0)], threads := s.threads + [Creator])
    case CallAdd(q, junk) =>
      s.(queues := s.queues + [NEW], items := s.items + [Item(junk, q)], threads := s.threads + [AddLock(q)])
    case Act(t, at) =>
      Mem(NextOrder(s, t, at), NextQueues(s, t), NextItems(s, t), NextLock(s, t).0, s.threads[t := NextPc(s, t)])
  }

  lemma ShapeStep(s: Mem, l: Label)
    requires Enabled(s, l)
    ensures Shaped(Step(s, l))
  {
    if l.Act? {
      ShapeAct(s, l.t, l.at);
    }
  }

  lemma ShapeAct(s: Mem, t: nat, at: nat)
    requires Enabled(s, Act(t, at))
    ensures Shaped(Step(s, Act(t, at)))
  {
    ShapePc(s, t, at);
    var n := Step(s, Act(t, at));
    forall u | 0 <= u < |n.threads| ensures PcIn(n.threads, n.threads[u]) {
      assert PcIn(s.threads, s.threads[u]);
    }
  }

  lemma ShapePc(s: Mem, t: nat, at: nat)
    requires Enabled(s, Act(t, at))
    ensures PcIn(s.threads, NextPc(s, t)) && !s.threads[t].Created?
  {
    assert PcIn(s.threads, s.threads[t]);
  }

  // The late initialisation

  /** The lock word of every queue says exactly whether a thread is inside its sections, and there is
      at most one. */
  predicate Guarded(s: Mem) {
    forall q :: 0 <= q < |s.queues| ==> GuardedAt(s, q)
  }

  predicate GuardedAt(s: Mem, q: nat)
    requires q < |s.queues|
  {
    Holders(s, q) == if s.queues[q].locked then 1 else 0
  }

  /** The late initialisation of a spin lock that is held. */
  predicate Tramples(s: Mem, l: Label)
    requires Enabled(s, l)
  {
    l.Act? && s.threads[l.t].Late? && s.queues[l.t].locked
  }

  /** A thread enters a section of `q` when it locks the queue and leaves when it unlocks it. */
  lemma GuardMove(s: Mem, t: nat, at: nat, q: nat)
    requires Enabled(s, Act(t, at)) && q < |s.queues|
    requires In(q, s.threads[t]) == 1 ==> s.queues[q].locked
    ensures NextQueues(s, t)[q].locked ==
      if s.threads[t].Late? && t == q then false
      else In(q, NextPc(s, t)) == 1 || (s.queues[q].locked && In(q, s.threads[t]) == 0)
    ensures In(q, NextPc(s, t)) == 1 && In(q, s.threads[t]) == 0 ==> !s.queues[q].locked
  {
    assert PcIn(s.threads, s.threads[t]);
  }

  lemma GuardAct(s: Mem, t: nat, at: nat, q: nat)
    requires Enabled(s, Act(t, at)) && q < |s.queues| && GuardedAt(s, q)
    ensures Sum(InW(q), s.threads[t := NextPc(s, t)]) == (if NextQueues(s, t)[q].locked then 1 else 0) <==>
            !(s.threads[t].Late? && s.queues[q].locked && q == t)
  {
    SumAtLeast(InW(q), s.threads, t);
    GuardMove(s, t, at, q);
    SumUpdate(InW(q), s.threads, t, NextPc(s, t));
  }

  lemma GuardAt(s: Mem, l: Label, q: nat)
    requires Enabled(s, l) && Guarded(s) && q < |s.queues|
    ensures |s.queues| <= |Step(s, l).queues|
    ensures GuardedAt(Step(s, l), q) <==> !(Tramples(s, l) && q == l.t)
  {
    assert GuardedAt(s, q);
    if l.Act? {
      GuardAct(s, l.t, l.at, q);
    } else {
      SumAppend(InW(q), s.threads, if l.CallAdd? then AddLock(l.q) else Creator);
    }
  }

  /** Exactly when one step breaks the exclusion: when it is the late initialisation of a lock that is
      held. */
  lemma GuardStep(s: Mem, l: Label)
    requires Enabled(s, l) && Guarded(s)
    ensures Guarded(Step(s, l)) <==> !Tramples(s, l)
  {
    var n := Step(s, l);
    forall q | 0 <= q < |s.queues| ensures GuardedAt(n, q) <==> !(Tramples(s, l) && q == l.t) {
      GuardAt(s, l, q);
    }
    if !l.Act? {
      NobodyAtNew(s, l);
    } else if Tramples(s, l) {
      assert !GuardedAt(n, l.t);
    }
  }

  lemma NobodyAtNew(s: Mem, l: Label)
    requires Enabled(s, l) && !l.Act?
    ensures Holders(Step(s, l), |s.threads|) == 0
  {
    var n := Step(s, l);
    forall t | 0 <= t < |n.threads| ensures In(|s.threads|, n.threads[t]) == 0 {
      assert t < |s.threads| ==> PcIn(s.threads, s.threads[t]);
    }
    SumZero(InW(|s.threads|), n.threads);
  }

  // Runs

  predicate IsRun(run: seq<Mem>, labels: seq<Label>) {
    && |run| == |labels| + 1
    && run[0] == START
    && (forall i :: 0 <= i < |labels| ==> StepAt(run, labels, i))
  }

  predicate StepAt(run: seq<Mem>, labels: seq<Label>, i: nat)
    requires i < |labels| < |run|
  {
    Enabled(run[i], labels[i]) && run[i + 1] == Step(run[i], labels[i])
  }

  /** The late initialisations of the first `i` steps found their locks free. */
  predicate Clean(run: seq<Mem>, labels: seq<Label>, i: nat)
    requires IsRun(run, labels) && i < |run|
  {
    forall k :: 0 <= k < i ==> StepAt(run, labels, k) && !Tramples(run[k], labels[k])
  }

  lemma GuardStepAt(run: seq<Mem>, labels: seq<Label>, i: nat)
    requires IsRun(run, labels) && i < |labels| && Guarded(run[i])
    ensures StepAt(run, labels, i) && (Guarded(run[i + 1]) <==> !Tramples(run[i], labels[i]))
  {
    assert StepAt(run, labels, i);
    GuardStep(run[i], labels[i]);
  }

  lemma {:induction false} CleanIsGuarded(run: seq<Mem>, labels: seq<Label>, i: nat)
    requires IsRun(run, labels) && i < |run| && Clean(run, labels, i)
    ensures Guarded(run[i])
  {
    if i > 0 {
      CleanIsGuarded(run, labels, i - 1);
      GuardStepAt(run, labels, i - 1);
    }
  }

  /** The exact condition over runs: the lock words have told the truth in every state so far if and
      only if every late initialisation so far found its lock free. */
  lemma GuardedExactly(run: seq<Mem>, labels: seq<Label>, i: nat)
    requires IsRun(run, labels) && i < |run|
    ensures (forall k :: 0 <= k <= i ==> Guarded(run[k])) <==> Clean(run, labels, i)
  {
    if Clean(run, labels, i) {
      forall k | 0 <= k <= i ensures Guarded(run[k]) {
        CleanIsGuarded(run, labels, k);
      }
    }
    if forall k :: 0 <= k <= i ==> Guarded(run[k]) {
      forall k | 0 <= k < i ensures StepAt(run, labels, k) && !Tramples(run[k], labels[k]) {
        GuardStepAt(run, labels, k);
      }
    }
  }

  // The reader/writer lock

  /** What a thread is to the reader/writer lock. */
  function Role(pc: Pc): RwLock.Pc {
    if pc.WantCreate? then RwLock.WantWrite
    else if pc.Creating? || pc.Linked? then RwLock.Writing
    else if pc.Ready? then RwLock.WantRead
    else if Scans(pc) then RwLock.Reading
    else RwLock.Outside
  }

  function Roles(threads: seq<Pc>): (r: seq<RwLock.Pc>)
    ensures |r| == |threads|
    ensures forall t :: 0 <= t < |threads| ==> r[t] == Role(threads[t])
  {
    seq(|threads|, t requires 0 <= t < |threads| => Role(threads[t]))
  }

  function LockView(s: Mem): RwLock.Rw {
    RwLock.Rw(s.lock, Roles(s.threads))
  }

  /** The thread is about to operate on the reader/writer lock. */
  predicate AtLock(s: Mem, pc: Pc) {
    || pc.Creator? || pc.WantCreate? || pc.Linked? || pc.Submitting? || pc.Ready? || pc.Took? || pc.Nothing?
    || (pc.Scanning? && pc.at >= |s.order|)
  }

  function LockOp(pc: Pc): RwLock.Op {
    if pc.Creator? then RwLock.CallWrite
    else if pc.WantCreate? then RwLock.RetryWrite
    else if pc.Submitting? then RwLock.CallRead
    else if pc.Ready? then RwLock.RetryRead
    else RwLock.Unlock
  }

  lemma LockMove(s: Mem, t: nat, at: nat)
    requires Enabled(s, Act(t, at))
    ensures
      if AtLock(s, s.threads[t])
      then RwLock.Enabled(LockView(s), RwLock.Label(t, LockOp(s.threads[t]))) &&
           (NextLock(s, t).0, Role(NextPc(s, t))) == RwLock.Move(LockView(s), RwLock.Label(t, LockOp(s.threads[t])))
      else NextLock(s, t).0 == s.lock && Role(NextPc(s, t)) == Role(s.threads[t])
  {
  }

  lemma LockAct(s: Mem, t: nat, at: nat)
    requires Enabled(s, Act(t, at)) && RwLock.Inv(LockView(s))
    ensures RwLock.Inv(LockView(Step(s, Act(t, at))))
  {
    LockMove(s, t, at);
    assert Roles(s.threads[t := NextPc(s, t)]) == Roles(s.threads)[t := Role(NextPc(s, t))];
    if AtLock(s, s.threads[t]) {
      RwLock.InvStep(LockView(s), RwLock.Label(t, LockOp(s.threads[t])));
    } else {
      assert Roles(s.threads)[t := Role(s.threads[t])] == Roles(s.threads);
    }
  }

  lemma LockStep(s: Mem, l: Label)
    requires Enabled(s, l) && RwLock.Inv(LockView(s))
    ensures RwLock.Inv(LockView(Step(s, l)))
  {
    if l.Act? {
      LockAct(s, l.t, l.at);
    } else {
      RwLock.NewThread(LockView(s));
      assert Roles(Step(s, l).threads) == Roles(s.threads) + [RwLock.Outside];
    }
  }

  lemma {:induction false} LockHolds(run: seq<Mem>, labels: seq<Label>, i: nat)
    requires IsRun(run, labels) && i < |run|
    ensures RwLock.Inv(LockView(run[i]))
  {
    if i > 0 {
      LockHolds(run, labels, i - 1);
      assert StepAt(run, labels, i - 1);
      LockStep(run[i - 1], labels[i - 1]);
    }
  }

  lemma WriterExcludes(s: Mem, t: nat, u: nat)
    requires RwLock.Inv(LockView(s)) && t < |s.threads| && u < |s.threads| && s.threads[t].Creating?
    ensures !Scans(s.threads[u])
  {
    RwLock.Totals(LockView(s), t);
    RwLock.Totals(LockView(s), u);
  }

  /** In every run, whatever the spin locks do, no callback scans while a queue is being linked. */
  lemma CreationExcludesScans(run: seq<Mem>, labels: seq<Label>, i: nat, t: nat, u: nat)
    requires IsRun(run, labels) && i < |run| && t < |run[i].threads| && u < |run[i].threads|
    requires run[i].threads[t].Creating?
    ensures !Scans(run[i].threads[u])
  {
    LockHolds(run, labels, i);
    WriterExcludes(run[i], t, u);
  }

  // When the late initialisation finds its lock free

  /** The lock of a queue whose creation has not returned is held only by a callback. */
  lemma HeldByCallback(s: Mem, t: nat) returns (u: nat)
    requires Shaped(s) && t < |s.threads| && GuardedAt(s, t) && s.threads[t].Late? && s.queues[t].locked
    ensures u < |s.threads| && InScan(s.threads[u]) && s.threads[u].q == t
  {
    u := SumWitness(InW(t), s.threads);
    assert PcIn(s.threads, s.threads[u]);
  }

  predicate NoCallback(s: Mem) {
    forall u :: 0 <= u < |s.threads| ==> !Outstanding(s.threads[u])
  }

  predicate CreatesLate(s: Mem, l: Label) {
    l.Act? && l.t < |s.threads| && s.threads[l.t].Late?
  }

  /** It is enough that no callback is outstanding when the creation of a queue returns. */
  lemma {:induction false} QuietCreationIsClean(run: seq<Mem>, labels: seq<Label>, i: nat)
    requires IsRun(run, labels) && i < |run|
    requires forall k :: 0 <= k < i && CreatesLate(run[k], labels[k]) ==> NoCallback(run[k])
    ensures Clean(run, labels, i)
  {
    if i > 0 {
      QuietCreationIsClean(run, labels, i - 1);
      CleanIsGuarded(run, labels, i - 1);
      QuietAt(run, labels, i - 1);
    }
  }

  lemma QuietAt(run: seq<Mem>, labels: seq<Label>, i: nat)
    requires IsRun(run, labels) && i < |labels| && Guarded(run[i])
    requires CreatesLate(run[i], labels[i]) ==> NoCallback(run[i])
    ensures StepAt(run, labels, i) && !Tramples(run[i], labels[i])
  {
    assert StepAt(run, labels, i);
    QuietStep(run[i], labels[i]);
  }

  lemma QuietStep(s: Mem, l: Label)
    requires Enabled(s, l) && Guarded(s) && (CreatesLate(s, l) ==> NoCallback(s))
    ensures !Tramples(s, l)
  {
    if Tramples(s, l) {
      assert GuardedAt(s, l.t);
      var u := HeldByCallback(s, l.t);
      assert false;
    }
  }
}
