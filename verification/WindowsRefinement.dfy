/** While no late initialisation hits a held spin lock, the pool of `WindowsMemory` is the pool of
    `WindowsPool`: the sections of a queue exclude each other, the pointers form the list, and each
    access is one step of that pool or none. */
module WindowsRefinement {
  import opened Sums
  import RwLock
  import WP = WindowsPool
  import opened WindowsMemory

  // The pointers

  /** The item at position `i`, or null past the end. */
  function PtrAt(l: seq<nat>, i: nat): Ptr {
    if i < |l| then To(l[i]) else Null
  }

  /** The call is past the store that makes its item part of a queue. */
  predicate Stored(pc: Pc) {
    !(pc.AddLock? || pc.AddClear? || pc.AddStore? || Creates(pc))
  }

  predicate Creates(pc: Pc) {
    pc.Creator? || pc.WantCreate? || pc.Creating? || HasQueue(pc)
  }

  /** The call has linked its queue. */
  predicate HasQueue(pc: Pc) {
    pc.Linked? || pc.Late? || pc.Created?
  }

  /** Following next pointers from `stqh_first` visits the items of the list, each once, and ends. */
  predicate ChainOk(u: Queue, q: nat, items: seq<Item>, threads: seq<Pc>)
    requires |items| == |threads|
  {
    && u.first == PtrAt(u.list, 0)
    && (forall i :: 0 <= i < |u.list| ==> LinkOk(u.list, q, items, threads, i))
    && Distinct(u.list)
  }

  predicate LinkOk(l: seq<nat>, q: nat, items: seq<Item>, threads: seq<Pc>, i: nat)
    requires |items| == |threads| && i < |l|
  {
    l[i] < |items| && items[l[i]] == Item(PtrAt(l, i + 1), q) && Stored(threads[l[i]])
  }

  predicate LastOk(u: Queue) {
    u.last == if u.list == [] then OfHead else OfItem(u.list[|u.list| - 1])
  }

  predicate QueueOk(u: Queue, q: nat, items: seq<Item>, threads: seq<Pc>)
    requires |items| == |threads|
  {
    ChainOk(u, q, items, threads) && (!u.locked ==> LastOk(u)) && u.stored == u.gone + u.list
  }

  /** What thread `t` knows about its item and, inside a section, about the queue. */
  predicate PcOk(order: seq<nat>, queues: seq<Queue>, item: Item, t: nat, pc: Pc) {
    && (pc.AddLock? || pc.AddClear? || pc.AddStore? ==> item.home == pc.q)
    && (pc.AddStore? ==> item.next.Null?)
    && (InScan(pc) ==> pc.at < |order| && order[pc.at] == pc.q)
    && (Inside(pc) ==> pc.q < |queues| && SectionOk(queues[pc.q], t, pc))
    && (Creates(pc) && !pc.Created? ==> t < |queues| && queues[t].list == [])
    && !pc.Nothing?
  }

  predicate SectionOk(u: Queue, t: nat, pc: Pc) {
    match pc
    case AddTail(_) => u.list != [] && u.list[|u.list| - 1] == t
    case Take(_, _) => LastOk(u) && u.list != []
    case Remove(_, _, x) => LastOk(u) && u.list != [] && u.list[0] == x
    case Write(_, _, x, rest) => LastOk(u) && u.list != [] && u.list[0] == x && rest == PtrAt(u.list, 1)
    case Tail(_, _, _) => u.list == []
    case Fail(_, _) => false
    case Crashed(_, _) => false
    case _ => LastOk(u)
  }

  predicate Distinct(order: seq<nat>) {
    forall p, r :: 0 <= p < r < |order| ==> order[p] != order[r]
  }

  /** The scan order has exactly the linked queues, each once. */
  predicate OrderOk(order: seq<nat>, threads: seq<Pc>) {
    && (forall p :: 0 <= p < |order| ==> order[p] < |threads| && HasQueue(threads[order[p]]))
    && Distinct(order)
    && (forall t :: 0 <= t < |threads| && HasQueue(threads[t]) ==> t in order)
  }

  predicate QueueAtOk(s: Mem, q: nat)
    requires Shaped(s) && q < |s.queues|
  {
    QueueOk(s.queues[q], q, s.items, s.threads)
  }

  predicate ThreadOk(s: Mem, t: nat)
    requires Shaped(s) && t < |s.threads|
  {
    PcOk(s.order, s.queues, s.items[t], t, s.threads[t])
  }

  predicate MemoryOk(s: Mem)
    requires Shaped(s)
  {
    && OrderOk(s.order, s.threads)
    && (forall q :: 0 <= q < |s.queues| ==> QueueAtOk(s, q))
    && (forall t :: 0 <= t < |s.threads| ==> ThreadOk(s, t))
  }

  // The abstraction

  function AbsThread(pc: Pc): WP.Thread {
    match pc
    case WantCreate => WP.WantCreate
    case Creating => WP.Creating
    case Linked => WP.Linked
    case Late => WP.Done
    case Created => WP.Done
    case AddTail(_) => WP.Submitting
    case AddUnlock(_) => WP.Submitting
    case Submitting => WP.Submitting
    case Ready => WP.Ready
    case Scanning(p) => WP.Scanning(p)
    case Test(p, _) => WP.Scanning(p)
    case Take(p, _) => WP.Scanning(p)
    case Remove(p, _, _) => WP.Scanning(p)
    case Write(p, _, _, _) => WP.Scanning(p)
    case Skip(p, _) => WP.Scanning(p + 1)
    case Tail(_, _, x) => WP.Took(x)
    case Leave(_, _, x) => WP.Took(x)
    case Took(x) => WP.Took(x)
    case Running(x) => WP.Running(x)
    case Done(_) => WP.Done
    case Fail(_, _) => WP.EmptyHanded
    case Crashed(_, _) => WP.EmptyHanded
    case Nothing => WP.EmptyHanded
    case EmptyHanded => WP.EmptyHanded
    case _ => WP.Caller
  }

  function AbsThreads(threads: seq<Pc>): (r: seq<WP.Thread>)
    ensures |r| == |threads|
    ensures forall t :: 0 <= t < |r| ==> r[t] == AbsThread(threads[t])
  {
    seq(|threads|, t requires 0 <= t < |threads| => AbsThread(threads[t]))
  }

  predicate Names(order: seq<nat>, n: nat) {
    forall p :: 0 <= p < |order| ==> order[p] < n
  }

  function AbsLists(order: seq<nat>, queues: seq<Queue>): (r: seq<seq<nat>>)
    requires Names(order, |queues|)
    ensures |r| == |order|
    ensures forall p :: 0 <= p < |r| ==> r[p] == queues[order[p]].list
  {
    seq(|order|, p requires 0 <= p < |order| => queues[order[p]].list)
  }

  function Abs(s: Mem): WP.Win
    requires Shaped(s)
  {
    WP.Win(AbsLists(s.order, s.queues), s.lock, AbsThreads(s.threads))
  }

  ghost predicate Inv(s: Mem) {
    Shaped(s) && Guarded(s) && MemoryOk(s) && WP.Inv(Abs(s))
  }

  // Exclusion

  /** Nobody else is inside the sections of the queue that thread `t` is at. */
  lemma Alone(s: Mem, t: nat, at: nat, u: nat)
    requires Enabled(s, Act(t, at)) && !Tramples(s, Act(t, at)) && Guarded(s)
    requires u < |s.threads| && u != t && Inside(s.threads[u])
    ensures QueueAt(s, t) != To(s.threads[u].q)
  {
    var q := s.threads[u].q;
    assert PcIn(s.threads, s.threads[u]) && PcIn(s.threads, s.threads[t]);
    assert GuardedAt(s, q);
    SumAtLeast(InW(q), s.threads, u);
    SumAtLeastTwo(InW(q), s.threads, if t < u then t else u, if t < u then u else t);
  }

  /** While a queue is being linked nobody scans. */
  lemma NobodyScans(s: Mem, t: nat, u: nat)
    requires Shaped(s) && RwLock.Inv(WP.LockView(Abs(s)))
    requires t < |s.threads| && u < |s.threads| && s.threads[t].Creating? && ThreadOk(s, u)
    ensures !InScan(s.threads[u]) && !s.threads[u].Scanning? && !s.threads[u].Took?
  {
    WP.LinkingIsAlone(Abs(s), t, u);
    assert Abs(s).threads[t] == WP.Creating && Abs(s).threads[u] == AbsThread(s.threads[u]);
  }

  // Every access keeps the memory in order

  /** A thread at its queue, with what it knows. */
  predicate Informed(s: Mem, t: nat)
    requires Shaped(s) && t < |s.threads|
  {
    PcIn(s.threads, s.threads[t]) && ThreadOk(s, t) && (QueueAt(s, t).To? ==> QueueAtOk(s, QueueAt(s, t).item))
  }

  lemma ScanSection(u: Queue, t: nat, pc: Pc, next: Ptr)
    requires InScan(pc) && SectionOk(u, t, pc) && u.first == PtrAt(u.list, 0)
    requires u.list != [] ==> next == PtrAt(u.list, 1)
    ensures var n := ScanPc(pc, u, next);
      !n.Nothing? && !InAdd(n) && !n.AddLock? &&
      (InScan(n) ==> n.at == pc.at && n.q == pc.q && SectionOk(NextQueue(pc, t, u), t, n))
  {
  }

  lemma AddSection(u: Queue, t: nat, pc: Pc)
    requires InAdd(pc) && SectionOk(u, t, pc)
    ensures var n := AddPc(pc); InAdd(n) ==> n.q == pc.q && SectionOk(NextQueue(pc, t, u), t, n)
  {
  }

  predicate OwnOk(s: Mem, t: nat, at: nat)
    requires Shaped(s) && t < |s.threads|
  {
    PcOk(NextOrder(s, t, at), NextQueues(s, t), NextItems(s, t)[t], t, NextPc(s, t))
  }

  lemma OwnScanOk(s: Mem, t: nat, at: nat)
    requires Shaped(s) && t < |s.threads| && Informed(s, t) && InScan(s.threads[t])
    ensures OwnOk(s, t, at)
  {
    var pc := s.threads[t];
    var u := s.queues[pc.q];
    assert u.list != [] ==> LinkOk(u.list, pc.q, s.items, s.threads, 0);
    ScanSection(u, t, pc, NextOfFirst(s, pc.q));
  }

  lemma OwnAddOk(s: Mem, t: nat, at: nat)
    requires Shaped(s) && t < |s.threads| && Informed(s, t) && InAdd(s.threads[t])
    ensures OwnOk(s, t, at)
  {
    var pc := s.threads[t];
    AddSection(s.queues[pc.q], t, pc);
  }

  /** A thread that locks a queue finds its list in order. */
  lemma OwnEnterOk(s: Mem, t: nat, at: nat)
    requires Enabled(s, Act(t, at)) && Informed(s, t) && (s.threads[t].AddLock? || s.threads[t].Scanning?)
    ensures OwnOk(s, t, at)
  {
  }

  lemma OwnOuterOk(s: Mem, t: nat, at: nat)
    requires Shaped(s) && t < |s.threads| && Informed(s, t)
    requires !Inside(s.threads[t]) && !s.threads[t].AddLock? && !s.threads[t].Scanning?
    ensures OwnOk(s, t, at)
  {
  }

  /** A thread that does not act. */
  lemma OtherOk(s: Mem, t: nat, at: nat, u: nat)
    requires Enabled(s, Act(t, at)) && u < |s.threads| && u != t && ThreadOk(s, u) && Informed(s, t)
    requires Inside(s.threads[u]) ==> QueueAt(s, t) != To(s.threads[u].q)
    requires s.threads[t].Creating? ==> !InScan(s.threads[u])
    ensures PcOk(NextOrder(s, t, at), NextQueues(s, t), NextItems(s, t)[u], u, s.threads[u])
  {
    if s.threads[t].AddStore? {
      var r := s.queues[s.threads[t].q];
      assert r.list != [] ==> LinkOk(r.list, s.threads[t].q, s.items, s.threads, |r.list| - 1);
    }
  }

  // The lists

  lemma StoredStays(s: Mem, t: nat)
    requires Shaped(s) && t < |s.threads| && Stored(s.threads[t])
    ensures Stored(NextPc(s, t))
  {
  }

  /** A list depends only on its own items. */
  lemma ChainFrame(u: Queue, q: nat, items: seq<Item>, threads: seq<Pc>, newItems: seq<Item>, newThreads: seq<Pc>)
    requires |items| == |threads| <= |newItems| == |newThreads| && ChainOk(u, q, items, threads)
    requires forall x :: 0 <= x < |items| && Stored(threads[x]) && items[x].home == q ==>
      newItems[x] == items[x] && Stored(newThreads[x])
    ensures ChainOk(u, q, newItems, newThreads)
  {
    forall i | 0 <= i < |u.list| ensures LinkOk(u.list, q, newItems, newThreads, i) {
      assert LinkOk(u.list, q, items, threads, i);
    }
  }

  /** The items after the store through `last`. */
  function StoreNext(items: seq<Item>, last: Slot, t: nat): (r: seq<Item>)
    ensures |r| == |items|
  {
    if last.OfItem? && last.item < |items| then items[last.item := items[last.item].(next := To(t))] else items
  }

  /** STAILQ_INSERT_TAIL: the store through `stqh_last` appends the item. */
  lemma ChainAppend(u: Queue, q: nat, items: seq<Item>, threads: seq<Pc>, t: nat)
    requires |items| == |threads| && ChainOk(u, q, items, threads) && LastOk(u)
    requires t < |items| && items[t] == Item(Null, q) && threads[t] == AddStore(q)
    ensures ChainOk(NextQueue(AddStore(q), t, u), q, StoreNext(items, u.last, t), threads[t := AddTail(q)])
  {
    var n, newItems, newThreads := NextQueue(AddStore(q), t, u), StoreNext(items, u.last, t), threads[t := AddTail(q)];
    forall i | 0 <= i < |u.list| ensures u.list[i] != t && LinkOk(n.list, q, newItems, newThreads, i) {
      LinkAppend(u, q, items, threads, t, i);
    }
  }

  lemma LinkAppend(u: Queue, q: nat, items: seq<Item>, threads: seq<Pc>, t: nat, i: nat)
    requires |items| == |threads| && ChainOk(u, q, items, threads) && LastOk(u) && i < |u.list|
    requires t < |items| && threads[t] == AddStore(q)
    ensures u.list[i] != t && LinkOk(u.list + [t], q, StoreNext(items, u.last, t), threads[t := AddTail(q)], i)
  {
    assert LinkOk(u.list, q, items, threads, i);
  }

  /** STAILQ_REMOVE_HEAD. */
  lemma ChainPop(u: Queue, q: nat, items: seq<Item>, threads: seq<Pc>, pc: Pc, t: nat)
    requires |items| == |threads| && ChainOk(u, q, items, threads)
    requires pc.Write? && SectionOk(u, t, pc)
    ensures ChainOk(NextQueue(pc, t, u), q, items, threads)
  {
    var n := NextQueue(pc, t, u);
    forall i | 0 <= i < |n.list| ensures LinkOk(n.list, q, items, threads, i) {
      assert LinkOk(u.list, q, items, threads, i + 1);
    }
  }

  predicate QueueAfterOk(s: Mem, t: nat, q: nat)
    requires Shaped(s) && t < |s.threads| && q < |s.queues|
  {
    QueueOk(NextQueues(s, t)[q], q, NextItems(s, t), s.threads[t := NextPc(s, t)])
  }

  /** The items of queue `q` stay as they are unless the step stores into that queue. */
  lemma ItemsStay(s: Mem, t: nat, q: nat, x: nat)
    requires Shaped(s) && t < |s.threads| && Informed(s, t) && x < |s.items|
    requires !(s.threads[t].AddStore? && s.threads[t].q == q)
    requires Stored(s.threads[x]) && s.items[x].home == q
    ensures NextItems(s, t)[x] == s.items[x] && Stored(s.threads[t := NextPc(s, t)][x])
  {
    if x == t {
      StoredStays(s, t);
    }
    if s.threads[t].AddStore? {
      var r := s.queues[s.threads[t].q];
      assert r.list != [] ==> LinkOk(r.list, s.threads[t].q, s.items, s.threads, |r.list| - 1);
    }
  }

  lemma ChainStays(s: Mem, t: nat, q: nat, u: Queue)
    requires Shaped(s) && t < |s.threads| && Informed(s, t) && q < |s.queues|
    requires !(s.threads[t].AddStore? && s.threads[t].q == q)
    requires ChainOk(u, q, s.items, s.threads)
    ensures ChainOk(u, q, NextItems(s, t), s.threads[t := NextPc(s, t)])
  {
    forall x | 0 <= x < |s.items| && Stored(s.threads[x]) && s.items[x].home == q
      ensures NextItems(s, t)[x] == s.items[x] && Stored(s.threads[t := NextPc(s, t)][x])
    {
      ItemsStay(s, t, q, x);
    }
    ChainFrame(u, q, s.items, s.threads, NextItems(s, t), s.threads[t := NextPc(s, t)]);
  }

  /** What one access does to the queue, the store of an insertion aside. */
  lemma QueueMove(u: Queue, q: nat, items: seq<Item>, threads: seq<Pc>, pc: Pc, t: nat)
    requires |items| == |threads| && QueueOk(u, q, items, threads) && !pc.AddStore?
    requires Inside(pc) ==> u.locked && SectionOk(u, t, pc)
    requires pc.Late? ==> !u.locked
    ensures QueueOk(NextQueue(pc, t, u), q, items, threads)
  {
    if pc.Write? {
      ChainPop(u, q, items, threads, pc, t);
      assert u.gone + u.list == u.gone + [u.list[0]] + u.list[1..];
    }
  }

  lemma OwnQueueAfter(s: Mem, t: nat, q: nat)
    requires Shaped(s) && t < |s.threads| && Informed(s, t) && QueueAt(s, t) == To(q)
    requires s.queues[q].locked <==> Inside(s.threads[t])
    ensures QueueAfterOk(s, t, q)
  {
    var pc := s.threads[t];
    if pc.AddStore? {
      ChainAppend(s.queues[q], q, s.items, s.threads, t);
      assert s.queues[q].gone + s.queues[q].list + [t] == s.queues[q].gone + (s.queues[q].list + [t]);
    } else {
      QueueMove(s.queues[q], q, s.items, s.threads, pc, t);
      ChainStays(s, t, q, NextQueue(pc, t, s.queues[q]));
    }
  }

  lemma OtherQueueAfter(s: Mem, t: nat, q: nat)
    requires Shaped(s) && t < |s.threads| && Informed(s, t) && QueueAt(s, t) != To(q)
    requires q < |s.queues| && QueueAtOk(s, q)
    ensures QueueAfterOk(s, t, q)
  {
    ChainStays(s, t, q, s.queues[q]);
  }

  // Together

  /** The lock word, as the thread at the queue finds it. */
  lemma LockTold(s: Mem, t: nat, at: nat, q: nat)
    requires Enabled(s, Act(t, at)) && !Tramples(s, Act(t, at)) && QueueAt(s, t) == To(q)
    requires q < |s.queues| && GuardedAt(s, q)
    ensures s.queues[q].locked <==> Inside(s.threads[t])
  {
    SumAtLeast(InW(q), s.threads, t);
  }

  lemma IsInformed(s: Mem, t: nat)
    requires Shaped(s) && t < |s.threads| && MemoryOk(s)
    ensures Informed(s, t)
  {
    assert PcIn(s.threads, s.threads[t]) && ThreadOk(s, t);
    if QueueAt(s, t).To? {
      assert QueueAtOk(s, QueueAt(s, t).item);
    }
  }

  lemma QueueAfter(s: Mem, t: nat, at: nat, q: nat)
    requires Enabled(s, Act(t, at)) && !Tramples(s, Act(t, at)) && Guarded(s) && Informed(s, t)
    requires q < |s.queues| && QueueAtOk(s, q)
    ensures QueueAfterOk(s, t, q)
  {
    if QueueAt(s, t) == To(q) {
      assert GuardedAt(s, q);
      LockTold(s, t, at, q);
      OwnQueueAfter(s, t, q);
    } else {
      OtherQueueAfter(s, t, q);
    }
  }

  predicate ThreadAfterOk(s: Mem, t: nat, at: nat, u: nat)
    requires Shaped(s) && t < |s.threads| && u < |s.threads|
  {
    PcOk(NextOrder(s, t, at), NextQueues(s, t), NextItems(s, t)[u], u, if u == t then NextPc(s, t) else s.threads[u])
  }

  lemma ThreadAfter(s: Mem, t: nat, at: nat, u: nat)
    requires Enabled(s, Act(t, at)) && !Tramples(s, Act(t, at)) && Guarded(s) && Informed(s, t)
    requires RwLock.Inv(WP.LockView(Abs(s))) && u < |s.threads| && ThreadOk(s, u)
    ensures ThreadAfterOk(s, t, at, u)
  {
    if u != t {
      if Inside(s.threads[u]) {
        Alone(s, t, at, u);
      }
      if s.threads[t].Creating? {
        NobodyScans(s, t, u);
      }
      OtherOk(s, t, at, u);
    } else if InScan(s.threads[t]) {
      OwnScanOk(s, t, at);
    } else if InAdd(s.threads[t]) {
      OwnAddOk(s, t, at);
    } else if s.threads[t].AddLock? || s.threads[t].Scanning? {
      OwnEnterOk(s, t, at);
    } else {
      OwnOuterOk(s, t, at);
    }
  }

  lemma OrderAfter(s: Mem, t: nat, at: nat)
    requires Enabled(s, Act(t, at)) && OrderOk(s.order, s.threads)
    ensures OrderOk(NextOrder(s, t, at), s.threads[t := NextPc(s, t)])
  {
    if s.threads[t].Creating? {
      Linking(s.order, s.threads, t, at);
    }
  }

  lemma LinkingDistinct(order: seq<nat>, t: nat, at: nat)
    requires Distinct(order) && t !in order && at <= |order|
    ensures Distinct(order[..at] + [t] + order[at..])
  {
  }

  lemma Linking(order: seq<nat>, threads: seq<Pc>, t: nat, at: nat)
    requires OrderOk(order, threads) && t < |threads| && threads[t].Creating? && at <= |order|
    ensures OrderOk(order[..at] + [t] + order[at..], threads[t := Linked])
  {
    LinkingDistinct(order, t, at);
    var n := order[..at] + [t] + order[at..];
    forall u | 0 <= u < |threads| && HasQueue(threads[t := Linked][u]) ensures u in n {
      assert u == t || u in order;
      assert order == order[..at] + order[at..];
    }
  }

  lemma MemoryAct(s: Mem, t: nat, at: nat)
    requires Enabled(s, Act(t, at)) && !Tramples(s, Act(t, at)) && Inv(s)
    ensures Shaped(Step(s, Act(t, at))) && MemoryOk(Step(s, Act(t, at)))
  {
    var n := Step(s, Act(t, at));
    ShapeStep(s, Act(t, at));
    IsInformed(s, t);
    OrderAfter(s, t, at);
    forall u | 0 <= u < |n.threads| ensures ThreadOk(n, u) {
      assert ThreadOk(s, u);
      ThreadAfter(s, t, at, u);
    }
    forall q | 0 <= q < |n.queues| ensures QueueAtOk(n, q) {
      assert QueueAtOk(s, q);
      QueueAfter(s, t, at, q);
    }
  }

  lemma MemoryCall(s: Mem, l: Label)
    requires Enabled(s, l) && !l.Act? && MemoryOk(s)
    ensures Shaped(Step(s, l)) && MemoryOk(Step(s, l))
  {
    var n := Step(s, l);
    ShapeStep(s, l);
    forall u | 0 <= u < |n.threads| ensures ThreadOk(n, u) {
      assert u < |s.threads| ==> ThreadOk(s, u);
    }
    forall q | 0 <= q < |n.queues| ensures QueueAtOk(n, q) {
      if q < |s.queues| {
        assert QueueAtOk(s, q);
        ChainFrame(s.queues[q], q, s.items, s.threads, n.items, n.threads);
      }
    }
  }

  // The refinement

  /** The step of the pool with atomic sections. */
  predicate Simulates(a: WP.Win, b: WP.Win, l: WP.Label) {
    WP.Enabled(a, l) && b == WP.Step(a, l)
  }

  lemma AbsUpdate(threads: seq<Pc>, t: nat, pc: Pc)
    requires t < |threads|
    ensures AbsThreads(threads[t := pc]) == AbsThreads(threads)[t := AbsThread(pc)]
  {
  }

  lemma ListsUpdate(order: seq<nat>, queues: seq<Queue>, p: nat, u: Queue)
    requires Names(order, |queues|) && p < |order|
    requires Distinct(order)
    ensures AbsLists(order, queues[order[p] := u]) == AbsLists(order, queues)[p := u.list]
  {
  }

  lemma ListsStay(order: seq<nat>, queues: seq<Queue>, q: nat, u: Queue)
    requires Names(order, |queues|) && q < |queues| && u.list == queues[q].list
    ensures AbsLists(order, queues[q := u]) == AbsLists(order, queues)
  {
  }

  lemma ListsLink(order: seq<nat>, queues: seq<Queue>, t: nat, at: nat)
    requires Names(order, |queues|) && t < |queues| && queues[t].list == [] && at <= |order|
    ensures Names(order[..at] + [t] + order[at..], |queues|)
    ensures AbsLists(order[..at] + [t] + order[at..], queues)
      == AbsLists(order, queues)[..at] + [[]] + AbsLists(order, queues)[at..]
  {
  }

  /** The access changes the contents of the queues. */
  predicate Shows(s: Mem, t: nat)
    requires t < |s.threads|
  {
    s.threads[t].Creating? || s.threads[t].AddStore? || s.threads[t].Write?
  }

  /** The other accesses leave the contents alone. */
  lemma QuietLists(s: Mem, t: nat, at: nat)
    requires Shaped(s) && t < |s.threads| && PcIn(s.threads, s.threads[t]) && !Shows(s, t)
    ensures NextOrder(s, t, at) == s.order && AbsLists(s.order, NextQueues(s, t)) == AbsLists(s.order, s.queues)
  {
    var p := QueueAt(s, t);
    if p.To? {
      ListsStay(s.order, s.queues, p.item, NextQueue(s.threads[t], t, s.queues[p.item]));
    }
  }

  /** The step of the pool with atomic sections that an access stands for, when it changes the lock
      or the thread. */
  function QuietLabel(pc: Pc, t: nat): WP.Label
    requires Quiet(pc)
  {
    match pc
    case Creator => WP.WriteLock(t)
    case WantCreate => WP.WriteLock(t)
    case Linked => WP.WriteUnlock(t)
    case Submitting => WP.Submit(t)
    case Ready => WP.ReadLock(t)
    case Running(_) => WP.Finish(t)
    case _ => WP.ReadUnlock(t)
  }

  predicate Quiet(pc: Pc) {
    pc.Creator? || pc.WantCreate? || pc.Linked? || pc.Submitting? || pc.Ready? || pc.Running? || pc.Took?
  }

  /** A creator at the write lock. */
  lemma RefineWriter(s: Mem, t: nat, at: nat)
    requires Enabled(s, Act(t, at)) && Shaped(Step(s, Act(t, at)))
    requires s.threads[t].Creator? || s.threads[t].WantCreate? || s.threads[t].Linked?
    ensures Simulates(Abs(s), Abs(Step(s, Act(t, at))), QuietLabel(s.threads[t], t))
  {
    assert PcIn(s.threads, s.threads[t]);
    QuietLists(s, t, at);
    AbsUpdate(s.threads, t, NextPc(s, t));
  }

  /** A callback at the read lock, before it or after it. */
  lemma RefineReader(s: Mem, t: nat, at: nat)
    requires Enabled(s, Act(t, at)) && Shaped(Step(s, Act(t, at)))
    requires !(s.threads[t].Creator? || s.threads[t].WantCreate? || s.threads[t].Linked?)
    requires Quiet(s.threads[t]) || (s.threads[t].Scanning? && s.threads[t].at >= |s.order|)
    ensures Simulates(Abs(s), Abs(Step(s, Act(t, at))),
      if Quiet(s.threads[t]) then QuietLabel(s.threads[t], t) else WP.ReadUnlock(t))
  {
    assert PcIn(s.threads, s.threads[t]);
    QuietLists(s, t, at);
    AbsUpdate(s.threads, t, NextPc(s, t));
  }

  lemma RefineLink(s: Mem, t: nat, at: nat)
    requires Enabled(s, Act(t, at)) && Shaped(Step(s, Act(t, at))) && Informed(s, t)
    requires s.threads[t].Creating?
    ensures Simulates(Abs(s), Abs(Step(s, Act(t, at))), WP.Link(t, at))
  {
    ListsLink(s.order, s.queues, t, at);
    AbsUpdate(s.threads, t, Linked);
  }

  lemma RefineStore(s: Mem, t: nat, at: nat, p: nat)
    requires Enabled(s, Act(t, at)) && Shaped(Step(s, Act(t, at))) && ThreadOk(s, t) && Distinct(s.order)
    requires s.threads[t].AddStore? && p < |s.order| && s.order[p] == s.threads[t].q
    ensures Simulates(Abs(s), Abs(Step(s, Act(t, at))), WP.Insert(t, p, t))
  {
    ListsUpdate(s.order, s.queues, p, NextQueue(s.threads[t], t, s.queues[s.threads[t].q]));
    AbsUpdate(s.threads, t, NextPc(s, t));
  }

  /** The store of the removal. */
  lemma RefineRemove(s: Mem, t: nat, at: nat)
    requires Enabled(s, Act(t, at)) && Shaped(Step(s, Act(t, at))) && ThreadOk(s, t) && Distinct(s.order)
    requires s.threads[t].Write?
    ensures Simulates(Abs(s), Abs(Step(s, Act(t, at))), WP.Visit(t))
  {
    var pc := s.threads[t];
    var u := NextQueue(pc, t, s.queues[pc.q]);
    ListsUpdate(s.order, s.queues, pc.at, u);
    AbsUpdate(s.threads, t, NextPc(s, t));
    TakesHead(Abs(s), t, Abs(Step(s, Act(t, at))));
  }

  lemma TakesHead(a: WP.Win, t: nat, b: WP.Win)
    requires t < |a.threads| && a.threads[t].Scanning? && a.threads[t].at < |a.lists|
    requires var p := a.threads[t].at;
      && a.lists[p] != [] && b.lists == a.lists[p := a.lists[p][1..]] && b.lock == a.lock
      && b.threads == a.threads[t := WP.Took(a.lists[p][0])]
    ensures Simulates(a, b, WP.Visit(t))
  {
  }

  /** The test that finds nothing. */
  lemma RefineSkip(s: Mem, t: nat, at: nat)
    requires Enabled(s, Act(t, at)) && Shaped(Step(s, Act(t, at))) && ThreadOk(s, t)
    requires s.threads[t].Test? && s.queues[s.threads[t].q].first.Null? && s.queues[s.threads[t].q].list == []
    ensures Simulates(Abs(s), Abs(Step(s, Act(t, at))), WP.Visit(t))
  {
    QuietLists(s, t, at);
    AbsUpdate(s.threads, t, NextPc(s, t));
    LeavesEmpty(Abs(s), t, Abs(Step(s, Act(t, at))));
  }

  lemma LeavesEmpty(a: WP.Win, t: nat, b: WP.Win)
    requires t < |a.threads| && a.threads[t].Scanning? && a.threads[t].at < |a.lists|
    requires var p := a.threads[t].at;
      a.lists[p] == [] && b.lists == a.lists && b.lock == a.lock && b.threads == a.threads[t := WP.Scanning(p + 1)]
    ensures Simulates(a, b, WP.Visit(t))
  {
  }

  /** All other accesses inside and around a section change nothing that shows. */
  lemma RefineSilent(s: Mem, t: nat, at: nat)
    requires Enabled(s, Act(t, at)) && Shaped(Step(s, Act(t, at))) && Informed(s, t)
    requires !Shows(s, t) && !Quiet(s.threads[t]) && !(s.threads[t].Scanning? && s.threads[t].at >= |s.order|)
    requires !(s.threads[t].Test? && s.queues[s.threads[t].q].first.Null?)
    ensures Abs(Step(s, Act(t, at))) == Abs(s)
  {
    QuietLists(s, t, at);
    AbsUpdate(s.threads, t, NextPc(s, t));
    SilentPc(s, t, at);
  }

  lemma SilentScan(u: Queue, t: nat, pc: Pc, next: Ptr)
    requires InScan(pc) && SectionOk(u, t, pc) && u.first == PtrAt(u.list, 0)
    requires !pc.Write? && !(pc.Test? && u.first.Null?)
    ensures AbsThread(ScanPc(pc, u, next)) == AbsThread(pc)
  {
  }

  lemma SilentPc(s: Mem, t: nat, at: nat)
    requires Enabled(s, Act(t, at)) && Informed(s, t)
    requires !Shows(s, t) && !Quiet(s.threads[t]) && !(s.threads[t].Scanning? && s.threads[t].at >= |s.order|)
    requires !(s.threads[t].Test? && s.queues[s.threads[t].q].first.Null?)
    ensures AbsThread(NextPc(s, t)) == AbsThread(s.threads[t])
    ensures NextLock(s, t).0 == s.lock
  {
    var pc := s.threads[t];
    if InScan(pc) {
      SilentScan(s.queues[pc.q], t, pc, NextOfFirst(s, pc.q));
    }
  }

  lemma RefineCall(s: Mem, l: Label)
    requires Enabled(s, l) && !l.Act? && Shaped(Step(s, l))
    ensures Simulates(Abs(s), Abs(Step(s, l)), WP.Arrive)
  {
    assert Abs(Step(s, l)).lists == Abs(s).lists;
    assert Abs(Step(s, l)).threads == Abs(s).threads + [WP.Caller];
  }

  /** Every access is a step of the pool with atomic sections, or does not show there. */
  lemma RefineAct(s: Mem, t: nat, at: nat) returns (m: WP.Label)
    requires Enabled(s, Act(t, at)) && Shaped(Step(s, Act(t, at))) && Informed(s, t) && OrderOk(s.order, s.threads)
    ensures Abs(Step(s, Act(t, at))) == Abs(s) || Simulates(Abs(s), Abs(Step(s, Act(t, at))), m)
  {
    var pc := s.threads[t];
    m := WP.Visit(t);
    if Quiet(pc) || (pc.Scanning? && pc.at >= |s.order|) {
      m := if Quiet(pc) then QuietLabel(pc, t) else WP.ReadUnlock(t);
      if pc.Creator? || pc.WantCreate? || pc.Linked? {
        RefineWriter(s, t, at);
      } else {
        RefineReader(s, t, at);
      }
    } else if pc.Creating? {
      m := WP.Link(t, at);
      RefineLink(s, t, at);
    } else if pc.AddStore? {
      var p :| 0 <= p < |s.order| && s.order[p] == pc.q;
      m := WP.Insert(t, p, t);
      RefineStore(s, t, at, p);
    } else if pc.Write? {
      RefineRemove(s, t, at);
    } else if pc.Test? && s.queues[pc.q].first.Null? {
      RefineSkip(s, t, at);
    } else {
      RefineSilent(s, t, at);
    }
  }

  lemma Refines(s: Mem, l: Label) returns (m: WP.Label)
    requires Enabled(s, l) && MemoryOk(s)
    ensures Shaped(Step(s, l))
    ensures Abs(Step(s, l)) == Abs(s) || Simulates(Abs(s), Abs(Step(s, l)), m)
  {
    ShapeStep(s, l);
    if l.Act? {
      IsInformed(s, l.t);
      m := RefineAct(s, l.t, l.at);
    } else {
      m := WP.Arrive;
      RefineCall(s, l);
    }
  }

  lemma InvStep(s: Mem, l: Label)
    requires Enabled(s, l) && Inv(s) && !Tramples(s, l)
    ensures Inv(Step(s, l))
  {
    GuardStep(s, l);
    if l.Act? {
      MemoryAct(s, l.t, l.at);
    } else {
      MemoryCall(s, l);
    }
    var m := Refines(s, l);
    if Abs(Step(s, l)) != Abs(s) {
      WP.InvStep(Abs(s), m);
    }
  }

  lemma StartInv()
    ensures Inv(START)
  {
    assert Abs(START) == WP.Win([], RwLock.FREE, []);
  }

  /** Every state of a run is in order while the late initialisations find their locks free. */
  lemma {:induction false} Reachable(run: seq<Mem>, labels: seq<Label>, i: nat)
    requires IsRun(run, labels) && i < |run| && Clean(run, labels, i)
    ensures Inv(run[i])
  {
    if i == 0 {
      StartInv();
    } else {
      Reachable(run, labels, i - 1);
      assert StepAt(run, labels, i - 1);
      InvStep(run[i - 1], labels[i - 1]);
    }
  }

  /** While the late initialisations find their locks free: no callback comes back without an item,
      none follows a null pointer, a scanning callback has an item ahead of it, and the callbacks and
      the producers between store and submission are exactly as many as the queued items. */
  lemma NoCallbackReturnsEmptyHanded(run: seq<Mem>, labels: seq<Label>, i: nat, t: nat)
    requires IsRun(run, labels) && i < |run| && Clean(run, labels, i) && t < |run[i].threads|
    ensures var pc := run[i].threads[t]; !pc.EmptyHanded? && !pc.Nothing? && !pc.Fail? && !pc.Crashed?
    ensures Shaped(run[i])
    ensures var th := AbsThread(run[i].threads[t]);
      th.Scanning? ==> th.at < |run[i].order| && 1 <= WP.ItemsFrom(Abs(run[i]), th.at)
    ensures WP.Callbacks(Abs(run[i]), 0) + Sum(WP.SubmittingW, Abs(run[i]).threads) == WP.ItemsFrom(Abs(run[i]), 0)
  {
    ServedAt(run, labels, i, t);
  }

  predicate Served(s: Mem, t: nat)
    requires t < |s.threads|
  {
    var pc, th := s.threads[t], AbsThread(s.threads[t]);
    && Shaped(s)
    && !pc.Nothing? && !pc.Fail? && !pc.Crashed? && !pc.EmptyHanded?
    && (th.Scanning? ==> th.at < |s.order| && 1 <= WP.ItemsFrom(Abs(s), th.at))
    && WP.Callbacks(Abs(s), 0) + Sum(WP.SubmittingW, Abs(s).threads) == WP.ItemsFrom(Abs(s), 0)
  }

  lemma ServedAt(run: seq<Mem>, labels: seq<Label>, i: nat, t: nat)
    requires IsRun(run, labels) && i < |run| && Clean(run, labels, i) && t < |run[i].threads|
    ensures Served(run[i], t)
  {
    Reachable(run, labels, i);
    assert ThreadOk(run[i], t);
    InvServes(run[i], t);
  }

  lemma InvServes(s: Mem, t: nat)
    requires Shaped(s) && t < |s.threads| && ThreadOk(s, t) && WP.Inv(Abs(s))
    ensures Served(s, t)
  {
    NeverFails(s, t);
    CallbackHasWork(s, t);
  }

  lemma NeverFails(s: Mem, t: nat)
    requires Shaped(s) && t < |s.threads| && ThreadOk(s, t)
    ensures var pc := s.threads[t]; !pc.Nothing? && !pc.Fail? && !pc.Crashed?
  {
  }

  lemma CallbackHasWork(s: Mem, t: nat)
    requires Shaped(s) && WP.Inv(Abs(s)) && t < |s.threads|
    ensures var th := AbsThread(s.threads[t]);
      !th.EmptyHanded? && (th.Scanning? ==> th.at < |s.order| && 1 <= WP.ItemsFrom(Abs(s), th.at))
  {
    assert Abs(s).threads[t] == AbsThread(s.threads[t]);
    if AbsThread(s.threads[t]).Scanning? {
      WP.WorkAhead(Abs(s), t);
    }
  }

  /** While the late initialisations find their locks free, the pointers of a queue with a free lock
      form a list of the items stored in it and not removed, each once, and the tail pointer addresses
      its end. */
  lemma PointersFormLists(run: seq<Mem>, labels: seq<Label>, i: nat, q: nat)
    requires IsRun(run, labels) && i < |run| && Clean(run, labels, i) && q < |run[i].queues|
    ensures Shaped(run[i]) && ChainOk(run[i].queues[q], q, run[i].items, run[i].threads)
    ensures !run[i].queues[q].locked ==> LastOk(run[i].queues[q])
  {
    Reachable(run, labels, i);
    assert QueueAtOk(run[i], q);
  }
}
