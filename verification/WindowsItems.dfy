/** The items of the legacy Windows pool: each goes into the queue it was added to, and while no late
    initialisation hits a held lock, each is run once, by the callback that removed it, and the items
    of one queue are removed in the order they were stored. */
module WindowsItems {
  import opened Sums
  import RwLock
  import opened WindowsMemory
  import opened WindowsRefinement

  // The queue asked for

  /** Call `x` is on its way to store its item into queue `p`. */
  function OnWay(s: Mem, x: nat, p: nat): int {
    if x < |s.threads| && AddsTo(s.threads[x], p) then 1 else 0
  }

  predicate AddsTo(pc: Pc, p: nat) {
    (pc.AddLock? || pc.AddClear? || pc.AddStore?) && pc.q == p
  }

  /** How often item `x` was or will be stored into queue `p`. */
  function Sent(s: Mem, x: nat, p: nat): int
    requires p < |s.queues|
  {
    OnWay(s, x, p) + Sum(IsW(x), s.queues[p].stored)
  }

  lemma StoreMove(s: Mem, t: nat, at: nat, p: nat)
    requires Enabled(s, Act(t, at)) && p < |s.queues|
    ensures NextQueues(s, t)[p].stored == s.queues[p].stored + if s.threads[t] == AddStore(p) then [t] else []
    ensures AddsTo(NextPc(s, t), p) <==> AddsTo(s.threads[t], p) && s.threads[t] != AddStore(p)
  {
    assert PcIn(s.threads, s.threads[t]);
    assert s.queues[p].stored + [] == s.queues[p].stored;
  }

  lemma SentAct(s: Mem, t: nat, at: nat, x: nat, p: nat)
    requires Enabled(s, Act(t, at)) && p < |s.queues|
    ensures Sent(Step(s, Act(t, at)), x, p) == Sent(s, x, p)
  {
    StoreMove(s, t, at, p);
    SumAppend(IsW(x), s.queues[p].stored, t);
    assert s.queues[p].stored + [] == s.queues[p].stored;
  }

  lemma SentCall(s: Mem, l: Label, x: nat, p: nat)
    requires Enabled(s, l) && !l.Act? && p < |s.queues|
    ensures Sent(Step(s, l), x, p) == Sent(s, x, p) + if x == |s.threads| && l.CallAdd? && l.q == p then 1 else 0
  {
  }

  lemma SentNew(s: Mem, l: Label, x: nat)
    requires Enabled(s, l) && !l.Act?
    ensures Sent(Step(s, l), x, |s.queues|) == 0
  {
    if x < |s.threads| {
      assert PcIn(s.threads, s.threads[x]);
    }
  }

  lemma SentStep(s: Mem, l: Label, x: nat, p: nat)
    requires Enabled(s, l) && p < |Step(s, l).queues|
    ensures Sent(Step(s, l), x, p) ==
      (if p < |s.queues| then Sent(s, x, p) else 0) + if x == |s.threads| && l.CallAdd? && l.q == p then 1 else 0
  {
    if l.Act? {
      SentAct(s, l.t, l.at, x, p);
    } else if p < |s.queues| {
      SentCall(s, l, x, p);
    } else {
      SentNew(s, l, x);
    }
  }

  /** An item that does not exist yet was stored nowhere. */
  lemma {:induction false} NotYetSent(run: seq<Mem>, labels: seq<Label>, i: nat, x: nat, p: nat)
    requires IsRun(run, labels) && i < |run| && |run[i].threads| <= x && p < |run[i].queues|
    ensures Sent(run[i], x, p) == 0
  {
    if i > 0 {
      assert StepAt(run, labels, i - 1);
      if p < |run[i - 1].queues| {
        NotYetSent(run, labels, i - 1, x, p);
      }
      SentStep(run[i - 1], labels[i - 1], x, p);
    }
  }

  lemma {:induction false} Arrived(run: seq<Mem>, labels: seq<Label>, i: nat, j: nat)
    requires IsRun(run, labels) && i < |labels| && labels[i].CallAdd? && i < j < |run|
    ensures |run[i].threads| < |run[j].threads| == |run[j].queues| && labels[i].q < |run[i].threads|
    decreases j
  {
    assert StepAt(run, labels, i);
    assert StepAt(run, labels, j - 1);
    if i < j - 1 {
      Arrived(run, labels, i, j - 1);
    }
  }

  /** In every run, an item added to queue `q` is on its way into that queue or was stored into it, once,
      and was stored into no other queue. */
  lemma {:induction false} StoredWhereAsked(run: seq<Mem>, labels: seq<Label>, i: nat, j: nat, p: nat)
    requires IsRun(run, labels) && i < |labels| && labels[i].CallAdd? && i < j < |run| && p < |run[j].queues|
    ensures OnWay(run[j], |run[i].threads|, p) + Sum(IsW(|run[i].threads|), run[j].queues[p].stored)
      == if p == labels[i].q then 1 else 0
    ensures |run[i].threads| < |run[j].threads|
    decreases j
  {
    var k, x := j - 1, |run[i].threads|;
    Arrived(run, labels, i, j);
    assert StepAt(run, labels, i) && StepAt(run, labels, k);
    if k == i {
      if p < |run[i].queues| {
        NotYetSent(run, labels, i, x, p);
      }
    } else {
      Arrived(run, labels, i, k);
      if p < |run[k].queues| {
        StoredWhereAsked(run, labels, i, k, p);
      }
    }
    SentStep(run[k], labels[k], x, p);
  }

  // Ownership

  /** The thread has removed item `x`. */
  predicate Has(pc: Pc, x: nat) {
    (pc.Tail? || pc.Leave? || pc.Took? || pc.Running? || pc.Done?) && pc.item == x
  }

  function HasW(x: nat): Pc -> int {
    pc => if Has(pc, x) then 1 else 0
  }

  function ListW(x: nat): Queue -> int {
    (u: Queue) => Sum(IsW(x), u.list)
  }

  /** The places of item `x`: queued, or with a callback that removed it. */
  function Places(s: Mem, x: nat): int {
    Sum(ListW(x), s.queues) + Sum(HasW(x), s.threads)
  }

  predicate OwnOk(s: Mem, x: nat) {
    Places(s, x) == if x < |s.threads| && Stored(s.threads[x]) then 1 else 0
  }

  lemma PlacesMove(s: Mem, t: nat, at: nat, x: nat)
    requires Enabled(s, Act(t, at)) && ThreadOk(s, t)
    ensures var pc := s.threads[t];
      && (Stored(NextPc(s, t)) <==> Stored(pc) || pc.AddStore?)
      && (Has(NextPc(s, t), x) <==> Has(pc, x) || (pc.Write? && pc.item == x))
  {
  }

  lemma OneListMove(pc: Pc, t: nat, u: Queue, x: nat)
    requires pc.Write? ==> u.list != [] && u.list[0] == pc.item
    ensures ListW(x)(NextQueue(pc, t, u)) == ListW(x)(u)
      + (if pc.AddStore? && t == x then 1 else 0) - (if pc.Write? && pc.item == x then 1 else 0)
  {
    if pc.AddStore? {
      SumAppend(IsW(x), u.list, t);
    } else if pc.Write? {
      SumFront(IsW(x), u.list);
    }
  }

  /** What one access does to the lists. */
  lemma ListMove(s: Mem, t: nat, at: nat, x: nat)
    requires Enabled(s, Act(t, at)) && ThreadOk(s, t)
    ensures var pc := s.threads[t];
      Sum(ListW(x), NextQueues(s, t)) == Sum(ListW(x), s.queues)
        + (if pc.AddStore? && t == x then 1 else 0) - (if pc.Write? && pc.item == x then 1 else 0)
  {
    var pc, p := s.threads[t], QueueAt(s, t);
    assert PcIn(s.threads, pc);
    if p.To? {
      OneListMove(pc, t, s.queues[p.item], x);
      SumUpdate(ListW(x), s.queues, p.item, NextQueue(pc, t, s.queues[p.item]));
    }
  }

  lemma OwnAct(s: Mem, t: nat, at: nat, x: nat)
    requires Enabled(s, Act(t, at)) && ThreadOk(s, t) && OwnOk(s, x)
    ensures OwnOk(Step(s, Act(t, at)), x)
  {
    PlacesMove(s, t, at, x);
    ListMove(s, t, at, x);
    SumUpdate(HasW(x), s.threads, t, NextPc(s, t));
  }

  lemma OwnCall(s: Mem, l: Label, x: nat)
    requires Enabled(s, l) && !l.Act? && OwnOk(s, x)
    ensures OwnOk(Step(s, l), x)
  {
    SumAppend(ListW(x), s.queues, NEW);
    SumAppend(HasW(x), s.threads, if l.CallAdd? then AddLock(l.q) else Creator);
  }

  lemma ThreadAt(run: seq<Mem>, labels: seq<Label>, i: nat, t: nat)
    requires IsRun(run, labels) && i < |run| && Clean(run, labels, i) && t < |run[i].threads|
    ensures Shaped(run[i]) && ThreadOk(run[i], t)
  {
    Reachable(run, labels, i);
  }

  /** Ownership, in every run whose late initialisations found their locks free: an item that was
      stored is queued once or was removed by one callback, and nothing else is anywhere. */
  lemma {:induction false} OwnedOnce(run: seq<Mem>, labels: seq<Label>, i: nat, x: nat)
    requires IsRun(run, labels) && i < |run| && Clean(run, labels, i)
    ensures Sum(ListW(x), run[i].queues) + Sum(HasW(x), run[i].threads)
      == if x < |run[i].threads| && Stored(run[i].threads[x]) then 1 else 0
  {
    if i > 0 {
      var k := i - 1;
      OwnedOnce(run, labels, k, x);
      assert StepAt(run, labels, k);
      if labels[k].Act? {
        ThreadAt(run, labels, k, labels[k].t);
        OwnAct(run[k], labels[k].t, labels[k].at, x);
      } else {
        OwnCall(run[k], labels[k], x);
      }
    }
  }

  // One callback runs it

  /** How far a callback is with the item it removed. */
  function Stage(pc: Pc): nat {
    if pc.Tail? then 1 else if pc.Leave? then 2 else if pc.Took? then 3
    else if pc.Running? then 4 else if pc.Done? then 5 else 0
  }

  lemma StageMove(s: Mem, l: Label, t: nat, x: nat)
    requires Enabled(s, l) && t < |s.threads| && Has(s.threads[t], x)
    ensures t < |Step(s, l).threads| && Has(Step(s, l).threads[t], x)
    ensures Stage(s.threads[t]) <= Stage(Step(s, l).threads[t]) <= Stage(s.threads[t]) + 2
    ensures Stage(s.threads[t]) < 4 ==> Stage(Step(s, l).threads[t]) <= 4
  {
  }

  /** A callback keeps the item it removed and only goes forward with it, in every run. */
  lemma {:induction false} KeepsItem(run: seq<Mem>, labels: seq<Label>, i: nat, j: nat, t: nat, x: nat)
    requires IsRun(run, labels) && i <= j < |run| && t < |run[i].threads| && Has(run[i].threads[t], x)
    ensures t < |run[j].threads| && Has(run[j].threads[t], x) && Stage(run[i].threads[t]) <= Stage(run[j].threads[t])
    decreases j
  {
    if i < j {
      KeepsItem(run, labels, i, j - 1, t, x);
      assert StepAt(run, labels, j - 1);
      StageMove(run[j - 1], labels[j - 1], t, x);
    }
  }

  lemma OneHolder(run: seq<Mem>, labels: seq<Label>, j: nat, t: nat, u: nat, x: nat)
    requires IsRun(run, labels) && j < |run| && Clean(run, labels, j)
    requires t < |run[j].threads| && u < |run[j].threads| && Has(run[j].threads[t], x) && Has(run[j].threads[u], x)
    ensures t == u
  {
    OwnedOnce(run, labels, j, x);
    forall q | 0 <= q < |run[j].queues| ensures 0 <= ListW(x)(run[j].queues[q]) {
      TimesNonNegative(x, run[j].queues[q].list);
    }
    SumNonNegative(ListW(x), run[j].queues);
    if t != u {
      SumAtLeastTwo(HasW(x), run[j].threads, if t < u then t else u, if t < u then u else t);
    }
  }

  /** An item is run at most once: whoever is at its callback at two moments is the same thread, and has
      been at it all the time between. */
  lemma RunsOnce(run: seq<Mem>, labels: seq<Label>, i: nat, t: nat, j: nat, u: nat, x: nat)
    requires IsRun(run, labels) && i <= j < |run| && Clean(run, labels, j)
    requires t < |run[i].threads| && run[i].threads[t] == Running(x)
    requires u < |run[j].threads| && run[j].threads[u] == Running(x)
    ensures t == u
    ensures forall k :: i <= k <= j ==> t < |run[k].threads| && run[k].threads[t] == Running(x)
  {
    KeepsItem(run, labels, i, j, t, x);
    OneHolder(run, labels, j, t, u, x);
    forall k | i <= k <= j ensures t < |run[k].threads| && run[k].threads[t] == Running(x) {
      KeepsItem(run, labels, i, k, t, x);
      KeepsItem(run, labels, k, j, t, x);
    }
  }

  /** A callback is over only after it was run, in every run. */
  lemma {:induction false} DoneWasRun(run: seq<Mem>, labels: seq<Label>, j: nat, t: nat) returns (i: nat)
    requires IsRun(run, labels) && j < |run| && t < |run[j].threads| && run[j].threads[t].Done?
    ensures i < j && t < |run[i].threads| && run[i].threads[t] == Running(run[j].threads[t].item)
  {
    i := j - 1;
    assert StepAt(run, labels, i);
    if t < |run[i].threads| && run[i].threads[t].Done? {
      i := DoneWasRun(run, labels, i, t);
    }
  }

  /** The step at `i` is the removal of item `x`, the head of queue `q`, by thread `t`; all other queues
      stay. */
  predicate Removes(run: seq<Mem>, labels: seq<Label>, i: nat, t: nat, q: nat, x: nat) {
    && i < |labels| && i + 1 < |run| && labels[i].Act? && labels[i].t == t
    && q < |run[i].queues| == |run[i + 1].queues|
    && var u, n := run[i].queues[q], run[i + 1].queues[q];
       u.list != [] && u.list[0] == x && n.list == u.list[1..] && n.gone == u.gone + [x] && n.stored == u.stored
       && run[i + 1].queues == run[i].queues[q := n]
  }

  lemma RemovalStep(s: Mem, l: Label, t: nat, x: nat)
    requires Enabled(s, l) && t < |Step(s, l).threads| && Has(Step(s, l).threads[t], x)
    requires !(t < |s.threads| && Has(s.threads[t], x))
    ensures l.Act? && l.t == t && s.threads[t].Write? && s.threads[t].item == x
  {
  }

  lemma WriteRemoves(s: Mem, t: nat, at: nat)
    requires Enabled(s, Act(t, at)) && ThreadOk(s, t) && s.threads[t].Write?
    ensures var pc, n := s.threads[t], Step(s, Act(t, at));
      && pc.q < |s.queues| == |n.queues| && s.queues[pc.q].list != [] && s.queues[pc.q].list[0] == pc.item
      && n.queues == s.queues[pc.q := NextQueue(pc, t, s.queues[pc.q])]
  {
    assert PcIn(s.threads, s.threads[t]);
  }

  /** What a callback runs is what it removed, while the late initialisations find their locks free: a
      callback with an item, at its function or past it, removed that item as the head of its queue. */
  lemma {:induction false} RunsWhatItRemoved(run: seq<Mem>, labels: seq<Label>, j: nat, t: nat, x: nat)
    returns (i: nat, q: nat)
    requires IsRun(run, labels) && j < |run| && Clean(run, labels, j)
    requires t < |run[j].threads| && Has(run[j].threads[t], x)
    ensures i < j && Removes(run, labels, i, t, q, x)
  {
    i, q := j - 1, 0;
    assert StepAt(run, labels, i);
    if t < |run[i].threads| && Has(run[i].threads[t], x) {
      i, q := RunsWhatItRemoved(run, labels, i, t, x);
    } else {
      RemovalStep(run[i], labels[i], t, x);
      q := run[i].threads[t].q;
      ThreadAt(run, labels, i, t);
      WriteRemoves(run[i], t, labels[i].at);
    }
  }

  // Order

  lemma HistoryStep(s: Mem, l: Label, q: nat)
    requires Enabled(s, l) && q < |s.queues|
    ensures q < |Step(s, l).queues|
    ensures s.queues[q].stored <= Step(s, l).queues[q].stored && s.queues[q].gone <= Step(s, l).queues[q].gone
  {
  }

  /** Order: the histories of a queue only grow, and while the late initialisations find their locks
      free, what callbacks removed followed by what is queued is what was stored. */
  lemma {:induction false} RemovedInOrder(run: seq<Mem>, labels: seq<Label>, i: nat, j: nat, q: nat)
    requires IsRun(run, labels) && i <= j < |run| && q < |run[i].queues|
    ensures q < |run[j].queues|
    ensures run[i].queues[q].stored <= run[j].queues[q].stored && run[i].queues[q].gone <= run[j].queues[q].gone
    ensures Clean(run, labels, j) ==> run[j].queues[q].stored == run[j].queues[q].gone + run[j].queues[q].list
    decreases j
  {
    if i < j {
      RemovedInOrder(run, labels, i, j - 1, q);
      assert StepAt(run, labels, j - 1);
      HistoryStep(run[j - 1], labels[j - 1], q);
    }
    if Clean(run, labels, j) {
      OrderAt(run, labels, j, q);
    }
  }

  lemma OrderAt(run: seq<Mem>, labels: seq<Label>, j: nat, q: nat)
    requires IsRun(run, labels) && j < |run| && q < |run[j].queues| && Clean(run, labels, j)
    ensures run[j].queues[q].stored == run[j].queues[q].gone + run[j].queues[q].list
  {
    Reachable(run, labels, j);
    assert QueueAtOk(run[j], q);
  }

  // Undisturbed

  /** A callback that took an item gives the read lock back, runs the item and is over. */
  lemma CallbackCompletes(s: Mem, t: nat, x: nat)
    requires Shaped(s) && t < |s.threads| && s.threads[t] == Took(x)
    ensures
      Enabled(s, Act(t, 0)) &&
      var a := Step(s, Act(t, 0));
      a == s.(lock := RwLock.UnlockSection(s.lock, t), threads := s.threads[t := Running(x)]) &&
      Enabled(a, Act(t, 0)) && Step(a, Act(t, 0)) == a.(threads := s.threads[t := Done(x)])
  {
    ShapeStep(s, Act(t, 0));
    var a := Step(s, Act(t, 0));
    assert a.threads == s.threads[t := Running(x)];
    assert Step(a, Act(t, 0)).threads == s.threads[t := Done(x)];
  }

  /** A callback alone in the section of a queue that is in order and not empty: its accesses end with
      the head in its hands, the rest of the list in order and the lock free.  `next` is the next
      pointer of the head. */
  lemma VisitTakesHead(u: Queue, t: nat, p: nat, q: nat, next: Ptr)
    requires u.list != [] && u.first == PtrAt(u.list, 0) && LastOk(u) && next == PtrAt(u.list, 1)
    ensures var x := u.list[0];
      && ScanPc(Test(p, q), u, next) == Take(p, q)
      && ScanPc(Take(p, q), u, next) == Remove(p, q, x)
      && ScanPc(Remove(p, q, x), u, next) == Write(p, q, x, next)
      && var v := NextQueue(Write(p, q, x, next), t, u);
         var w := if next.Null? then NextQueue(Tail(p, q, x), t, v) else v;
         var n := NextQueue(Leave(p, q, x), t, w);
         && ScanPc(Write(p, q, x, next), u, next) == (if next.Null? then Tail(p, q, x) else Leave(p, q, x))
         && ScanPc(Tail(p, q, x), v, next) == Leave(p, q, x) && ScanPc(Leave(p, q, x), w, next) == Took(x)
         && n.list == u.list[1..] && n.first == PtrAt(n.list, 0) && LastOk(n) && !n.locked && n.gone == u.gone + [x]
  {
  }
}
