/** The legacy Windows pool (src/windows/manager.c, PROVIDE_LEGACY_XP_SUPPORT): one callback is
    submitted for each item, and each callback scans all queues in order, locking one at a time.
    While it scans, items come and go behind and ahead of it.  Here the spin-locked section of a
    queue is one step; `WindowsMemory` says when the code may be read so. */
module WindowsPool {
  import opened Sums
  import RwLock

  /** A thread that calls the library; a producer between insertion and submission; a callback waiting for the read lock, about to lock
      the queue at a position (past the last queue: about to return NULL), or with an item in hand
      and the read lock still held; an item being run; a finished thread; a callback that returned
      without an item; the creator of a queue waiting for the write lock, holding it, and holding it
      with the queue linked. */
  datatype Thread =
    | Caller
    | Submitting
    | Ready
    | Scanning(at: nat)
    | Took(item: nat)
    | Running(item: nat)
    | Done
    | EmptyHanded
    | WantCreate
    | Creating
    | Linked

  /** The queues in scan order (by priority, then by position in the list of that priority), the fields
      of `wqlist_mtx`, and the threads. */
  datatype Win = Win(lists: seq<seq<nat>>, lock: RwLock.Word, threads: seq<Thread>)

  datatype Label =
    | Arrive
    | WriteLock(t: nat)
    | Link(t: nat, at: nat)
    | WriteUnlock(t: nat)
    | Insert(t: nat, at: nat, item: nat)
    | Submit(t: nat)
    | ReadLock(t: nat)
    | Visit(t: nat)
    | ReadUnlock(t: nat)
    | Finish(t: nat)

  /** What a thread is to the reader/writer lock. */
  function Role(th: Thread): RwLock.Pc {
    match th
    case Ready => RwLock.WantRead
    case Scanning(_) => RwLock.Reading
    case Took(_) => RwLock.Reading
    case WantCreate => RwLock.WantWrite
    case Creating => RwLock.Writing
    case Linked => RwLock.Writing
    case _ => RwLock.Outside
  }

  function Roles(threads: seq<Thread>): (r: seq<RwLock.Pc>)
    ensures |r| == |threads|
    ensures forall i :: 0 <= i < |threads| ==> r[i] == Role(threads[i])
  {
    seq(|threads|, i requires 0 <= i < |threads| => Role(threads[i]))
  }

  /** The pool as the reader/writer lock sees it. */
  function LockView(s: Win): RwLock.Rw {
    RwLock.Rw(s.lock, Roles(s.threads))
  }

  predicate Enabled(s: Win, l: Label) {
    match l
    case Arrive => true
    case WriteLock(t) => t < |s.threads| && (s.threads[t].Caller? || s.threads[t].WantCreate?)
    case Link(t, p) => t < |s.threads| && s.threads[t].Creating? && p <= |s.lists|
    case WriteUnlock(t) => t < |s.threads| && s.threads[t].Linked?
    case Insert(t, p, _) => t < |s.threads| && s.threads[t].Caller? && p < |s.lists|
    case Submit(t) => t < |s.threads| && s.threads[t].Submitting?
    case ReadLock(t) => t < |s.threads| && s.threads[t].Ready?
    case Visit(t) => t < |s.threads| && s.threads[t].Scanning? && s.threads[t].at < |s.lists|
    case ReadUnlock(t) =>
      t < |s.threads| && (s.threads[t].Took? || (s.threads[t].Scanning? && s.threads[t].at >= |s.lists|))
    case Finish(t) => t < |s.threads| && s.threads[t].Running?
  }

  /** One queue of the scan, under its spin lock: take the head or move on. */
  function VisitStep(s: Win, t: nat): Win
    requires t < |s.threads| && s.threads[t].Scanning? && s.threads[t].at < |s.lists|
  {
    var p := s.threads[t].at;
    if s.lists[p] == [] then s.(threads := s.threads[t := Scanning(p + 1)])
    else s.(lists := s.lists[p := s.lists[p][1..]], threads := s.threads[t := Took(s.lists[p][0])])
  }

  /** One spin-locked section of pthread_rwlock_wrlock. */
  function WriteLockStep(s: Win, t: nat): Win
    requires t < |s.threads|
  {
    var entry := if s.threads[t].Caller? then s.lock.(waiting := s.lock.waiting + 1) else s.lock;
    var (w, ok) := RwLock.WriteSection(entry, t);
    s.(lock := w, threads := s.threads[t := if ok then Creating else WantCreate])
  }

  /** One spin-locked section of pthread_rwlock_rdlock. */
  function ReadLockStep(s: Win, t: nat): Win
    requires t < |s.threads|
  {
    var (w, ok) := RwLock.ReadSection(s.lock);
    s.(lock := w, threads := s.threads[t := if ok then Scanning(0) else Ready])
  }

  function UnlockStep(s: Win, t: nat, next: Thread): Win
    requires t < |s.threads|
  {
    s.(lock := RwLock.UnlockSection(s.lock, t), threads := s.threads[t := next])
  }

  function Step(s: Win, l: Label): Win
    requires Enabled(s, l)
  {
    match l
    case Arrive => s.(threads := s.threads + [Caller])
    case WriteLock(t) => WriteLockStep(s, t)
    case Link(t, p) => s.(lists := s.lists[..p] + [[]] + s.lists[p..], threads := s.threads[t := Linked])
    case WriteUnlock(t) => UnlockStep(s, t, Done)
    case Insert(t, p, item) => s.(lists := s.lists[p := s.lists[p] + [item]], threads := s.threads[t := Submitting])
    case Submit(t) => s.(threads := s.threads[t := Ready])
    case ReadLock(t) => ReadLockStep(s, t)
    case Visit(t) => VisitStep(s, t)
    case ReadUnlock(t) => UnlockStep(s, t, if s.threads[t].Took? then Running(s.threads[t].item) else EmptyHanded)
    case Finish(t) => s.(threads := s.threads[t := Done])
  }

  // The lock

  lemma RolesUpdate(threads: seq<Thread>, t: nat, th: Thread)
    requires t < |threads|
    ensures Roles(threads[t := th]) == Roles(threads)[t := Role(th)]
  {
  }

  /** The operation on the reader/writer lock that a step performs, if any. */
  function LockOp(s: Win, l: Label): (op: RwLock.Label)
    requires Enabled(s, l) && (l.WriteLock? || l.WriteUnlock? || l.Submit? || l.ReadLock? || l.ReadUnlock?)
    ensures RwLock.Enabled(LockView(s), op)
  {
    RwLock.Label(l.t,
      match l
      case WriteLock(t) => if s.threads[t].Caller? then RwLock.CallWrite else RwLock.RetryWrite
      case Submit(_) => RwLock.CallRead
      case ReadLock(_) => RwLock.RetryRead
      case _ => RwLock.Unlock)
  }

  /** Each step of the pool is a step of the lock protocol or leaves the lock alone. */
  lemma LockRefines(s: Win, l: Label)
    requires Enabled(s, l)
    ensures
      if l.WriteLock? || l.WriteUnlock? || l.Submit? || l.ReadLock? || l.ReadUnlock?
      then LockView(Step(s, l)) == RwLock.Step(LockView(s), LockOp(s, l))
      else if l.Arrive?
      then LockView(Step(s, l)) == RwLock.Rw(s.lock, Roles(s.threads) + [RwLock.Outside])
      else LockView(Step(s, l)) == LockView(s)
  {
    if !l.Arrive? {
      RolesUpdate(s.threads, l.t, Step(s, l).threads[l.t]);
    }
  }

  lemma LockKeeps(s: Win, l: Label)
    requires Enabled(s, l) && RwLock.Inv(LockView(s))
    ensures RwLock.Inv(LockView(Step(s, l)))
  {
    LockRefines(s, l);
    if l.WriteLock? || l.WriteUnlock? || l.Submit? || l.ReadLock? || l.ReadUnlock? {
      RwLock.InvStep(LockView(s), LockOp(s, l));
    } else if l.Arrive? {
      RwLock.NewThread(LockView(s));
    }
  }

  /** While a queue is being linked nobody scans. */
  lemma LinkingIsAlone(s: Win, t: nat, u: nat)
    requires RwLock.Inv(LockView(s)) && t < |s.threads| && u < |s.threads|
    requires s.threads[t].Creating?
    ensures !s.threads[u].Scanning? && !s.threads[u].Took?
  {
    RwLock.Totals(LockView(s), t);
    RwLock.Totals(LockView(s), u);
  }

  // The items

  /** The items in the queues from position `p` on. */
  function ItemsFrom(s: Win, p: nat): int
    requires p <= |s.lists|
  {
    Sum(LenW, s.lists[p..])
  }

  /** A callback without an item that has passed every queue before `p`. */
  function Passed(p: nat, th: Thread): int {
    match th
    case Ready => if p == 0 then 1 else 0
    case Scanning(at) => if at >= p then 1 else 0
    case _ => 0
  }

  function PassedW(p: nat): Thread -> int {
    th => Passed(p, th)
  }

  function Callbacks(s: Win, p: nat): int {
    Sum(PassedW(p), s.threads)
  }

  function SubmittingW(th: Thread): int {
    if th.Submitting? then 1 else 0
  }

  /** For every position, the callbacks that have passed all queues before it never outnumber the
      items still in the queues from it on. */
  predicate HallOk(s: Win) {
    forall p :: 0 <= p <= |s.lists| ==> HallAt(s, p)
  }

  predicate HallAt(s: Win, p: nat)
    requires p <= |s.lists|
  {
    Callbacks(s, p) <= ItemsFrom(s, p)
  }

  /** Outstanding callbacks and producers between insertion and submission make up the items. */
  predicate BalanceOk(s: Win) {
    Callbacks(s, 0) + Sum(SubmittingW, s.threads) == ItemsFrom(s, 0)
  }

  predicate PositionsOk(s: Win) {
    forall t :: 0 <= t < |s.threads| ==>
      !s.threads[t].EmptyHanded? && (s.threads[t].Scanning? ==> s.threads[t].at < |s.lists|)
  }

  predicate Inv(s: Win) {
    RwLock.Inv(LockView(s)) && ItemsOk(s)
  }

  predicate ItemsOk(s: Win) {
    HallOk(s) && BalanceOk(s) && PositionsOk(s)
  }

  lemma ItemsUpdate(s: Win, q: nat, l: seq<nat>, p: nat)
    requires q < |s.lists| && p <= |s.lists|
    ensures Sum(LenW, s.lists[q := l][p..]) == ItemsFrom(s, p) + if p <= q then |l| - |s.lists[q]| else 0
  {
    if p <= q {
      SumUpdate(LenW, s.lists[p..], q - p, l);
      assert s.lists[q := l][p..] == s.lists[p..][q - p := l];
    } else {
      assert s.lists[q := l][p..] == s.lists[p..];
    }
  }

  lemma ItemsSplit(s: Win, p: nat)
    requires p < |s.lists|
    ensures ItemsFrom(s, p) == |s.lists[p]| + ItemsFrom(s, p + 1)
  {
    SumFront(LenW, s.lists[p..]);
    assert s.lists[p..][1..] == s.lists[p + 1..];
  }

  lemma NoneFromEnd(s: Win)
    ensures ItemsFrom(s, |s.lists|) == 0
  {
  }

  /** A scanning callback has at least one item ahead of it. */
  lemma WorkAhead(s: Win, t: nat)
    requires HallOk(s) && t < |s.threads| && s.threads[t].Scanning? && s.threads[t].at <= |s.lists|
    ensures 1 <= ItemsFrom(s, s.threads[t].at)
  {
    var p := s.threads[t].at;
    assert HallAt(s, p);
    SumAtLeast(PassedW(p), s.threads, t);
  }

  /** Moving on from an empty queue keeps the inequality at the next position. */
  lemma HallMovesOn(s: Win, t: nat, p: nat)
    requires HallOk(s) && t < |s.threads| && p < |s.lists| && s.threads[t] == Scanning(p) && s.lists[p] == []
    ensures Callbacks(s, p + 1) + 1 <= ItemsFrom(s, p + 1)
  {
    assert HallAt(s, p);
    ItemsSplit(s, p);
    SumUpdate(PassedW(p), s.threads, t, Done);
    SumUpdate(PassedW(p + 1), s.threads, t, Done);
    SumMonotone(PassedW(p + 1), PassedW(p), s.threads[t := Done]);
  }

  lemma VisitHall(s: Win, t: nat, p: nat)
    requires Enabled(s, Visit(t)) && ItemsOk(s) && p <= |s.lists|
    ensures |VisitStep(s, t).lists| == |s.lists| && HallAt(VisitStep(s, t), p)
  {
    var at, n := s.threads[t].at, VisitStep(s, t);
    assert HallAt(s, p);
    SumUpdate(PassedW(p), s.threads, t, n.threads[t]);
    if s.lists[at] == [] {
      if p == at + 1 {
        HallMovesOn(s, t, at);
      }
    } else {
      ItemsUpdate(s, at, s.lists[at][1..], p);
    }
  }

  lemma VisitBalance(s: Win, t: nat)
    requires Enabled(s, Visit(t)) && ItemsOk(s)
    ensures BalanceOk(VisitStep(s, t)) && PositionsOk(VisitStep(s, t))
  {
    var at, n := s.threads[t].at, VisitStep(s, t);
    SumUpdate(PassedW(0), s.threads, t, n.threads[t]);
    SumUpdate(SubmittingW, s.threads, t, n.threads[t]);
    if s.lists[at] == [] {
      HallMovesOn(s, t, at);
      SumNonNegative(PassedW(at + 1), s.threads);
      if at + 1 == |s.lists| {
        NoneFromEnd(s);
      }
    } else {
      ItemsUpdate(s, at, s.lists[at][1..], 0);
    }
  }

  lemma VisitKeeps(s: Win, t: nat)
    requires Enabled(s, Visit(t)) && ItemsOk(s)
    ensures ItemsOk(VisitStep(s, t))
  {
    forall p | 0 <= p <= |VisitStep(s, t).lists| ensures HallAt(VisitStep(s, t), p) {
      VisitHall(s, t, p);
    }
    VisitBalance(s, t);
  }

  lemma InsertHall(s: Win, l: Label, p: nat)
    requires l.Insert? && Enabled(s, l) && p <= |s.lists| && HallOk(s)
    ensures |Step(s, l).lists| == |s.lists| && HallAt(Step(s, l), p)
  {
    assert HallAt(s, p);
    SumUpdate(PassedW(p), s.threads, l.t, Submitting);
    ItemsUpdate(s, l.at, s.lists[l.at] + [l.item], p);
  }

  lemma InsertBalance(s: Win, l: Label)
    requires l.Insert? && Enabled(s, l) && BalanceOk(s) && PositionsOk(s)
    ensures BalanceOk(Step(s, l)) && PositionsOk(Step(s, l))
  {
    SumUpdate(PassedW(0), s.threads, l.t, Submitting);
    SumUpdate(SubmittingW, s.threads, l.t, Submitting);
    ItemsUpdate(s, l.at, s.lists[l.at] + [l.item], 0);
  }

  lemma InsertKeeps(s: Win, l: Label)
    requires l.Insert? && Enabled(s, l) && ItemsOk(s)
    ensures ItemsOk(Step(s, l))
  {
    forall p | 0 <= p <= |Step(s, l).lists| ensures HallAt(Step(s, l), p) {
      InsertHall(s, l, p);
    }
    InsertBalance(s, l);
  }

  lemma SubmitKeeps(s: Win, t: nat)
    requires Enabled(s, Submit(t)) && ItemsOk(s)
    ensures ItemsOk(Step(s, Submit(t)))
  {
    var n := Step(s, Submit(t));
    SumUpdate(SubmittingW, s.threads, t, Ready);
    SumUpdate(PassedW(0), s.threads, t, Ready);
    SumNonNegative(SubmittingW, n.threads);
    forall p | 0 <= p <= |n.lists| ensures HallAt(n, p) {
      assert HallAt(s, p);
      SumUpdate(PassedW(p), s.threads, t, Ready);
    }
  }

  /** Taking and releasing the lock and finishing change no total. */
  lemma QuietKeeps(s: Win, l: Label)
    requires Enabled(s, l) && ItemsOk(s)
    requires l.WriteLock? || l.WriteUnlock? || l.ReadLock? || l.ReadUnlock? || l.Finish?
    ensures ItemsOk(Step(s, l))
  {
    var n := Step(s, l);
    SumUpdate(SubmittingW, s.threads, l.t, n.threads[l.t]);
    SumUpdate(PassedW(0), s.threads, l.t, n.threads[l.t]);
    if l.ReadLock? {
      assert HallAt(s, 0);
      SumAtLeast(PassedW(0), s.threads, l.t);
      if |s.lists| == 0 {
        NoneFromEnd(s);
      }
    }
    forall p | 0 <= p <= |n.lists| ensures HallAt(n, p) {
      assert HallAt(s, p);
      SumUpdate(PassedW(p), s.threads, l.t, n.threads[l.t]);
    }
  }

  lemma ArriveKeeps(s: Win)
    requires ItemsOk(s)
    ensures ItemsOk(Step(s, Arrive))
  {
    var n := Step(s, Arrive);
    forall p | 0 <= p <= |n.lists| ensures HallAt(n, p) {
      assert HallAt(s, p);
      SumAppend(PassedW(p), s.threads, Caller);
    }
    SumAppend(PassedW(0), s.threads, Caller);
    SumAppend(SubmittingW, s.threads, Caller);
  }

  /** Linking a queue shifts positions, but nobody is at one. */
  lemma LinkKeeps(s: Win, t: nat, q: nat)
    requires Enabled(s, Link(t, q)) && Inv(s)
    ensures ItemsOk(Step(s, Link(t, q)))
  {
    var n := Step(s, Link(t, q));
    EmptyQueueAddsNothing(s.lists, q);
    assert n.lists[0..] == n.lists && s.lists[0..] == s.lists;
    assert HallAt(s, 0);
    SumUpdate(SubmittingW, s.threads, t, Linked);
    SumUpdate(PassedW(0), s.threads, t, Linked);
    forall u | 0 <= u < |s.threads| ensures !s.threads[u].Scanning? && !s.threads[u].Took? {
      LinkingIsAlone(s, t, u);
    }
    forall p | 0 <= p <= |n.lists| ensures HallAt(n, p) {
      if p > 0 {
        SumZero(PassedW(p), n.threads);
        SumNonNegative(LenW, n.lists[p..]);
      }
    }
  }

  lemma {:induction false} EmptyQueueAddsNothing(lists: seq<seq<nat>>, q: nat)
    requires q <= |lists|
    ensures Sum(LenW, lists[..q] + [[]] + lists[q..]) == Sum(LenW, lists)
  {
    if q == |lists| {
      assert lists[..q] + [[]] + lists[q..] == lists + [[]];
      SumAppend(LenW, lists, []);
    } else {
      var n := |lists| - 1;
      EmptyQueueAddsNothing(lists[..n], q);
      assert lists[..q] + [[]] + lists[q..] == (lists[..n][..q] + [[]] + lists[..n][q..]) + [lists[n]];
      SumAppend(LenW, lists[..n][..q] + [[]] + lists[..n][q..], lists[n]);
    }
  }

  lemma InvStep(s: Win, l: Label)
    requires Enabled(s, l) && Inv(s)
    ensures Inv(Step(s, l))
  {
    LockKeeps(s, l);
    match l
    case Arrive => ArriveKeeps(s);
    case Link(t, p) => LinkKeeps(s, t, p);
    case Insert(_, _, _) => InsertKeeps(s, l);
    case Submit(t) => SubmitKeeps(s, t);
    case Visit(t) => VisitKeeps(s, t);
    case _ => QuietKeeps(s, l);
  }

  /** A run: queues are created, items posted and callbacks executed in any order. */
  predicate IsRun(run: seq<Win>, labels: seq<Label>) {
    && |run| == |labels| + 1
    && run[0] == Win([], RwLock.FREE, [])
    && (forall i :: 0 <= i < |labels| ==> StepAt(run, labels, i))
  }

  predicate StepAt(run: seq<Win>, labels: seq<Label>, i: nat)
    requires i < |labels| < |run|
  {
    Enabled(run[i], labels[i]) && run[i + 1] == Step(run[i], labels[i])
  }

  lemma {:induction false} Reachable(run: seq<Win>, labels: seq<Label>, i: nat)
    requires IsRun(run, labels) && i < |run|
    ensures Inv(run[i])
  {
    if i > 0 {
      Reachable(run, labels, i - 1);
      assert StepAt(run, labels, i - 1);
      InvStep(run[i - 1], labels[i - 1]);
    }
  }

  /** In every run, while a queue is being linked no callback scans. */
  lemma CreationExcludesScans(run: seq<Win>, labels: seq<Label>, i: nat, t: nat, u: nat)
    requires IsRun(run, labels) && i < |run| && t < |run[i].threads| && u < |run[i].threads|
    requires run[i].threads[t].Creating?
    ensures !run[i].threads[u].Scanning? && !run[i].threads[u].Took?
  {
    Reachable(run, labels, i);
    LinkingIsAlone(run[i], t, u);
  }

  /** In every run no callback comes back without an item, a scanning callback always has work ahead of
      it, and outstanding callbacks plus unsubmitted items are exactly the queued items. */
  lemma NoCallbackReturnsEmptyHanded(run: seq<Win>, labels: seq<Label>, i: nat, t: nat)
    requires IsRun(run, labels) && i < |run| && t < |run[i].threads|
    ensures !run[i].threads[t].EmptyHanded?
    ensures run[i].threads[t].Scanning? ==>
      run[i].threads[t].at < |run[i].lists| && 1 <= ItemsFrom(run[i], run[i].threads[t].at)
    ensures Callbacks(run[i], 0) + Sum(SubmittingW, run[i].threads) == ItemsFrom(run[i], 0)
  {
    Reachable(run, labels, i);
    if run[i].threads[t].Scanning? {
      WorkAhead(run[i], t);
    }
  }
}
