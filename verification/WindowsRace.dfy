/** What the late initialisation of a held spin lock breaks (src/windows/manager.c:51): two threads
    inside one section, and from there a callback that returns without an item while one is queued. */
module WindowsRace {
  import opened Sums
  import RwLock
  import opened WindowsMemory

  /** The next client of a queue enters its section when the lock word is free. */
  lemma NextClientEnters(s: Mem, q: nat)
    requires Shaped(s) && q < |s.threads| && s.threads[q].Created? && !s.queues[q].locked
    ensures Enabled(s, CallAdd(q, Null))
    ensures var b := Step(s, CallAdd(q, Null));
      Enabled(b, Act(|s.threads|, 0)) && Holders(Step(b, Act(|s.threads|, 0)), q) == Holders(s, q) + 1
  {
    var b := Step(s, CallAdd(q, Null));
    ShapeStep(s, CallAdd(q, Null));
    SumAppend(InW(q), s.threads, AddLock(q));
    SumUpdate(InW(q), b.threads, |s.threads|, AddClear(q));
  }

  /** Whenever a late initialisation finds its lock held, the next client of the queue joins the
      callback inside its section. */
  lemma TramplingLetsTwoIn(s: Mem, t: nat)
    requires Enabled(s, Act(t, 0)) && Tramples(s, Act(t, 0)) && Guarded(s)
    ensures
      var a := Step(s, Act(t, 0));
      Enabled(a, CallAdd(t, Null)) &&
      var b := Step(a, CallAdd(t, Null));
      Enabled(b, Act(|s.threads|, 0)) && Holders(Step(b, Act(|s.threads|, 0)), t) == 2
  {
    Trampled(s, t);
    NextClientEnters(Step(s, Act(t, 0)), t);
  }

  lemma Trampled(s: Mem, t: nat)
    requires Enabled(s, Act(t, 0)) && Tramples(s, Act(t, 0)) && Guarded(s)
    ensures var a := Step(s, Act(t, 0));
      && Shaped(a) && |a.threads| == |s.threads| && a.threads[t].Created? && !a.queues[t].locked
      && Holders(a, t) == 1
  {
    ShapeStep(s, Act(t, 0));
    assert GuardedAt(s, t);
    SumUpdate(InW(t), s.threads, t, Created);
  }

  // A run that loses an item

  /** A state of some run. */
  ghost predicate Reaches(s: Mem) {
    Shaped(s) && exists run, labels :: IsRun(run, labels) && run[|labels|] == s
  }

  lemma Go(s: Mem, l: Label)
    requires Reaches(s) && Enabled(s, l)
    ensures Reaches(Step(s, l))
  {
    var run, labels :| IsRun(run, labels) && run[|labels|] == s;
    ShapeStep(s, l);
    Extended(run, labels, l);
  }

  lemma Extended(run: seq<Mem>, labels: seq<Label>, l: Label)
    requires IsRun(run, labels) && Enabled(run[|labels|], l)
    ensures IsRun(run + [Step(run[|labels|], l)], labels + [l])
  {
    var r, ls := run + [Step(run[|labels|], l)], labels + [l];
    forall i | 0 <= i < |ls| ensures StepAt(r, ls, i) {
      assert i < |labels| ==> StepAt(run, labels, i);
    }
  }

  /** The step of thread `t`, field by field. */
  lemma Acts(s: Mem, t: nat, n: Mem)
    requires Reaches(s) && t < |s.threads| && Runs(s, s.threads[t], 0)
    requires n.order == NextOrder(s, t, 0) && n.queues == NextQueues(s, t) && n.items == NextItems(s, t)
    requires n.lock == NextLock(s, t).0 && n.threads == s.threads[t := NextPc(s, t)]
    ensures Reaches(n)
  {
    Go(s, Act(t, 0));
  }

  const I0 := Item(Null, 0)
  const READER := RwLock.Word(1, 0, 0, -1)

  /** Call 0 alone. */
  function Alone(order: seq<nat>, lock: RwLock.Word, pc: Pc): Mem {
    Mem(order, [NEW], [I0], lock, [pc])
  }

  const WRITER0 := RwLock.Word(0, 1, 0, 0)
  const WRITER2 := RwLock.Word(0, 1, 0, 2)

  // Call 0 creates a queue.

  lemma FirstQueueArrives()
    ensures Reaches(Alone([], RwLock.FREE, Creator))
  {
    var none: seq<Label> := [];
    assert IsRun([START], none) && [START][|none|] == START;
    Go(START, CallCreate);
  }

  lemma FirstQueueLocks()
    ensures Reaches(Alone([], WRITER0, Creating))
  {
    FirstQueueArrives();
    Acts(Alone([], RwLock.FREE, Creator), 0, Alone([], WRITER0, Creating));
  }

  lemma FirstQueueLinked()
    ensures Reaches(Alone([0], WRITER0, Linked))
  {
    FirstQueueLocks();
    Acts(Alone([], WRITER0, Creating), 0, Alone([0], WRITER0, Linked));
  }

  lemma FirstQueue()
    ensures Reaches(Alone([0], RwLock.FREE, Created))
  {
    FirstQueueLinked();
    Acts(Alone([0], WRITER0, Linked), 0, Alone([0], RwLock.FREE, Late));
    Acts(Alone([0], RwLock.FREE, Late), 0, Alone([0], RwLock.FREE, Created));
  }

  /** A queue that holds just item `t`. */
  function Just(t: nat): Queue {
    Queue(false, To(t), OfItem(t), [t], [t], [])
  }

  /** A queue that item 3 has passed through. */
  const SPENT := NEW.(stored := [3], gone := [3])

  /** Queue 0 is `u`, call 1 is at `pc`. */
  function Pair(u: Queue, pc: Pc): Mem {
    Mem([0], [u, NEW], [I0, I0], RwLock.FREE, [Created, pc])
  }

  lemma PairAdds(u: Queue, pc: Pc)
    requires Reaches(Pair(u, pc)) && InAdd(pc) && pc.q == 0 && (pc.AddStore? ==> u.last.OfHead?)
    ensures Reaches(Pair(NextQueue(pc, 1, u), AddPc(pc)))
  {
    var s := Pair(u, pc);
    assert s.items[1 := s.items[1].(next := Null)] == s.items;
    Acts(s, 1, Pair(NextQueue(pc, 1, u), AddPc(pc)));
  }

  // Call 1 adds an item to that queue.

  lemma FirstItemArrives()
    ensures Reaches(Pair(NEW, AddLock(0)))
  {
    FirstQueue();
    Go(Alone([0], RwLock.FREE, Created), CallAdd(0, Null));
  }

  lemma FirstItemLocks()
    ensures Reaches(Pair(NEW.(locked := true), AddStore(0)))
  {
    FirstItemArrives();
    Acts(Pair(NEW, AddLock(0)), 1, Pair(NEW.(locked := true), AddClear(0)));
    PairAdds(NEW.(locked := true), AddClear(0));
  }

  lemma FirstItemStored()
    ensures Reaches(Pair(Just(1).(locked := true, last := OfHead), AddTail(0)))
  {
    FirstItemLocks();
    PairAdds(NEW.(locked := true), AddStore(0));
    assert [] + [1] == [1];
  }

  lemma FirstItemInside()
    ensures Reaches(Pair(Just(1).(locked := true), AddUnlock(0)))
  {
    FirstItemStored();
    PairAdds(Just(1).(locked := true, last := OfHead), AddTail(0));
  }

  lemma FirstItemOutside()
    ensures Reaches(Pair(Just(1), Submitting))
  {
    FirstItemInside();
    PairAdds(Just(1).(locked := true), AddUnlock(0));
  }

  lemma FirstItem()
    ensures Reaches(Pair(Just(1), Ready))
  {
    FirstItemOutside();
    Acts(Pair(Just(1), Submitting), 1, Pair(Just(1), Ready));
  }

  /** Call 1 is at `a` and call 2, which creates queue 2, at `c`. */
  function Trio(order: seq<nat>, lock: RwLock.Word, u: Queue, a: Pc, c: Pc): Mem {
    Mem(order, [Just(1), NEW, u], [I0, I0, I0], lock, [Created, a, c])
  }

  lemma SecondQueueArrives()
    ensures Reaches(Trio([0], RwLock.FREE, NEW, Ready, Creator))
  {
    FirstItem();
    Go(Pair(Just(1), Ready), CallCreate);
  }

  lemma SecondQueueLocks()
    ensures Reaches(Trio([0], WRITER2, NEW, Ready, Creating))
  {
    SecondQueueArrives();
    Acts(Trio([0], RwLock.FREE, NEW, Ready, Creator), 2, Trio([0], WRITER2, NEW, Ready, Creating));
  }

  lemma SecondQueueLinked()
    ensures Reaches(Trio([2, 0], WRITER2, NEW, Ready, Linked))
  {
    SecondQueueLocks();
    Acts(Trio([0], WRITER2, NEW, Ready, Creating), 2, Trio([2, 0], WRITER2, NEW, Ready, Linked));
  }

  lemma SecondQueueShown()
    ensures Reaches(Trio([2, 0], RwLock.FREE, NEW, Ready, Late))
  {
    SecondQueueLinked();
    Acts(Trio([2, 0], WRITER2, NEW, Ready, Linked), 2, Trio([2, 0], RwLock.FREE, NEW, Ready, Late));
  }

  // The callback of item 1 locks queue 2; then call 2 initialises the lock again.

  lemma FirstLooks()
    ensures Reaches(Trio([2, 0], READER, NEW, Scanning(0), Late))
  {
    SecondQueueShown();
    Acts(Trio([2, 0], RwLock.FREE, NEW, Ready, Late), 1, Trio([2, 0], READER, NEW, Scanning(0), Late));
  }

  lemma FirstInside()
    ensures Reaches(Trio([2, 0], READER, NEW.(locked := true), Test(0, 2), Late))
  {
    FirstLooks();
    Acts(Trio([2, 0], READER, NEW, Scanning(0), Late), 1, Trio([2, 0], READER, NEW.(locked := true), Test(0, 2), Late));
  }

  lemma LockIsTrampled()
    ensures Reaches(Trio([2, 0], READER, NEW, Test(0, 2), Created))
  {
    FirstInside();
    Acts(Trio([2, 0], READER, NEW.(locked := true), Test(0, 2), Late), 2,
         Trio([2, 0], READER, NEW, Test(0, 2), Created));
  }

  /** Queue 2 is `u`, the callback of item 1 is at `a`, and call 3, which adds to queue 2, at `b`. */
  function Quad(lock: RwLock.Word, u: Queue, a: Pc, b: Pc): Mem {
    Mem([2, 0], [Just(1), NEW, u, NEW], [I0, I0, I0, Item(Null, 2)], lock, [Created, a, Created, b])
  }

  /** What changes inside the sections of queue 2. */
  datatype Conf = Conf(u: Queue, a: Pc, b: Pc)

  predicate Adds(c: Conf, d: Conf) {
    && InAdd(c.b) && c.b.q == 2 && (c.b.AddStore? ==> c.u.last.OfHead?)
    && d == Conf(NextQueue(c.b, 3, c.u), c.a, AddPc(c.b))
  }

  predicate FirstScans(c: Conf, d: Conf) {
    && InScan(c.a) && !c.a.Crashed? && c.a.q == 2 && (c.u.first.Null? || c.u.first.item == 3)
    && d == Conf(NextQueue(c.a, 1, c.u), ScanPc(c.a, c.u, Null), c.b)
  }

  predicate SecondScans(c: Conf, d: Conf) {
    && InScan(c.b) && !c.b.Crashed? && c.b.q == 2 && (c.u.first.Null? || c.u.first.item == 3)
    && d == Conf(NextQueue(c.b, 3, c.u), c.a, ScanPc(c.b, c.u, Null))
  }

  predicate Moves(c: Conf, d: Conf) {
    Adds(c, d) || FirstScans(c, d) || SecondScans(c, d)
  }

  predicate MovesAt(cs: seq<Conf>, i: nat)
    requires i + 1 < |cs|
  {
    Moves(cs[i], cs[i + 1])
  }

  lemma GoAdds(lock: RwLock.Word, c: Conf, d: Conf)
    requires Reaches(Quad(lock, c.u, c.a, c.b)) && Adds(c, d)
    ensures Reaches(Quad(lock, d.u, d.a, d.b))
  {
    var s := Quad(lock, c.u, c.a, c.b);
    assert s.items[3 := s.items[3].(next := Null)] == s.items;
    Acts(s, 3, Quad(lock, d.u, d.a, d.b));
  }

  lemma GoFirst(lock: RwLock.Word, c: Conf, d: Conf)
    requires Reaches(Quad(lock, c.u, c.a, c.b)) && FirstScans(c, d)
    ensures Reaches(Quad(lock, d.u, d.a, d.b))
  {
    Acts(Quad(lock, c.u, c.a, c.b), 1, Quad(lock, d.u, d.a, d.b));
  }

  lemma GoSecond(lock: RwLock.Word, c: Conf, d: Conf)
    requires Reaches(Quad(lock, c.u, c.a, c.b)) && SecondScans(c, d)
    ensures Reaches(Quad(lock, d.u, d.a, d.b))
  {
    Acts(Quad(lock, c.u, c.a, c.b), 3, Quad(lock, d.u, d.a, d.b));
  }

  lemma GoMoves(lock: RwLock.Word, c: Conf, d: Conf)
    requires Reaches(Quad(lock, c.u, c.a, c.b)) && Moves(c, d)
    ensures Reaches(Quad(lock, d.u, d.a, d.b))
  {
    if Adds(c, d) {
      GoAdds(lock, c, d);
    } else if FirstScans(c, d) {
      GoFirst(lock, c, d);
    } else {
      GoSecond(lock, c, d);
    }
  }

  lemma {:induction false} Follow(lock: RwLock.Word, cs: seq<Conf>)
    requires cs != [] && Reaches(Quad(lock, cs[0].u, cs[0].a, cs[0].b))
    requires forall i :: 0 <= i < |cs| - 1 ==> MovesAt(cs, i)
    ensures var d := cs[|cs| - 1]; Reaches(Quad(lock, d.u, d.a, d.b))
  {
    var n := |cs| - 1;
    if n > 0 {
      forall i | 0 <= i < n - 1 ensures MovesAt(cs[..n], i) {
        assert MovesAt(cs, i);
      }
      Follow(lock, cs[..n]);
      assert MovesAt(cs, n - 1);
      GoMoves(lock, cs[n - 1], cs[n]);
    }
  }

  const READERS := RwLock.Word(2, 0, 0, -1)

  lemma SecondItemArrives()
    ensures Reaches(Quad(READER, NEW, Test(0, 2), AddLock(2)))
  {
    LockIsTrampled();
    Go(Trio([2, 0], READER, NEW, Test(0, 2), Created), CallAdd(2, Null));
  }

  lemma SecondItemLocks()
    ensures Reaches(Quad(READER, NEW.(locked := true), Test(0, 2), AddClear(2)))
  {
    SecondItemArrives();
    Acts(Quad(READER, NEW, Test(0, 2), AddLock(2)), 3, Quad(READER, NEW.(locked := true), Test(0, 2), AddClear(2)));
  }

  /** Call 3 adds an item while the callback of item 1 is inside the same section, and that callback
      then finds the queue not empty. */
  function Arrival(): seq<Conf> {
    [ Conf(NEW.(locked := true), Test(0, 2), AddClear(2)),
      Conf(NEW.(locked := true), Test(0, 2), AddStore(2)),
      Conf(Just(3).(locked := true, last := OfHead), Test(0, 2), AddTail(2)),
      Conf(Just(3).(locked := true), Test(0, 2), AddUnlock(2)),
      Conf(Just(3), Test(0, 2), Submitting),
      Conf(Just(3), Take(0, 2), Submitting) ]
  }

  lemma ArrivalMoves(i: nat)
    requires i < 5
    ensures MovesAt(Arrival(), i)
  {
    assert [] + [3] == [3];
  }

  lemma SecondItem()
    ensures Reaches(Quad(READER, Just(3), Take(0, 2), Submitting))
  {
    SecondItemLocks();
    forall i | 0 <= i < 5 ensures MovesAt(Arrival(), i) {
      ArrivalMoves(i);
    }
    Follow(READER, Arrival());
  }

  lemma SecondReady()
    ensures Reaches(Quad(READER, Just(3), Take(0, 2), Ready))
  {
    SecondItem();
    Acts(Quad(READER, Just(3), Take(0, 2), Submitting), 3, Quad(READER, Just(3), Take(0, 2), Ready));
  }

  lemma SecondLooks()
    ensures Reaches(Quad(READERS, Just(3), Take(0, 2), Scanning(0)))
  {
    SecondReady();
    Acts(Quad(READER, Just(3), Take(0, 2), Ready), 3, Quad(READERS, Just(3), Take(0, 2), Scanning(0)));
  }

  /** The callback of item 3 enters the section too. */
  lemma BothInside()
    ensures Reaches(Quad(READERS, Just(3).(locked := true), Take(0, 2), Test(0, 2)))
  {
    SecondLooks();
    Acts(Quad(READERS, Just(3), Take(0, 2), Scanning(0)), 3,
         Quad(READERS, Just(3).(locked := true), Take(0, 2), Test(0, 2)));
  }

  /** The callback of item 3 takes item 3, and the other one is left with nothing. */
  function Contest(): seq<Conf> {
    var u := Just(3).(locked := true);
    [ Conf(u, Take(0, 2), Test(0, 2)),
      Conf(u, Take(0, 2), Take(0, 2)),
      Conf(u, Take(0, 2), Remove(0, 2, 3)),
      Conf(u, Take(0, 2), Write(0, 2, 3, Null)),
      Conf(SPENT.(locked := true, last := OfItem(3)), Take(0, 2), Tail(0, 2, 3)),
      Conf(SPENT.(locked := true), Take(0, 2), Leave(0, 2, 3)),
      Conf(SPENT, Take(0, 2), Took(3)),
      Conf(SPENT, Fail(0, 2), Took(3)),
      Conf(SPENT, Nothing, Took(3)) ]
  }

  lemma ContestMoves(i: nat)
    requires i < 8
    ensures MovesAt(Contest(), i)
  {
    assert [3][1..] == [];
  }

  lemma OneTakesIt()
    ensures Reaches(Quad(READERS, SPENT, Nothing, Took(3)))
  {
    BothInside();
    forall i | 0 <= i < 8 ensures MovesAt(Contest(), i) {
      ContestMoves(i);
    }
    Follow(READERS, Contest());
  }

  lemma FirstReturns()
    ensures Reaches(Quad(READER, SPENT, EmptyHanded, Took(3)))
  {
    OneTakesIt();
    Acts(Quad(READERS, SPENT, Nothing, Took(3)), 1, Quad(READER, SPENT, EmptyHanded, Took(3)));
  }

  lemma AllReturn()
    ensures Reaches(Quad(RwLock.FREE, SPENT, EmptyHanded, Running(3)))
  {
    FirstReturns();
    Acts(Quad(READER, SPENT, EmptyHanded, Took(3)), 3, Quad(RwLock.FREE, SPENT, EmptyHanded, Running(3)));
  }

  /** A run of the code in which the callback of item 1 returns without an item, and item 1 stays in its
      queue with no callback outstanding. */
  lemma ItemIsLost() returns (run: seq<Mem>, labels: seq<Label>)
    ensures IsRun(run, labels)
    ensures var s := run[|labels|];
      && |s.threads| == 4 && s.threads[1] == EmptyHanded && s.threads[3] == Running(3)
      && |s.queues| == 4 && s.queues[0] == Queue(false, To(1), OfItem(1), [1], [1], [])
      && NoCallback(s)
  {
    AllReturn();
    run, labels :| IsRun(run, labels) && run[|labels|] == Quad(RwLock.FREE, SPENT, EmptyHanded, Running(3));
  }
}
