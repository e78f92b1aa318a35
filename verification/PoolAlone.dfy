/** What one thread of the pool does when nobody disturbs it: a callback is run and its item freed, an
    exit item takes its worker out, an item is inserted and a sleeping worker signalled. */
module PoolAlone {
  import opened PoolModel

  /** The step of thread `t` with choice `c` leads from `s` to `n`. */
  predicate Goes(s: State, t: nat, c: Choice, n: State) {
    CanStep(s, t, c) && n == Step(s, t, c)
  }

  /** What each effect leaves alone. */
  lemma AdjustOnly(s: State, t: nat, m: Move)
    requires WellShaped(s) && t < |s.threads| && m.effect.Adjust? && m.effect.pending == 0 && m.effect.spinning == 0
    ensures Apply(s, t, m) ==
      s.(idle := s.idle + m.effect.idle, count := s.count + m.effect.count, threads := s.threads[t := m.pc],
         begun := if Begins(s.threads[t], m.pc) then s.begun + multiset{m.pc.w.item} else s.begun)
  {
  }

  lemma FreeOnly(s: State, t: nat, m: Move)
    requires WellShaped(s) && t < |s.threads| && m.effect.Free? && !Begins(s.threads[t], m.pc)
    ensures Apply(s, t, m) == s.(freed := s.freed + multiset{m.effect.item}, threads := s.threads[t := m.pc])
  {
  }

  lemma QuietOnly(s: State, t: nat, m: Move)
    requires WellShaped(s) && t < |s.threads| && !Begins(s.threads[t], m.pc) && Possible(s, m.effect)
    requires m.effect.Tau? || m.effect.MutexAcquire? || m.effect.MutexRelease? || m.effect.SetBit?
    ensures Apply(s, t, m) == s.(mutex := NextMutex(s.mutex, t, m.effect), mask := NextMask(s.mask, m.effect),
                                 threads := s.threads[t := m.pc])
  {
  }

  lemma SpinOnly(s: State, t: nat, m: Move)
    requires WellShaped(s) && t < |s.threads| && !Begins(s.threads[t], m.pc) && Possible(s, m.effect)
    requires m.effect.SpinAcquire? || m.effect.SpinRelease?
    ensures Apply(s, t, m) == s.(spin := NextSpin(s.spin, t, m.effect), threads := s.threads[t := m.pc])
  {
  }

  lemma EnqueueOnly(s: State, t: nat, m: Move)
    requires WellShaped(s) && t < |s.threads| && !Begins(s.threads[t], m.pc) && Possible(s, m.effect) && m.effect.Enqueue?
    ensures Apply(s, t, m) == s.(lists := NextLists(s.lists, m.effect), enqueued := NextEnqueued(s.enqueued, m.effect),
                                 threads := s.threads[t := m.pc])
  {
  }

  lemma SignalOnly(s: State, t: nat, m: Move)
    requires WellShaped(s) && t < |s.threads| && !Begins(s.threads[t], m.pc) && m.effect.Signal? && Wakes(s, m.effect)
    ensures Apply(s, t, m) == s.(threads := s.threads[t := m.pc][m.effect.woken := Worker(MutexEnter)])
  {
  }

  /** The function of the item returns. */
  const FINISH := Choice(DoFinish, 0, 0, false)

  lemma CallbackBegins(s: State, t: nat, item: Item, c: Choice)
    requires WellShaped(s) && t < |s.threads| && s.threads[t] == Worker(Got(item))
    ensures Goes(s, t, c,
      s.(idle := s.idle - 1, begun := s.begun + multiset{item}, threads := s.threads[t := Worker(Run(item))]))
  {
    AdjustOnly(s, t, Plan(s, t, c));
  }

  lemma CallbackEnds(s: State, t: nat, item: Item)
    requires WellShaped(s) && t < |s.threads| && s.threads[t] == Worker(Run(item))
    ensures Goes(s, t, FINISH, s.(idle := s.idle + 1, threads := s.threads[t := Worker(Finish(item))]))
  {
    AdjustOnly(s, t, Plan(s, t, FINISH));
  }

  lemma CallbackFrees(s: State, t: nat, item: Item, c: Choice)
    requires WellShaped(s) && t < |s.threads| && s.threads[t] == Worker(Finish(item))
    ensures Goes(s, t, c, s.(freed := s.freed + multiset{item}, threads := s.threads[t := Worker(Read(Fast))]))
  {
    FreeOnly(s, t, Plan(s, t, c));
  }

  lemma Shaped(s: State, t: nat, c: Choice, n: State)
    requires Goes(s, t, c, n)
    ensures WellShaped(n)
  {
    ShapeStep(s, t, c);
  }

  /** A worker with an item calls its function, and when that returns frees the item and scans again;
      nothing else has changed. */
  lemma UndisturbedCallback(s: State, t: nat, item: Item, c: Choice) returns (a: State, b: State, n: State)
    requires WellShaped(s) && t < |s.threads| && s.threads[t] == Worker(Got(item))
    ensures Goes(s, t, c, a) && Goes(a, t, FINISH, b) && Goes(b, t, c, n)
    ensures a.threads == s.threads[t := Worker(Run(item))] && a.idle == s.idle - 1
    ensures n == s.(begun := s.begun + multiset{item}, freed := s.freed + multiset{item},
                    threads := s.threads[t := Worker(Read(Fast))])
  {
    a := s.(idle := s.idle - 1, begun := s.begun + multiset{item}, threads := s.threads[t := Worker(Run(item))]);
    CallbackBegins(s, t, item, c);
    Shaped(s, t, c, a);
    b := s.(begun := a.begun, threads := s.threads[t := Worker(Finish(item))]);
    CallbackEnds(a, t, item);
    Shaped(a, t, FINISH, b);
    n := b.(freed := s.freed + multiset{item}, threads := s.threads[t := Worker(Read(Fast))]);
    CallbackFrees(b, t, item, c);
  }

  lemma RetireIdles(s: State, t: nat, item: Item, c: Choice)
    requires WellShaped(s) && t < |s.threads| && s.threads[t] == Worker(RetireIdle(item))
    ensures Goes(s, t, c, s.(idle := s.idle - 1, threads := s.threads[t := Worker(RetireCount(item))]))
  {
    AdjustOnly(s, t, Plan(s, t, c));
  }

  lemma RetireCounts(s: State, t: nat, item: Item, c: Choice)
    requires WellShaped(s) && t < |s.threads| && s.threads[t] == Worker(RetireCount(item))
    ensures Goes(s, t, c, s.(count := s.count - 1, threads := s.threads[t := Worker(RetireFree(item))]))
  {
    AdjustOnly(s, t, Plan(s, t, c));
  }

  lemma RetireFrees(s: State, t: nat, item: Item, c: Choice)
    requires WellShaped(s) && t < |s.threads| && s.threads[t] == Worker(RetireFree(item))
    ensures Goes(s, t, c, s.(freed := s.freed + multiset{item}, threads := s.threads[t := Worker(Dead)]))
  {
    FreeOnly(s, t, Plan(s, t, c));
  }

  /** A worker that took an exit item leaves the scoreboard, frees the item and ends. */
  lemma UndisturbedRetirement(s: State, t: nat, item: Item, c: Choice) returns (a: State, b: State, n: State)
    requires WellShaped(s) && t < |s.threads| && s.threads[t] == Worker(RetireIdle(item))
    ensures Goes(s, t, c, a) && Goes(a, t, c, b) && Goes(b, t, c, n)
    ensures n == s.(idle := s.idle - 1, count := s.count - 1, freed := s.freed + multiset{item},
                    threads := s.threads[t := Worker(Dead)])
  {
    a := s.(idle := s.idle - 1, threads := s.threads[t := Worker(RetireCount(item))]);
    RetireIdles(s, t, item, c);
    Shaped(s, t, c, a);
    b := a.(count := s.count - 1, threads := s.threads[t := Worker(RetireFree(item))]);
    RetireCounts(a, t, item, c);
    Shaped(a, t, c, b);
    n := b.(freed := s.freed + multiset{item}, threads := s.threads[t := Worker(Dead)]);
    RetireFrees(b, t, item, c);
  }

  // Posting

  lemma PostLock(s: State, t: nat, h: Option<Item>, q: nat, item: Item, c: Choice)
    requires WellShaped(s) && t < |s.threads| && q in s.cfg.queues && s.spin[q].Open?
    requires s.threads[t] == Posting(h, PLock(q, item))
    ensures Goes(s, t, c, s.(spin := s.spin[q := Held(t)], threads := s.threads[t := Posting(h, PCheck(q, item))]))
  {
    SpinOnly(s, t, Plan(s, t, c));
  }

  lemma PostCheck(s: State, t: nat, h: Option<Item>, q: nat, item: Item, c: Choice)
    requires WellShaped(s) && t < |s.threads| && q in s.cfg.queues && s.threads[t] == Posting(h, PCheck(q, item))
    ensures Goes(s, t, c, s.(threads := s.threads[t := Posting(h, if s.lists[q] == [] then PSet(q, item) else PInsert(q, item))]))
  {
    QuietOnly(s, t, Plan(s, t, c));
  }

  lemma PostSets(s: State, t: nat, h: Option<Item>, q: nat, item: Item, c: Choice)
    requires WellShaped(s) && t < |s.threads| && q in s.cfg.queues && s.threads[t] == Posting(h, PSet(q, item))
    ensures Goes(s, t, c, s.(mask := s.mask + {q}, threads := s.threads[t := Posting(h, PInsert(q, item))]))
  {
    QuietOnly(s, t, Plan(s, t, c));
  }

  lemma PostInsert(s: State, t: nat, h: Option<Item>, q: nat, item: Item, c: Choice)
    requires WellShaped(s) && t < |s.threads| && q in s.cfg.queues && s.threads[t] == Posting(h, PInsert(q, item))
    ensures Goes(s, t, c, s.(lists := s.lists[q := s.lists[q] + [item]], enqueued := s.enqueued[q := s.enqueued[q] + [item]],
                             threads := s.threads[t := Posting(h, PUnlock(q))]))
  {
    EnqueueOnly(s, t, Plan(s, t, c));
  }

  lemma PostUnlock(s: State, t: nat, h: Option<Item>, q: nat, c: Choice)
    requires WellShaped(s) && t < |s.threads| && q in s.cfg.queues && s.threads[t] == Posting(h, PUnlock(q))
    ensures Goes(s, t, c, s.(spin := s.spin[q := Open], threads := s.threads[t := Posting(h, PTest)]))
  {
    SpinOnly(s, t, Plan(s, t, c));
  }

  /** The poster has locked the queue and set its bit if the queue was empty. */
  lemma PostLocks(s: State, t: nat, h: Option<Item>, q: nat, item: Item, c: Choice) returns (run: seq<State>)
    requires WellShaped(s) && t < |s.threads| && q in s.cfg.queues
    requires s.threads[t] == Posting(h, PLock(q, item)) && s.spin[q].Open?
    ensures 3 <= |run| <= 4 && run[0] == s && WellShaped(run[|run| - 1])
    ensures forall i :: 0 <= i < |run| - 1 ==> Goes(run[i], t, c, run[i + 1])
    ensures run[|run| - 1] == s.(spin := s.spin[q := Held(t)], mask := if s.lists[q] == [] then s.mask + {q} else s.mask,
                                 threads := s.threads[t := Posting(h, PInsert(q, item))])
  {
    var a := s.(spin := s.spin[q := Held(t)], threads := s.threads[t := Posting(h, PCheck(q, item))]);
    PostLock(s, t, h, q, item, c);
    Shaped(s, t, c, a);
    PostCheck(a, t, h, q, item, c);
    if s.lists[q] == [] {
      var b := a.(threads := s.threads[t := Posting(h, PSet(q, item))]);
      Shaped(a, t, c, b);
      PostSets(b, t, h, q, item, c);
      var d := b.(mask := s.mask + {q}, threads := s.threads[t := Posting(h, PInsert(q, item))]);
      Shaped(b, t, c, d);
      run := [s, a, b, d];
    } else {
      var d := a.(threads := s.threads[t := Posting(h, PInsert(q, item))]);
      Shaped(a, t, c, d);
      run := [s, a, d];
    }
  }

  /** The poster inserts its item at the end, unlocks the queue and goes on to the test for sleepers. */
  lemma PostInserts(s: State, t: nat, h: Option<Item>, q: nat, item: Item, c: Choice) returns (a: State, n: State)
    requires WellShaped(s) && t < |s.threads| && q in s.cfg.queues && s.threads[t] == Posting(h, PInsert(q, item))
    ensures Goes(s, t, c, a) && Goes(a, t, c, n) && WellShaped(n)
    ensures n == s.(lists := s.lists[q := s.lists[q] + [item]], enqueued := s.enqueued[q := s.enqueued[q] + [item]],
                    spin := s.spin[q := Open], threads := s.threads[t := Posting(h, PTest)])
  {
    a := s.(lists := s.lists[q := s.lists[q] + [item]], enqueued := s.enqueued[q := s.enqueued[q] + [item]],
            threads := s.threads[t := Posting(h, PUnlock(q))]);
    PostInsert(s, t, h, q, item, c);
    Shaped(s, t, c, a);
    n := a.(spin := s.spin[q := Open], threads := s.threads[t := Posting(h, PTest)]);
    PostUnlock(a, t, h, q, c);
    Shaped(a, t, c, n);
  }

  lemma PostTests(s: State, t: nat, h: Option<Item>, c: Choice)
    requires WellShaped(s) && t < |s.threads| && s.threads[t] == Posting(h, PTest)
    ensures Goes(s, t, c, s.(threads := s.threads[t := if s.idle > 0 then Posting(h, PMutex) else AfterPost(h)]))
  {
    QuietOnly(s, t, Plan(s, t, c));
  }

  lemma PostMutex(s: State, t: nat, h: Option<Item>, c: Choice)
    requires WellShaped(s) && t < |s.threads| && s.threads[t] == Posting(h, PMutex) && s.mutex.Open?
    ensures Goes(s, t, c, s.(mutex := Held(t), threads := s.threads[t := Posting(h, PSignal)]))
  {
    QuietOnly(s, t, Plan(s, t, c));
  }

  lemma PostSignals(s: State, t: nat, h: Option<Item>, c: Choice)
    requires WellShaped(s) && t < |s.threads| && s.threads[t] == Posting(h, PSignal)
    requires c.woken < |s.threads| && s.threads[c.woken] == Worker(Blocked)
    ensures Goes(s, t, c, s.(threads := s.threads[t := Posting(h, PMutexUnlock)][c.woken := Worker(MutexEnter)]))
  {
    SignalOnly(s, t, Plan(s, t, c));
  }

  lemma PostReturns(s: State, t: nat, h: Option<Item>, c: Choice)
    requires WellShaped(s) && t < |s.threads| && s.threads[t] == Posting(h, PMutexUnlock)
    ensures Goes(s, t, c, s.(mutex := Open, threads := s.threads[t := AfterPost(h)]))
  {
    QuietOnly(s, t, Plan(s, t, c));
  }

  /** With a worker counted idle and one asleep, the poster wakes a sleeper and returns to its caller. */
  lemma UndisturbedSignal(s: State, t: nat, h: Option<Item>, c: Choice) returns (a: State, b: State, d: State, n: State)
    requires WellShaped(s) && t < |s.threads| && s.threads[t] == Posting(h, PTest) && s.idle > 0 && s.mutex.Open?
    requires c.woken < |s.threads| && s.threads[c.woken] == Worker(Blocked)
    ensures Goes(s, t, c, a) && Goes(a, t, c, b) && Goes(b, t, c, d) && Goes(d, t, c, n)
    ensures n == s.(threads := s.threads[t := AfterPost(h)][c.woken := Worker(MutexEnter)])
  {
    a := s.(threads := s.threads[t := Posting(h, PMutex)]);
    PostTests(s, t, h, c);
    Shaped(s, t, c, a);
    b := a.(mutex := Held(t), threads := s.threads[t := Posting(h, PSignal)]);
    PostMutex(a, t, h, c);
    Shaped(a, t, c, b);
    d := b.(threads := s.threads[t := Posting(h, PMutexUnlock)][c.woken := Worker(MutexEnter)]);
    PostSignals(b, t, h, c);
    Shaped(b, t, c, d);
    n := d.(mutex := Open, threads := s.threads[t := AfterPost(h)][c.woken := Worker(MutexEnter)]);
    PostReturns(d, t, h, c);
    assert d.threads[t := AfterPost(h)] == n.threads;
  }
}
