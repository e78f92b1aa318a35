/** The mask of pending queues.  It has no lock of its own: the bit of a queue is written only under
    the spin lock of that queue, while the bits of other queues change at any time. */
module PoolMask {
  import opened PoolModel
  import opened PoolLocks

  /** Between setting the bit and inserting the item. */
  predicate Inserting(cfg: Config, pc: Pc, q: nat) {
    match pc
    case Posting(_, p) => p.PInsert? && p.q == q
    case Manager(m) => m.MStop? && m.stop.XInsert? && First(cfg.queues) == q
    case _ => false
  }

  /** Between removing the last item and clearing the bit. */
  predicate Emptied(pc: Pc, q: nat) {
    pc.Worker? && pc.w.Clear? && pc.w.q == q
  }

  /** At every atomic step: set bits name queues, a non-empty queue has its bit set, and a bit
      without an item belongs to a queue whose spin lock is held by a thread about to insert or
      about to clear. */
  predicate MaskOk(s: State)
    requires WellShaped(s)
  {
    && s.mask <= s.cfg.queues
    && (forall q :: 0 <= q < SLOTS ==> BitOk(s, q))
  }

  predicate BitOk(s: State, q: nat)
    requires WellShaped(s) && q < SLOTS
  {
    && (s.lists[q] != [] ==> q in s.mask)
    && (q in s.mask && s.lists[q] == [] ==>
      s.spin[q].Held? && s.spin[q].owner < |s.threads| && Gap(s.cfg, s.threads[s.spin[q].owner], q))
  }

  predicate Gap(cfg: Config, pc: Pc, q: nat) {
    Inserting(cfg, pc, q) || Emptied(pc, q)
  }

  /** A thread that will insert finds the bit set, a thread that will clear it finds the list empty. */
  predicate GapsOk(s: State)
    requires WellShaped(s)
  {
    forall t, q :: 0 <= t < |s.threads| && 0 <= q < SLOTS ==> GapOk(s, s.threads[t], q)
  }

  predicate GapOk(s: State, pc: Pc, q: nat)
    requires WellShaped(s) && q < SLOTS
  {
    && (Inserting(s.cfg, pc, q) ==> q in s.mask)
    && (Emptied(pc, q) ==> s.lists[q] == [])
  }

  /** Bits and lists change only under the spin lock of their queue, and where the program says. */
  predicate MaskMove(s: State, pc: Pc, m: Move)
    requires WellShaped(s)
  {
    var e := m.effect;
    && (e.SetBit? ==> e.q in s.cfg.queues && SpinOf(s.cfg, pc) == e.q && Inserting(s.cfg, m.pc, e.q))
    && (e.ClearBit? ==> SpinOf(s.cfg, pc) == e.q && Emptied(pc, e.q))
    && (e.Enqueue? ==> SpinOf(s.cfg, pc) == e.q && Inserting(s.cfg, pc, e.q))
    && (e.Dequeue? ==> e.q in s.cfg.queues && SpinOf(s.cfg, pc) == e.q && !Gap(s.cfg, pc, e.q)
                       && s.lists[e.q] != [] && (|s.lists[e.q]| == 1 ==> Emptied(m.pc, e.q)))
  }

  /** Where a thread enters and leaves a gap. */
  predicate GapMove(s: State, pc: Pc, m: Move, q: nat)
    requires WellShaped(s) && q < SLOTS
  {
    && (Gap(s.cfg, m.pc, q) ==> SpinOf(s.cfg, pc) == q && SpinOf(s.cfg, m.pc) == q)
    && (Inserting(s.cfg, m.pc, q) ==> m.effect == SetBit(q) || (m.effect == Tau && s.lists[q] != []))
    && (Emptied(m.pc, q) ==> m.effect == Dequeue(q) && |s.lists[q]| == 1)
    && (Inserting(s.cfg, pc, q) ==> m.effect.Enqueue? && m.effect.q == q)
    && (Emptied(pc, q) ==> m.effect == ClearBit(q))
  }

  lemma MaskPlan(s: State, t: nat, c: Choice)
    requires WellShaped(s) && t < |s.threads|
    ensures MaskMove(s, s.threads[t], Plan(s, t, c))
  {
  }

  lemma GapPlan(s: State, t: nat, c: Choice, q: nat)
    requires WellShaped(s) && t < |s.threads| && q < SLOTS
    ensures GapMove(s, s.threads[t], Plan(s, t, c), q)
  {
  }

  /** A thread in a gap holds the spin lock. */
  lemma GapHolds(s: State, u: nat, q: nat)
    requires WellShaped(s) && SpinsOk(s) && u < |s.threads| && q < SLOTS && Gap(s.cfg, s.threads[u], q)
    ensures s.spin[q] == Held(u)
  {
    assert SpinOf(s.cfg, s.threads[u]) == q;
  }

  predicate Touches(e: Effect, q: nat) {
    (e.SetBit? || e.ClearBit? || e.Enqueue? || e.Dequeue?) && e.q == q
  }

  lemma Untouched(s: State, t: nat, m: Move, q: nat)
    requires WellShaped(s) && t < |s.threads| && Possible(s, m.effect) && q < SLOTS
    requires !Touches(m.effect, q)
    ensures Apply(s, t, m).lists[q] == s.lists[q]
    ensures q in Apply(s, t, m).mask <==> q in s.mask
  {
  }

  /** A thread that did not take the step stays where it was, unless a signal woke it. */
  lemma OthersStay(s: State, t: nat, m: Move, u: nat)
    requires WellShaped(s) && t < |s.threads| && Possible(s, m.effect)
    requires u < |s.threads| && u != t && s.threads[u] != Worker(Blocked)
    ensures Apply(s, t, m).threads[u] == s.threads[u]
  {
  }

  lemma BitApply(s: State, t: nat, m: Move, q: nat)
    requires WellShaped(s) && t < |s.threads| && Possible(s, m.effect) && q < SLOTS
    requires WellShaped(Apply(s, t, m))
    requires SpinsOk(s) && BitOk(s, q) && GapOk(s, s.threads[t], q)
    requires SpinMove(s.cfg, s.threads[t], m)
    requires MaskMove(s, s.threads[t], m) && GapMove(s, s.threads[t], m, q)
    requires !Wakes(s, m.effect) || m.effect.woken != t
    ensures BitOk(Apply(s, t, m), q)
  {
    var n := Apply(s, t, m);
    if Touches(m.effect, q) {
      assert s.spin[q] == Held(t);
    } else {
      Untouched(s, t, m, q);
      if q in s.mask && s.lists[q] == [] {
        OthersStay(s, t, m, s.spin[q].owner);
      }
    }
  }

  lemma GapApply(s: State, t: nat, m: Move, u: nat, q: nat)
    requires WellShaped(s) && t < |s.threads| && Possible(s, m.effect) && q < SLOTS
    requires WellShaped(Apply(s, t, m)) && u < |Apply(s, t, m).threads|
    requires SpinsOk(s) && BitOk(s, q) && (u < |s.threads| ==> GapOk(s, s.threads[u], q))
    requires SpinMove(s.cfg, s.threads[t], m)
    requires MaskMove(s, s.threads[t], m) && GapMove(s, s.threads[t], m, q)
    ensures GapOk(Apply(s, t, m), Apply(s, t, m).threads[u], q)
  {
    var n := Apply(s, t, m);
    if Gap(n.cfg, n.threads[u], q) {
      if u == t {
        assert n.threads[u] == m.pc;
      } else {
        assert n.threads[u] == s.threads[u];
        GapHolds(s, u, q);
        assert !Touches(m.effect, q);
        Untouched(s, t, m, q);
      }
    }
  }

  lemma MaskStep(s: State, t: nat, c: Choice)
    requires CanStep(s, t, c) && SpinsOk(s) && MaskOk(s) && GapsOk(s)
    ensures WellShaped(Step(s, t, c)) && MaskOk(Step(s, t, c)) && GapsOk(Step(s, t, c))
  {
    var m, n := Plan(s, t, c), Step(s, t, c);
    ShapeStep(s, t, c);
    SpinPlan(s, t, c);
    MaskPlan(s, t, c);
    if m.effect.Signal? {
      SignalsAreSent(s, t, c);
    }
    forall q | 0 <= q < SLOTS ensures BitOk(n, q) {
      GapPlan(s, t, c, q);
      assert GapOk(s, s.threads[t], q);
      BitApply(s, t, m, q);
    }
    forall u, q | 0 <= u < |n.threads| && 0 <= q < SLOTS ensures GapOk(n, n.threads[u], q) {
      GapPlan(s, t, c, q);
      GapApply(s, t, m, u, q);
    }
  }

  /** The coherence of the mask with the lists: when the spin lock of a queue is free, the bit is
      set exactly when the list is not empty. */
  lemma MaskCoherent(s: State, q: nat)
    requires WellShaped(s) && MaskOk(s) && q < SLOTS && s.spin[q].Open?
    ensures q in s.mask <==> s.lists[q] != []
  {
    assert BitOk(s, q);
  }

  /** What `ffs` reads: every queue of higher priority than the one found is empty at that instant,
      and nothing at all is queued when no bit is found. */
  lemma FirstBitIsFirstQueue(s: State)
    requires WellShaped(s) && MaskOk(s)
    ensures First(s.mask) in s.mask <==> s.mask != {}
    ensures First(s.mask) in s.mask ==> First(s.mask) in s.cfg.queues
    ensures forall j :: 0 <= j < First(s.mask) ==> s.lists[j] == []
  {
    if q :| q in s.mask {
      assert q < SLOTS;
    }
    forall j | 0 <= j < First(s.mask) ensures s.lists[j] == [] {
      assert BitOk(s, j);
    }
  }
}
