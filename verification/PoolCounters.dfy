/** The scoreboard.  Every counter is adjusted by atomic steps that lie apart from the events they
    count; at each step each counter still equals a number read off the program counters. */
module PoolCounters {
  import opened Sums
  import opened PoolModel

  /** A worker counts as idle from before its creation until it starts a callback or retires. */
  function IdleW(pc: Pc): int {
    match pc
    case Worker(w) => if w.RetireCount? || w.RetireFree? || w.Dead? || w.Run? then 0 else 1
    case Manager(m) => if m.MStart? && (m.start.SCount? || m.start.SCreate? || m.start.SUndoIdle?) then 1 else 0
    case _ => 0
  }

  /** A worker belongs to the pool from before its creation until it retires. */
  function CountW(pc: Pc): int {
    match pc
    case Worker(w) => if w.RetireFree? || w.Dead? then 0 else 1
    case Posting(h, _) => if h.Some? then 1 else 0
    case Manager(m) =>
      if m.MStart? && (m.start.SCreate? || m.start.SUndoIdle? || m.start.SUndoCount?) then 1 else 0
    case Rest => 0
  }

  /** A worker that has not begun, or whose creation is under way. */
  function PendingW(pc: Pc): int {
    match pc
    case Worker(w) => if w.Born? then 1 else 0
    case Manager(m) => if m.MStart? && (m.start.SIdle? || m.start.SCount? || m.start.SCreate?) then 1 else 0
    case _ => 0
  }

  /** A worker inside `wqlist_scan_spin`. */
  function SpinningW(pc: Pc): int {
    match pc
    case Worker(w) =>
      if w.SpinLeave? || ((w.Read? || w.Lock? || w.Pick? || w.Clear? || w.Unlock?) && w.via == Spinning) then 1 else 0
    case _ => 0
  }

  /** A worker inside the loop of `wqlist_scan_spin`. */
  function LoopingW(pc: Pc): int {
    match pc
    case Worker(w) => One((w.Read? || w.Lock? || w.Pick? || w.Clear? || w.Unlock?) && w.via == Spinning)
    case _ => 0
  }

  /** The scoreboard is exact.  A refused creation takes back `idle` and `count` but never
      `pending_thread_create`. */
  predicate CountersOk(s: State) {
    && s.idle == Total(IdleW, s)
    && s.count == Total(CountW, s)
    && s.pending == Total(PendingW, s) + s.failed
    && s.spinning == Total(SpinningW, s)
    && Total(LoopingW, s) <= s.cfg.spinMax
  }

  predicate PoolMove(s: State, pc: Pc, m: Move) {
    var e := m.effect;
    && (if e.Adjust? then e.idle else 0) == IdleW(m.pc) - IdleW(pc) + Extra(IdleW, s, e)
    && (if e.Adjust? then e.count else 0) == CountW(m.pc) - CountW(pc) + Extra(CountW, s, e)
  }

  predicate CreationMove(s: State, pc: Pc, m: Move) {
    var e := m.effect;
    (if e.Adjust? then e.pending else 0) == PendingW(m.pc) - PendingW(pc) + Extra(PendingW, s, e) + One(e.Refuse?)
  }

  predicate SpinningMove(s: State, pc: Pc, m: Move) {
    var e := m.effect;
    (if e.Adjust? then e.spinning else 0) == SpinningW(m.pc) - SpinningW(pc) + Extra(SpinningW, s, e)
  }

  lemma PoolPlan(s: State, t: nat, c: Choice)
    requires WellShaped(s) && t < |s.threads|
    ensures PoolMove(s, s.threads[t], Plan(s, t, c))
  {
  }

  lemma CreationPlan(s: State, t: nat, c: Choice)
    requires WellShaped(s) && t < |s.threads|
    ensures CreationMove(s, s.threads[t], Plan(s, t, c))
  {
  }

  lemma SpinningPlan(s: State, t: nat, c: Choice)
    requires WellShaped(s) && t < |s.threads|
    ensures SpinningMove(s, s.threads[t], Plan(s, t, c))
  {
  }

  lemma CountersStep(s: State, t: nat, c: Choice)
    requires CanStep(s, t, c) && CountersOk(s)
    ensures CountersOk(Step(s, t, c))
  {
    PoolPlan(s, t, c);
    CreationPlan(s, t, c);
    SpinningPlan(s, t, c);
    TotalStep(IdleW, s, t, c);
    TotalStep(CountW, s, t, c);
    TotalStep(PendingW, s, t, c);
    TotalStep(SpinningW, s, t, c);
    LoopingStep(s, t, c);
  }

  /** A worker enters the spinning loop only while the count of spinners leaves room. */
  lemma LoopingPlan(s: State, t: nat, c: Choice)
    requires WellShaped(s) && t < |s.threads|
    ensures var pc, m := s.threads[t], Plan(s, t, c);
      LoopingW(m.pc) + Extra(LoopingW, s, m.effect) > LoopingW(pc) ==>
        LoopingW(m.pc) == 1 && Extra(LoopingW, s, m.effect) == 0 && s.spinning < s.cfg.spinMax
  {
  }

  lemma LoopingStep(s: State, t: nat, c: Choice)
    requires CanStep(s, t, c) && CountersOk(s)
    ensures Total(LoopingW, Step(s, t, c)) <= s.cfg.spinMax
  {
    LoopingPlan(s, t, c);
    TotalStep(LoopingW, s, t, c);
    SumMonotone(LoopingW, SpinningW, s.threads);
  }

  function BlockedW(pc: Pc): int {
    One(pc == Worker(Blocked))
  }

  function BornW(pc: Pc): int {
    One(pc == Worker(Born))
  }

  /** No counter underflows, every worker blocked on the condition is counted idle, no more
      workers spin than allowed, and created workers that have not begun are counted pending. */
  lemma ScoreboardBounds(s: State)
    requires CountersOk(s)
    ensures 0 <= Total(BlockedW, s) <= s.idle
    ensures 0 <= s.count && 0 <= s.spinning && Total(LoopingW, s) <= s.cfg.spinMax
    ensures 0 <= Total(BornW, s) <= s.pending - s.failed
  {
    SumNonNegative(BlockedW, s.threads);
    SumMonotone(BlockedW, IdleW, s.threads);
    SumNonNegative(CountW, s.threads);
    SumNonNegative(SpinningW, s.threads);
    SumNonNegative(BornW, s.threads);
    SumMonotone(BornW, PendingW, s.threads);
  }
}
