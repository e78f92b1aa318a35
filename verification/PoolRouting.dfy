/** Where items go: an item enters the queue it was posted to, once, and no other. */
module PoolRouting {
  import opened Sums
  import opened PoolModel
  import opened PoolItems
  import opened PoolRuns

  /** The thread has item `x` and is on its way to put it into queue `p`. */
  function Bound(x: nat, p: nat, cfg: Config, pc: Pc): int {
    match pc
    case Posting(_, post) => One(PostItem(post).Some? && post.item.id == x && post.q == p)
    case Manager(m) => One(StopItem(m).Some? && m.stop.item.id == x && First(cfg.queues) == p)
    case _ => 0
  }

  function BoundW(x: nat, p: nat, cfg: Config): Pc -> int {
    pc => Bound(x, p, cfg, pc)
  }

  /** How many times item `x` is on its way into queue `p`. */
  function Coming(s: State, x: nat, p: nat): int {
    Total(BoundW(x, p, s.cfg), s)
  }

  /** How many times item `x` has entered queue `p`. */
  function Entered(s: State, x: nat, p: nat): int
    requires p < |s.enqueued|
  {
    Sum(IdW(x), s.enqueued[p])
  }

  /** The queue that the next item of thread `t` is for, when it allocates one: what the client asked
      for, or the first queue for an exit item. */
  function Destination(s: State, t: nat, c: Choice): nat
    requires t < |s.threads|
  {
    if s.threads[t].Manager? then First(s.cfg.queues) else c.q
  }

  /** What one move does to item `x` and queue `p`. */
  predicate RouteMove(s: State, t: nat, c: Choice, m: Move, x: nat, p: nat)
    requires t < |s.threads|
  {
    Bound(x, p, s.cfg, m.pc) + One(m.effect.Enqueue? && m.effect.item.id == x && m.effect.q == p) ==
      Bound(x, p, s.cfg, s.threads[t]) + One(m.effect.Alloc? && s.nextId == x && Destination(s, t, c) == p)
  }

  lemma RouteWorker(s: State, t: nat, c: Choice, x: nat, p: nat)
    requires WellShaped(s) && t < |s.threads| && s.threads[t].Worker?
    ensures RouteMove(s, t, c, Plan(s, t, c), x, p)
  {
  }

  lemma RouteManager(s: State, t: nat, c: Choice, x: nat, p: nat)
    requires WellShaped(s) && t < |s.threads| && s.threads[t].Manager?
    ensures RouteMove(s, t, c, Plan(s, t, c), x, p)
  {
  }

  lemma RoutePlan(s: State, t: nat, c: Choice, x: nat, p: nat)
    requires WellShaped(s) && t < |s.threads|
    ensures RouteMove(s, t, c, Plan(s, t, c), x, p)
  {
    match s.threads[t]
    case Worker(w) => RouteWorker(s, t, c, x, p);
    case Posting(h, post) =>
    case Manager(m) => RouteManager(s, t, c, x, p);
    case Rest =>
  }

  lemma EnteredApply(s: State, t: nat, m: Move, x: nat, p: nat)
    requires WellShaped(s) && t < |s.threads| && Possible(s, m.effect) && p < SLOTS
    ensures Entered(Apply(s, t, m), x, p) ==
      Entered(s, x, p) + One(m.effect.Enqueue? && m.effect.item.id == x && m.effect.q == p)
  {
    if m.effect.Enqueue? && m.effect.q == p {
      SumAppend(IdW(x), s.enqueued[p], m.effect.item);
    }
  }

  /** Every step conserves what comes and has entered, except that an allocation sends a new item to
      its destination. */
  lemma RouteStep(s: State, t: nat, c: Choice, x: nat, p: nat)
    requires CanStep(s, t, c) && p < SLOTS
    ensures Coming(Step(s, t, c), x, p) + Entered(Step(s, t, c), x, p) ==
      Coming(s, x, p) + Entered(s, x, p)
      + One(Plan(s, t, c).effect.Alloc? && s.nextId == x && Destination(s, t, c) == p)
  {
    RoutePlan(s, t, c, x, p);
    EnteredApply(s, t, Plan(s, t, c), x, p);
    TotalStep(BoundW(x, p, s.cfg), s, t, c);
  }

  /** How many times item `x` was ever sent to queue `p`. */
  function Sent(s: State, x: nat, p: nat): int
    requires p < |s.enqueued|
  {
    Coming(s, x, p) + Entered(s, x, p)
  }

  lemma SentNext(s: State, n: State, x: nat, p: nat)
    requires Next(s, n) && p < SLOTS
    ensures |s.enqueued| == |n.enqueued| == SLOTS && s.nextId <= n.nextId
    ensures x < s.nextId || n.nextId <= x ==> Sent(n, x, p) == Sent(s, x, p)
  {
    var t: nat, c: Choice :| CanStep(s, t, c) && n == Step(s, t, c);
    RouteStep(s, t, c, x, p);
  }

  lemma SentAt(run: seq<State>, i: nat, x: nat, p: nat)
    requires IsRun(run) && i + 1 < |run| && p < SLOTS
    ensures |run[i].enqueued| == |run[i + 1].enqueued| == SLOTS && run[i].nextId <= run[i + 1].nextId
    ensures x < run[i].nextId || run[i + 1].nextId <= x ==> Sent(run[i + 1], x, p) == Sent(run[i], x, p)
  {
    assert NextAt(run, i);
    SentNext(run[i], run[i + 1], x, p);
  }

  lemma ShapedAt(run: seq<State>, i: nat)
    requires IsRun(run) && i < |run|
    ensures WellShaped(run[i])
  {
    Reachable(run, i);
  }

  /** An item that does not exist yet was sent nowhere. */
  lemma {:induction false} NotYetSent(run: seq<State>, i: nat, x: nat, p: nat)
    requires IsRun(run) && i < |run| && p < SLOTS && run[i].nextId <= x
    ensures WellShaped(run[i]) && Sent(run[i], x, p) == 0
  {
    ShapedAt(run, i);
    if i == 0 {
      SumZero(BoundW(x, p, run[0].cfg), run[0].threads);
    } else {
      SentAt(run, i - 1, x, p);
      NotYetSent(run, i - 1, x, p);
    }
  }

  /** The step at `i` is a post to queue `c.q`, by a client or by a callback. */
  predicate Posts(run: seq<State>, i: nat, t: nat, c: Choice) {
    && i + 1 < |run| && CanStep(run[i], t, c) && run[i + 1] == Step(run[i], t, c)
    && (run[i].threads[t].Rest? || (run[i].threads[t].Worker? && run[i].threads[t].w.Run?))
    && c.act.DoPost? && c.q in run[i].cfg.queues
  }

  lemma PostSends(run: seq<State>, i: nat, t: nat, c: Choice, p: nat)
    requires IsRun(run) && Posts(run, i, t, c) && p < SLOTS
    ensures WellShaped(run[i + 1]) && run[i].nextId < run[i + 1].nextId
    ensures Sent(run[i + 1], run[i].nextId, p) == One(p == c.q)
  {
    ShapedAt(run, i + 1);
    NotYetSent(run, i, run[i].nextId, p);
    RouteStep(run[i], t, c, run[i].nextId, p);
  }

  /** A post, in every run: from then on the new item is on its way into the queue asked for or has
      entered it, once, and no other queue ever sees it. */
  lemma {:induction false} PostReachesItsQueue(run: seq<State>, i: nat, t: nat, c: Choice, j: nat, p: nat)
    requires IsRun(run) && Posts(run, i, t, c) && i < j < |run| && p < SLOTS
    ensures WellShaped(run[j]) && run[i].nextId < run[j].nextId
    ensures Coming(run[j], run[i].nextId, p) + Entered(run[j], run[i].nextId, p) == One(p == c.q)
    decreases j
  {
    ShapedAt(run, j);
    if j == i + 1 {
      PostSends(run, i, t, c, p);
    } else {
      PostReachesItsQueue(run, i, t, c, j - 1, p);
      SentAt(run, j - 1, run[i].nextId, p);
    }
  }

  /** Nobody but the poster carries the item. */
  predicate OthersFree(s: State, x: nat, t: nat, p: nat) {
    forall u :: 0 <= u < |s.threads| && u != t ==> Bound(x, p, s.cfg, s.threads[u]) == 0
  }

  lemma OthersFreeNext(s: State, n: State, x: nat, t: nat, p: nat)
    requires Next(s, n) && x < s.nextId && OthersFree(s, x, t, p)
    ensures OthersFree(n, x, t, p)
  {
    var v: nat, c: Choice :| CanStep(s, v, c) && n == Step(s, v, c);
    RoutePlan(s, v, c, x, p);
    forall u | 0 <= u < |n.threads| && u != t ensures Bound(x, p, n.cfg, n.threads[u]) == 0 {
      ThreadAfter(s, v, Plan(s, v, c), u);
    }
  }

  lemma OthersFreeAtPost(run: seq<State>, i: nat, t: nat, c: Choice, p: nat)
    requires IsRun(run) && Posts(run, i, t, c) && p < SLOTS
    ensures OthersFree(run[i + 1], run[i].nextId, t, p)
  {
    var s, n, x := run[i], run[i + 1], run[i].nextId;
    NotYetSent(run, i, x, p);
    SumNonNegative(IdW(x), s.enqueued[p]);
    forall u | 0 <= u < |n.threads| && u != t ensures Bound(x, p, s.cfg, n.threads[u]) == 0 {
      ThreadAfter(s, t, Plan(s, t, c), u);
      if u < |s.threads| {
        SumAtLeast(BoundW(x, p, s.cfg), s.threads, u);
      }
    }
  }

  lemma {:induction false} OnlyPosterCarries(run: seq<State>, i: nat, t: nat, c: Choice, j: nat, p: nat)
    requires IsRun(run) && Posts(run, i, t, c) && i < j < |run| && p < SLOTS
    ensures OthersFree(run[j], run[i].nextId, t, p)
    decreases j
  {
    if j == i + 1 {
      OthersFreeAtPost(run, i, t, c, p);
    } else {
      OnlyPosterCarries(run, i, t, c, j - 1, p);
      PostReachesItsQueue(run, i, t, c, j - 1, p);
      assert NextAt(run, j - 1);
      OthersFreeNext(run[j - 1], run[j], run[i].nextId, t, p);
    }
  }

  /** When the poster has put the item down, the history of the queue asked for has the item once, and
      that of every other queue does not have it. */
  lemma PostedIsEntered(run: seq<State>, i: nat, t: nat, c: Choice, j: nat, p: nat)
    requires IsRun(run) && Posts(run, i, t, c) && i < j < |run| && p < SLOTS && t < |run[j].threads|
    requires run[j].threads[t].Posting? ==> PostItem(run[j].threads[t].post).None?
    ensures WellShaped(run[j]) && Entered(run[j], run[i].nextId, p) == One(p == c.q)
  {
    var x := run[i].nextId;
    PostReachesItsQueue(run, i, t, c, j, p);
    OnlyPosterCarries(run, i, t, c, j, p);
    PosterIsNoManager(run, i, t, c, j);
    SumZero(BoundW(x, p, run[j].cfg), run[j].threads);
  }

  lemma PosterIsNoManager(run: seq<State>, i: nat, t: nat, c: Choice, j: nat)
    requires IsRun(run) && Posts(run, i, t, c) && i < j < |run| && t < |run[j].threads|
    ensures !run[j].threads[t].Manager?
  {
    Reachable(run, i);
    Reachable(run, j);
  }

  /** Entering is the only thing a step does to the histories of what entered: one item at the end of
      one queue, and the others stay. */
  lemma EntersAtEnd(run: seq<State>, j: nat, x: nat, p: nat) returns (item: Item)
    requires IsRun(run) && j + 1 < |run| && p < SLOTS && WellShaped(run[j]) && WellShaped(run[j + 1])
    requires Entered(run[j], x, p) < Entered(run[j + 1], x, p)
    ensures item.id == x && run[j + 1].enqueued == run[j].enqueued[p := run[j].enqueued[p] + [item]]
  {
    assert NextAt(run, j);
    var t: nat, c: Choice :| CanStep(run[j], t, c) && run[j + 1] == Step(run[j], t, c);
    var m := Plan(run[j], t, c);
    EnteredApply(run[j], t, m, x, p);
    item := m.effect.item;
  }
}
