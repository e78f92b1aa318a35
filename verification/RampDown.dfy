/** Ramp-down: how the manager sheds idle workers, one timer tick at a time (src/posix/manager.c,
    `manager_main`).  Here `idle` stays fixed during a tick and the posted exit items are taken
    between ticks; the racy reads of the running pool are in `PoolModel`. */
module RampDown {
  import PM = PoolModel

  /** The manager's accumulator and the number of idle workers. */
  datatype Ramp = Ramp(acc: nat, idle: nat)

  /** How many workers one tick tells to leave, in unbounded arithmetic. */
  function Stops(r: Ramp, threshold: nat): (n: nat)
    ensures n <= r.idle && (r.idle >= threshold ==> r.idle - n >= threshold)
  {
    if r.idle <= threshold then 0 else PM.Min((r.acc + r.idle) / PM.IDLE_SECONDS, r.idle - threshold)
  }

  function NewAcc(r: Ramp, threshold: nat): nat {
    if r.idle <= threshold || r.acc + r.idle >= PM.IDLE_SECONDS then 0 else r.acc + r.idle
  }

  /** One tick, after which the workers told to leave have left. */
  function Tick(r: Ramp, threshold: nat): Ramp {
    Ramp(NewAcc(r, threshold), r.idle - Stops(r, threshold))
  }

  function Ticks(r: Ramp, threshold: nat, n: nat): Ramp
    decreases n
  {
    if n == 0 then r else Ticks(Tick(r, threshold), threshold, n - 1)
  }

  /** What holds between ticks: the accumulator stays below the limit, and adding the idle workers to it
      fits an `unsigned int`. */
  predicate Calm(r: Ramp) {
    r.acc < PM.IDLE_SECONDS && r.acc + r.idle < PM.UINT
  }

  /** An upper bound on the ticks still needed. */
  function Distance(r: Ramp, threshold: nat): int {
    PM.IDLE_SECONDS * (r.idle - threshold) - r.acc
  }

  lemma TickProgress(r: Ramp, threshold: nat)
    requires r.acc < PM.IDLE_SECONDS && threshold <= r.idle
    ensures Tick(r, threshold).acc < PM.IDLE_SECONDS && threshold <= Tick(r, threshold).idle <= r.idle
    ensures Calm(r) ==> Calm(Tick(r, threshold))
    ensures r.idle > threshold ==> Distance(Tick(r, threshold), threshold) < Distance(r, threshold)
    ensures r.idle == threshold ==> Tick(r, threshold) == Ramp(0, threshold)
  {
    if r.idle > threshold && r.acc + r.idle >= PM.IDLE_SECONDS {
      assert (r.acc + r.idle) / PM.IDLE_SECONDS >= 1;
      assert Stops(r, threshold) >= 1;
    }
  }

  /** From any accumulator a tick can leave and any pool at or above the threshold: the pool never drops
      below the threshold, the accumulator stays under the limit, and after 15 ticks for each surplus
      worker the pool is at exactly the threshold, where it stays. */
  lemma Converges(r: Ramp, threshold: nat, n: nat)
    requires r.acc < PM.IDLE_SECONDS && threshold <= r.idle
    ensures Ticks(r, threshold, n).acc < PM.IDLE_SECONDS && threshold <= Ticks(r, threshold, n).idle
    ensures n >= PM.IDLE_SECONDS * (r.idle - threshold) ==> Ticks(r, threshold, n).idle == threshold
  {
    DistanceFalls(r, threshold, n);
  }

  lemma {:induction false} DistanceFalls(r: Ramp, threshold: nat, n: nat)
    requires r.acc < PM.IDLE_SECONDS && threshold <= r.idle
    ensures Ticks(r, threshold, n).acc < PM.IDLE_SECONDS && threshold <= Ticks(r, threshold, n).idle
    ensures n >= Distance(r, threshold) ==> Ticks(r, threshold, n).idle == threshold
    decreases n
  {
    if n > 0 {
      TickProgress(r, threshold);
      DistanceFalls(Tick(r, threshold), threshold, n - 1);
    }
  }

  /** The variables of `manager_main` that ramp-down uses, with the exit items it has posted. */
  class Manager {
    const threshold: nat
    var accumulated: nat
    var idle: nat
    var posted: nat

    ghost predicate Valid()
      reads this
    {
      threshold < PM.UINT && Calm(View()) && posted == 0
    }

    ghost function View(): Ramp
      reads this
    {
      Ramp(accumulated, idle)
    }

    constructor (threshold: nat, idle: nat)
      requires threshold < PM.UINT && idle < PM.UINT
      ensures Valid() && this.threshold == threshold && View() == Ramp(0, idle)
    {
      this.threshold := threshold;
      accumulated, this.idle, posted := 0, idle, 0;
    }

    /** worker_stop. */
    method WorkerStop()
      modifies this`posted
      ensures posted == old(posted) + 1
    {
      posted := posted + 1;
    }

    /** The timer tick, with the wrap-around of `unsigned int`.  The surplus is computed only when
        there is one, so its subtraction does not wrap, and the test inside the loop never fails. */
    method TimerTick() returns (surplus: nat)
      requires Valid()
      modifies this
      ensures idle == old(idle) && accumulated == NewAcc(old(View()), threshold)
      ensures posted == Stops(old(View()), threshold)
      ensures posted > 0 ==> surplus == idle - threshold
    {
      surplus := 0;
      if idle > threshold {
        accumulated := (accumulated + idle) % PM.UINT;
      } else {
        accumulated := 0;
      }
      var max := accumulated / PM.IDLE_SECONDS;
      if max > 0 {
        accumulated := 0;
        surplus := (idle - threshold) % PM.UINT;
        if max > surplus {
          max := surplus;
        }
        for i := 0 to max
          invariant posted == i && idle == old(idle) && accumulated == 0
        {
          if idle > threshold {
            WorkerStop();
          }
        }
      }
    }

    /** The workers that took the exit items are gone. */
    method Drain()
      requires posted <= idle
      modifies this
      ensures posted == 0 && idle == old(idle) - old(posted) && accumulated == old(accumulated)
    {
      idle, posted := idle - posted, 0;
    }

    /** A tick and its drain is one step of `Tick`. */
    method Cycle()
      requires Valid() && threshold <= idle
      modifies this
      ensures Valid() && threshold <= idle && View() == Tick(old(View()), threshold)
    {
      TickProgress(View(), threshold);
      var _ := TimerTick();
      Drain();
    }
  }

  /** The manager of the running pool computes the same when no worker interferes: its statements
      from the first test to the loop yield exactly `NewAcc` and `Stops`. */
  lemma PoolManagerAgrees(s: PM.State, acc: nat, c: PM.Choice)
    requires 0 <= s.idle && Calm(Ramp(acc, s.idle)) && s.cfg.threshold < PM.UINT
    ensures
      var r := Ramp(acc, s.idle);
      var d1 := PM.Decide(s, PM.DTest(acc), c);
      var d2 := PM.Decide(s, d1, c);
      var d3 := PM.Decide(s, d2, c);
      if s.idle <= s.cfg.threshold then d1 == PM.MLoop(NewAcc(r, s.cfg.threshold)) && Stops(r, s.cfg.threshold) == 0
      else if acc + s.idle < PM.IDLE_SECONDS then d2 == PM.MLoop(NewAcc(r, s.cfg.threshold)) && Stops(r, s.cfg.threshold) == 0
      else d3 == PM.DLoop(0, Stops(r, s.cfg.threshold)) && NewAcc(r, s.cfg.threshold) == 0
  {
    var sum := acc + s.idle;
    if s.idle > s.cfg.threshold && sum >= PM.IDLE_SECONDS {
      assert sum < PM.UINT;
      assert sum / PM.IDLE_SECONDS >= 1;
    }
  }
}
