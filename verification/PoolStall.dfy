/** Runs in which the pool stalls for good after one refused creation at startup. */
module PoolStall {
  import opened PoolModel
  import opened PoolManager
  import opened PoolRuns

  /** A pool with its manager at `m`, these workers, and these counters. */
  function Pool(cfg: Config, m: ManagerPc, workers: seq<Pc>, idle: int, count: int, pending: int, failed: nat): State {
    var none: seq<seq<Item>> := seq(SLOTS, _ => []);
    State(cfg, none, {}, seq(SLOTS, _ => Open), Open, idle, count, pending, 0, 0, [Manager(m)] + workers,
          none, none, 0, multiset{}, multiset{}, 0, 0, 0, failed, false)
  }

  predicate GoodConfig(cfg: Config) {
    cfg.queues != {} && (forall q :: q in cfg.queues ==> q < SLOTS)
  }

  /** The choice under which a creation succeeds or is refused. */
  function Creation(ok: bool): Choice {
    Choice(DoNothing, 0, 0, ok)
  }

  /** A worker about to begin, or at the head of its loop. */
  predicate Fresh(workers: seq<Pc>) {
    forall t :: 0 <= t < |workers| ==> workers[t] == Worker(Born) || workers[t] == Worker(Read(Fast))
  }

  /** `worker_start` for the `k`-th worker up to its creation. */
  lemma StartSteps(cfg: Config, k: nat, workers: seq<Pc>, n: int)
    requires GoodConfig(cfg) && Fresh(workers)
    ensures var to := ToStartup(k);
      && Next(Pool(cfg, MStart(SPending, to), workers, n, n, 0, 0), Pool(cfg, MStart(SIdle, to), workers, n, n, 1, 0))
      && Next(Pool(cfg, MStart(SIdle, to), workers, n, n, 1, 0), Pool(cfg, MStart(SCount, to), workers, n + 1, n, 1, 0))
      && Next(Pool(cfg, MStart(SCount, to), workers, n + 1, n, 1, 0), Pool(cfg, MStart(SCreate, to), workers, n + 1, n + 1, 1, 0))
  {
    var to := ToStartup(k);
    ManagerGoes(cfg, MStart(SPending, to), workers, n, n, 0, 0, false);
    ManagerGoes(cfg, MStart(SIdle, to), workers, n, n, 1, 0, false);
    ManagerGoes(cfg, MStart(SCount, to), workers, n + 1, n, 1, 0, false);
  }

  /** The refused creation and its undo. */
  lemma UndoSteps(cfg: Config, k: nat, workers: seq<Pc>, n: int)
    requires GoodConfig(cfg) && Fresh(workers)
    ensures var to := ToStartup(k);
      && Next(Pool(cfg, MStart(SCreate, to), workers, n + 1, n + 1, 1, 0), Pool(cfg, MStart(SUndoIdle, to), workers, n + 1, n + 1, 1, 1))
      && Next(Pool(cfg, MStart(SUndoIdle, to), workers, n + 1, n + 1, 1, 1), Pool(cfg, MStart(SUndoCount, to), workers, n, n + 1, 1, 1))
      && Next(Pool(cfg, MStart(SUndoCount, to), workers, n, n + 1, 1, 1), Pool(cfg, MStartup(k), workers, n, n, 1, 1))
  {
    var to := ToStartup(k);
    ManagerGoes(cfg, MStart(SCreate, to), workers, n + 1, n + 1, 1, 0, false);
    ManagerGoes(cfg, MStart(SUndoIdle, to), workers, n + 1, n + 1, 1, 1, false);
    ManagerGoes(cfg, MStart(SUndoCount, to), workers, n, n + 1, 1, 1, false);
  }

  /** A step of the manager changes its statement and its counters, and may create a worker. */
  lemma ManagerGoes(cfg: Config, m: ManagerPc, workers: seq<Pc>, idle: int, count: int, pending: int, failed: nat, ok: bool)
    requires GoodConfig(cfg) && Fresh(workers)
    requires m.MStartup? || m.MStart?
    ensures var p := PlanManager(Pool(cfg, m, workers, idle, count, pending, failed), m, Creation(ok));
      var a := if p.effect.Adjust? then p.effect else Adjust(0, 0, 0, 0);
      p.pc.Manager? && a.spinning == 0 &&
      Next(Pool(cfg, m, workers, idle, count, pending, failed),
           Pool(cfg, p.pc.m, if p.effect.Spawn? then workers + [Worker(Born)] else workers,
                idle + a.idle, count + a.count, pending + a.pending, failed + One(p.effect.Refuse?)))
  {
    var s, c := Pool(cfg, m, workers, idle, count, pending, failed), Creation(ok);
    PoolShaped(cfg, m, workers, idle, count, pending, failed);
    var p := PlanManager(s, m, c);
    assert Plan(s, 0, c) == p;
    ManagerThreads(m, workers, p.pc);
    PoolGoes(s, c, p);
  }

  lemma PoolShaped(cfg: Config, m: ManagerPc, workers: seq<Pc>, idle: int, count: int, pending: int, failed: nat)
    requires GoodConfig(cfg) && Fresh(workers)
    ensures WellShaped(Pool(cfg, m, workers, idle, count, pending, failed))
  {
  }

  lemma ManagerThreads(m: ManagerPc, workers: seq<Pc>, pc: Pc)
    ensures ([Manager(m)] + workers)[0 := pc] == [pc] + workers
    ensures [pc] + workers + [Worker(Born)] == [pc] + (workers + [Worker(Born)])
    ensures [pc] + workers + [] == [pc] + workers
  {
  }

  /** What such a step leaves alone. */
  lemma PoolGoes(s: State, c: Choice, p: Move)
    requires WellShaped(s) && 0 < |s.threads| && p == Plan(s, 0, c) && p.pc.Manager?
    requires p.effect.Tau? || (p.effect.Adjust? && p.effect.spinning == 0) || p.effect.Refuse? || p.effect.Spawn?
    ensures var a := if p.effect.Adjust? then p.effect else Adjust(0, 0, 0, 0);
      Next(s, s.(idle := s.idle + a.idle, count := s.count + a.count, pending := s.pending + a.pending,
                 failed := s.failed + One(p.effect.Refuse?),
                 threads := s.threads[0 := p.pc] + if p.effect.Spawn? then [Worker(Born)] else []))
  {
    assert CanStep(s, 0, c);
    assert s.threads[0 := p.pc] + [] == s.threads[0 := p.pc];
    assert Next(s, Step(s, 0, c));
  }

  /** The head of the startup loop. */
  lemma StartupStep(cfg: Config, k: nat, workers: seq<Pc>, n: int, pending: int, failed: nat)
    requires GoodConfig(cfg) && Fresh(workers)
    ensures Next(Pool(cfg, MStartup(k), workers, n, n, pending, failed),
      Pool(cfg, if k < cfg.workerMin then MStart(SPending, ToStartup(k + 1)) else MLoop(0), workers, n, n, pending, failed))
  {
    ManagerGoes(cfg, MStartup(k), workers, n, n, pending, failed, false);
  }

  /** The creation that succeeds, and the new worker's first step. */
  lemma BirthSteps(cfg: Config, k: nat)
    requires GoodConfig(cfg)
    ensures Next(Pool(cfg, MStart(SCreate, ToStartup(k)), [], 1, 1, 1, 0), Pool(cfg, MStartup(k), [Worker(Born)], 1, 1, 1, 0))
    ensures Next(Pool(cfg, MStartup(k), [Worker(Born)], 1, 1, 1, 0), Pool(cfg, MStartup(k), [Worker(Read(Fast))], 1, 1, 0, 0))
  {
    ManagerGoes(cfg, MStart(SCreate, ToStartup(k)), [], 1, 1, 1, 0, true);
    assert [] + [Worker(Born)] == [Worker(Born)];
    WorkerBegins(cfg, MStartup(k));
  }

  lemma WorkerBegins(cfg: Config, m: ManagerPc)
    requires GoodConfig(cfg)
    ensures Next(Pool(cfg, m, [Worker(Born)], 1, 1, 1, 0), Pool(cfg, m, [Worker(Read(Fast))], 1, 1, 0, 0))
  {
    var s, c := Pool(cfg, m, [Worker(Born)], 1, 1, 1, 0), Creation(false);
    assert WellShaped(s) && s.threads[1] == Worker(Born) && CanStep(s, 1, c);
    assert s.threads[1 := Worker(Read(Fast))] == [Manager(m)] + [Worker(Read(Fast))];
    assert Step(s, 1, c) == Pool(cfg, m, [Worker(Read(Fast))], 1, 1, 0, 0);
  }

  /** One worker at startup, whose creation is refused. */
  function EmptyRun(cfg: Config): seq<State> {
    [Pool(cfg, MStartup(0), [], 0, 0, 0, 0)] + Refusal(cfg, 1, [], 0)
  }

  /** `worker_start` for the `k`-th and last worker: refused, undone, and on to the loop. */
  function Refusal(cfg: Config, k: nat, workers: seq<Pc>, n: int): seq<State> {
    var to := ToStartup(k);
    [ Pool(cfg, MStart(SPending, to), workers, n, n, 0, 0),
      Pool(cfg, MStart(SIdle, to), workers, n, n, 1, 0),
      Pool(cfg, MStart(SCount, to), workers, n + 1, n, 1, 0),
      Pool(cfg, MStart(SCreate, to), workers, n + 1, n + 1, 1, 0),
      Pool(cfg, MStart(SUndoIdle, to), workers, n + 1, n + 1, 1, 1),
      Pool(cfg, MStart(SUndoCount, to), workers, n, n + 1, 1, 1),
      Pool(cfg, MStartup(k), workers, n, n, 1, 1),
      Pool(cfg, MLoop(0), workers, n, n, 1, 1) ]
  }

  lemma RefusalSteps(cfg: Config, k: nat, workers: seq<Pc>, n: int, i: nat)
    requires GoodConfig(cfg) && Fresh(workers) && cfg.workerMin == k && i < 7
    ensures Next(Refusal(cfg, k, workers, n)[i], Refusal(cfg, k, workers, n)[i + 1])
  {
    if i < 3 {
      StartSteps(cfg, k, workers, n);
    } else if i < 6 {
      UndoSteps(cfg, k, workers, n);
    } else {
      StartupStep(cfg, k, workers, n, 1, 1);
    }
  }

  /** Two workers at startup: the first is created and begins, the second is refused. */
  function Birth(cfg: Config): seq<State> {
    [ Pool(cfg, MStartup(0), [], 0, 0, 0, 0),
      Pool(cfg, MStart(SPending, ToStartup(1)), [], 0, 0, 0, 0),
      Pool(cfg, MStart(SIdle, ToStartup(1)), [], 0, 0, 1, 0),
      Pool(cfg, MStart(SCount, ToStartup(1)), [], 1, 0, 1, 0),
      Pool(cfg, MStart(SCreate, ToStartup(1)), [], 1, 1, 1, 0),
      Pool(cfg, MStartup(1), [Worker(Born)], 1, 1, 1, 0),
      Pool(cfg, MStartup(1), [Worker(Read(Fast))], 1, 1, 0, 0) ]
  }

  lemma BirthBegins(cfg: Config, i: nat)
    requires GoodConfig(cfg) && 0 < cfg.workerMin && i < 4
    ensures Next(Birth(cfg)[i], Birth(cfg)[i + 1])
  {
    if i == 0 {
      StartupStep(cfg, 0, [], 0, 0, 0);
    } else {
      StartSteps(cfg, 1, [], 0);
    }
  }

  lemma BirthEnds(cfg: Config, i: nat)
    requires GoodConfig(cfg) && 4 <= i < 6
    ensures Next(Birth(cfg)[i], Birth(cfg)[i + 1])
  {
    BirthSteps(cfg, 1);
  }

  function StallRun(cfg: Config): seq<State> {
    Birth(cfg) + Refusal(cfg, 2, [Worker(Read(Fast))], 1)
  }

  lemma Joined(a: seq<State>, b: seq<State>)
    requires a != [] && b != [] && Init(a[0]) && Next(a[|a| - 1], b[0])
    requires forall i :: 0 <= i < |a| - 1 ==> Next(a[i], a[i + 1])
    requires forall i :: 0 <= i < |b| - 1 ==> Next(b[i], b[i + 1])
    ensures IsRun(a + b)
  {
    forall i | 0 <= i < |a + b| - 1 ensures NextAt(a + b, i) {
      if i >= |a| {
        assert Next(b[i - |a|], b[i - |a| + 1]);
      }
    }
  }

  /** For every setting with two startup workers there is a run that ends stalled although a worker is
      there: `pending_thread_create` stays at 1, and while it does, the growth test fails. */
  lemma StallIsReachable(cfg: Config)
    requires GoodConfig(cfg) && cfg.workerMin == 2
    ensures var run := StallRun(cfg);
      && IsRun(run) && Stalled(run[14]) && run[14].threads == [Manager(MLoop(0)), Worker(Read(Fast))]
      && run[14].count == 1 && run[14].pending == 1
  {
    StallRunIsRun(cfg);
    var run, n := StallRun(cfg), Refusal(cfg, 2, [Worker(Read(Fast))], 1);
    assert run[14] == n[7];
  }

  lemma StallRunIsRun(cfg: Config)
    requires GoodConfig(cfg) && cfg.workerMin == 2
    ensures IsRun(StallRun(cfg))
  {
    var worker := [Worker(Read(Fast))];
    forall i | 0 <= i < 6 ensures Next(Birth(cfg)[i], Birth(cfg)[i + 1]) {
      if i < 4 {
        BirthBegins(cfg, i);
      } else {
        BirthEnds(cfg, i);
      }
    }
    forall i | 0 <= i < 7 ensures Next(Refusal(cfg, 2, worker, 1)[i], Refusal(cfg, 2, worker, 1)[i + 1]) {
      RefusalSteps(cfg, 2, worker, 1, i);
    }
    StartupStep(cfg, 1, worker, 1, 0, 0);
    Joined(Birth(cfg), Refusal(cfg, 2, worker, 1));
  }

  /** For every setting with one startup worker there is a run that ends with no worker at all. */
  lemma EmptyIsReachable(cfg: Config)
    requires GoodConfig(cfg) && cfg.workerMin == 1
    ensures var run := EmptyRun(cfg);
      && IsRun(run) && Stalled(run[8]) && Deserted(run[8])
      && run[8].threads == [Manager(MLoop(0))] && run[8].pending == 1
  {
    forall i | 0 <= i < 7 ensures Next(Refusal(cfg, 1, [], 0)[i], Refusal(cfg, 1, [], 0)[i + 1]) {
      RefusalSteps(cfg, 1, [], 0, i);
    }
    StartupStep(cfg, 0, [], 0, 0, 0);
    Joined([Pool(cfg, MStartup(0), [], 0, 0, 0, 0)], Refusal(cfg, 1, [], 0));
  }
}
