/** `pthread_once` and `_pthread_once_raw` (src/windows/pthread_create.h): any number of callers race
    on one word that is 0 (not run), 2 (running) or 1 (done). */
module Once {
  import opened Sums

  /** A caller: about to read the word, holding what it read, about to exchange 0 for 2, inside the
      function, past it but before the word is set to 1, returned, or cancelled inside the function. */
  datatype Pc = Load | Seen(value: int) | Exchange | Inside | Past | Returned | Cancelled

  /** `raw` is the variant without the cleanup handler, whose function is not cancelled.  The counters
      record how often the function was begun, finished and cancelled. */
  datatype Gate = Gate(raw: bool, word: int, threads: seq<Pc>, begun: int, finished: int, cancelled: int)

  /** One atomic action of thread `t`; `cancel` makes a thread inside the function act on a pending
      cancellation, which runs the cleanup handler. */
  datatype Label = Label(t: nat, cancel: bool)

  predicate Enabled(s: Gate, l: Label) {
    l.t < |s.threads| && (l.cancel ==> s.threads[l.t].Inside? && !s.raw)
  }

  function Step(s: Gate, l: Label): Gate
    requires Enabled(s, l)
  {
    var t := l.t;
    match s.threads[t]
    case Load => s.(threads := s.threads[t := Seen(s.word)])
    case Seen(v) => s.(threads := s.threads[t := if v == 1 then Returned else if v == 0 then Exchange else Load])
    case Exchange =>
      if s.word == 0 then s.(word := 2, threads := s.threads[t := Inside], begun := s.begun + 1)
      else s.(threads := s.threads[t := Load])
    case Inside =>
      if l.cancel then s.(word := 0, threads := s.threads[t := Cancelled], cancelled := s.cancelled + 1)
      else s.(threads := s.threads[t := Past], finished := s.finished + 1)
    case Past => s.(word := 1, threads := s.threads[t := Returned])
    case Returned => s
    case Cancelled => s
  }

  function InsideW(pc: Pc): int { if pc.Inside? then 1 else 0 }

  function PastW(pc: Pc): int { if pc.Past? then 1 else 0 }

  predicate CountsOk(s: Gate) {
    && 0 <= s.word <= 2
    && Sum(InsideW, s.threads) + Sum(PastW, s.threads) == (if s.word == 2 then 1 else 0)
    && s.finished == Sum(PastW, s.threads) + (if s.word == 1 then 1 else 0)
    && s.begun == s.finished + Sum(InsideW, s.threads) + s.cancelled
    && 0 <= s.cancelled && (s.raw ==> s.cancelled == 0)
  }

  /** A caller that has seen 1 or returned did so because the function is done. */
  predicate SeenOk(s: Gate) {
    forall t :: 0 <= t < |s.threads| && (s.threads[t].Returned? || s.threads[t] == Seen(1)) ==> s.word == 1
  }

  /** The totals after a step of one thread, and bounds on the totals before it. */
  lemma Totals(s: Gate, l: Label)
    requires Enabled(s, l)
    ensures |Step(s, l).threads| == |s.threads|
    ensures Sum(InsideW, Step(s, l).threads)
      == Sum(InsideW, s.threads) - InsideW(s.threads[l.t]) + InsideW(Step(s, l).threads[l.t])
    ensures Sum(PastW, Step(s, l).threads)
      == Sum(PastW, s.threads) - PastW(s.threads[l.t]) + PastW(Step(s, l).threads[l.t])
    ensures InsideW(s.threads[l.t]) <= Sum(InsideW, s.threads) && PastW(s.threads[l.t]) <= Sum(PastW, s.threads)
  {
    var t, pc := l.t, Step(s, l).threads[l.t];
    assert Step(s, l).threads == s.threads[t := pc];
    SumUpdate(InsideW, s.threads, t, pc);
    SumUpdate(PastW, s.threads, t, pc);
    SumAtLeast(InsideW, s.threads, t);
    SumAtLeast(PastW, s.threads, t);
  }

  predicate Inv(s: Gate) {
    CountsOk(s) && SeenOk(s)
  }

  lemma CountsStep(s: Gate, l: Label)
    requires Enabled(s, l) && CountsOk(s)
    ensures CountsOk(Step(s, l))
    ensures s.word == 1 ==> Step(s, l).word == 1 && Step(s, l).begun == s.begun
  {
    Totals(s, l);
  }

  lemma InvStep(s: Gate, l: Label)
    requires Enabled(s, l) && Inv(s)
    ensures Inv(Step(s, l))
  {
    CountsStep(s, l);
  }

  predicate IsRun(run: seq<Gate>, labels: seq<Label>) {
    && |run| == |labels| + 1
    && run[0].word == run[0].begun == run[0].finished == run[0].cancelled == 0
    && (forall t :: 0 <= t < |run[0].threads| ==> run[0].threads[t] == Load)
    && (forall i :: 0 <= i < |labels| ==> StepAt(run, labels, i))
  }

  predicate StepAt(run: seq<Gate>, labels: seq<Label>, i: nat)
    requires i < |labels| < |run|
  {
    Enabled(run[i], labels[i]) && run[i + 1] == Step(run[i], labels[i])
  }

  lemma {:induction false} Reachable(run: seq<Gate>, labels: seq<Label>, i: nat)
    requires IsRun(run, labels) && i < |run|
    ensures Inv(run[i])
  {
    if i == 0 {
      SumZero(InsideW, run[0].threads);
      SumZero(PastW, run[0].threads);
    } else {
      Reachable(run, labels, i - 1);
      assert StepAt(run, labels, i - 1);
      InvStep(run[i - 1], labels[i - 1]);
    }
  }

  /** At most one caller is inside the function at a time. */
  lemma OneInside(run: seq<Gate>, labels: seq<Label>, i: nat, t: nat, u: nat)
    requires IsRun(run, labels) && i < |run| && t < u < |run[i].threads|
    ensures !(run[i].threads[t].Inside? && run[i].threads[u].Inside?)
  {
    Reachable(run, labels, i);
    SumAtLeastTwo(InsideW, run[i].threads, t, u);
    SumNonNegative(PastW, run[i].threads);
  }

  /** The function finishes at most once, no caller returns before it has, and the raw variant begins
      it at most once. */
  lemma FinishedOnce(run: seq<Gate>, labels: seq<Label>, i: nat, t: nat)
    requires IsRun(run, labels) && i < |run| && t < |run[i].threads|
    ensures 0 <= run[i].finished <= 1
    ensures run[i].threads[t].Returned? ==> run[i].finished == 1
    ensures run[i].raw ==> run[i].begun == (if run[i].word == 0 then 0 else 1)
  {
    Reachable(run, labels, i);
    SumNonNegative(InsideW, run[i].threads);
    SumNonNegative(PastW, run[i].threads);
  }

  /** Once done, always done: the function is never begun again. */
  lemma {:induction false} DoneForever(run: seq<Gate>, labels: seq<Label>, i: nat, j: nat)
    requires IsRun(run, labels) && i <= j < |run| && run[i].word == 1
    ensures run[j].word == 1 && run[j].begun == run[i].begun && run[j].finished == 1
    decreases j
  {
    Reachable(run, labels, j);
    if i < j {
      DoneForever(run, labels, i, j - 1);
      Reachable(run, labels, j - 1);
      assert StepAt(run, labels, j - 1);
      CountsStep(run[j - 1], labels[j - 1]);
    }
    SumNonNegative(InsideW, run[j].threads);
    SumNonNegative(PastW, run[j].threads);
  }

  /** A caller that nobody disturbs: with the word at 0 it enters the function, once it is past the
      function the word is 1 and it returns; with the word at 1 it returns without entering; with the
      word at 2 it looks again. */
  lemma UndisturbedCaller(s: Gate, t: nat)
    requires t < |s.threads| && s.threads[t].Load? && 0 <= s.word <= 2
    ensures
      var l := Label(t, false);
      var a := Step(s, l);
      var b := Step(a, l);
      var c := Step(b, l);
      if s.word == 0 then
        && c.threads == s.threads[t := Inside] && c.word == 2 && c.begun == s.begun + 1
        && var d := Step(Step(c, l), l);
           d.threads == s.threads[t := Returned] && d.word == 1 && d.finished == s.finished + 1
      else if s.word == 1 then b == s.(threads := s.threads[t := Returned])
      else b == s
  {
    var l := Label(t, false);
    var a := Step(s, l);
    var b := Step(a, l);
    assert b.threads[t := Load] == s.threads[t := Load] == s.threads;
  }

  /** Entering the function, in every run: exactly the caller whose exchange finds 0 does. */
  lemma EntersExactly(run: seq<Gate>, labels: seq<Label>, i: nat, t: nat)
    requires IsRun(run, labels) && i < |labels| && t < |run[i].threads| && !run[i].threads[t].Inside?
    ensures |run[i + 1].threads| == |run[i].threads|
    ensures run[i + 1].threads[t].Inside? <==> labels[i].t == t && run[i].threads[t].Exchange? && run[i].word == 0
  {
    assert StepAt(run, labels, i);
  }

  /** A caller is at its exchange because the word it read was 0. */
  lemma {:induction false} ExchangeSawZero(run: seq<Gate>, labels: seq<Label>, j: nat, t: nat) returns (i: nat)
    requires IsRun(run, labels) && j < |run| && t < |run[j].threads|
    requires run[j].threads[t].Exchange? || run[j].threads[t] == Seen(0)
    ensures i < j && labels[i].t == t && t < |run[i].threads| && run[i].threads[t].Load? && run[i].word == 0
  {
    i := j - 1;
    assert StepAt(run, labels, i);
    if !run[i].threads[t].Load? {
      i := ExchangeSawZero(run, labels, i, t);
    }
  }
}
