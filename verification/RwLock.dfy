/** The reader/writer lock of src/windows/pthread_rw_lock.h (Windows XP branch).  Its fields are
    touched only under its spin lock, so a step of the protocol is one spin-locked section. */
module RwLock {
  import opened Sums

  /** The fields.  `writer` is `w_id`; -1 stands for no writer and is no thread's id. */
  datatype Word = Word(readers: int, writers: int, waiting: int, writer: int)

  const FREE := Word(0, 0, 0, -1)

  // One section each

  /** The test of rdlock and tryrdlock, and the acquisition when it passes. */
  function ReadSection(w: Word): (Word, bool) {
    if w.writers > 0 || w.waiting != 0 then (w, false) else (w.(readers := w.readers + 1), true)
  }

  /** The test of the wrlock loop, and the acquisition by a waiting writer when it passes. */
  function WriteSection(w: Word, me: nat): (Word, bool) {
    if w.readers > 0 || w.writers > 0 then (w, false)
    else (Word(w.readers, w.writers + 1, w.waiting - 1, me), true)
  }

  function TryWriteSection(w: Word, me: nat): (Word, bool) {
    if w.readers > 0 || w.writers > 0 then (w, false)
    else (w.(writers := w.writers + 1, writer := me), true)
  }

  function UnlockSection(w: Word, me: nat): Word {
    if w.writer == me then w.(writer := -1, writers := w.writers - 1) else w.(readers := w.readers - 1)
  }

  /** The lock as the code has it: fields updated in place, one method for each spin-locked section.
      The ghost sets name the threads that hold the lock and the writers that wait for it. */
  class Lock {
    var r_ct: int
    var w_pending: int
    var w_ct: int
    var w_id: int
    ghost var readers: set<nat>
    ghost var writers: set<nat>
    ghost var waiters: set<nat>

    /** The fields count and name exactly the threads in the sets, and a writer is alone. */
    ghost predicate Valid()
      reads this
    {
      && r_ct == |readers| && w_ct == |writers| && w_pending == |waiters|
      && (if w_id == -1 then writers == {} else 0 <= w_id && writers == {w_id})
      && (writers != {} ==> readers == {})
      && readers !! waiters && writers !! waiters
    }

    ghost predicate Uninvolved(me: nat)
      reads this
    {
      me !in readers && me !in writers && me !in waiters
    }

    ghost function View(): Word
      reads this
    {
      Word(r_ct, w_ct, w_pending, w_id)
    }

    /** Nobody holds a new lock or waits for it, and the fields say so. */
    constructor ()
      ensures Valid() && View() == FREE
      ensures readers == writers == waiters == {} && forall me :: Uninvolved(me)
    {
      r_ct, w_ct, w_pending, w_id := 0, 0, 0, -1;
      readers, writers, waiters := {}, {}, {};
    }

    /** One round of rdlock, or tryrdlock: a reader gets in exactly when nobody writes and no writer
        waits. */
    method TryRead(me: nat) returns (ok: bool)
      requires Valid() && Uninvolved(me)
      modifies this
      ensures Valid() && (View(), ok) == ReadSection(old(View()))
      ensures ok <==> old(writers) == {} && old(waiters) == {}
      ensures readers == (if ok then old(readers) + {me} else old(readers))
      ensures writers == old(writers) && waiters == old(waiters)
    {
      if w_ct > 0 || w_pending != 0 {
        return false;
      }
      r_ct := r_ct + 1;
      readers := readers + {me};
      return true;
    }

    /** The first section of wrlock: the writer announces itself and looks once; it either holds the
        lock alone or waits. */
    method EnterWrite(me: nat) returns (ok: bool)
      requires Valid() && Uninvolved(me)
      modifies this
      ensures Valid() && (View(), ok) == WriteSection(old(View()).(waiting := old(w_pending) + 1), me)
      ensures ok <==> old(readers) == {} && old(writers) == {}
      ensures readers == old(readers)
      ensures writers == (if ok then {me} else old(writers))
      ensures waiters == (if ok then old(waiters) else old(waiters) + {me})
    {
      w_pending := w_pending + 1;
      waiters := waiters + {me};
      ok := RetryWrite(me);
    }

    /** One round of the wrlock loop by a writer that waits. */
    method RetryWrite(me: nat) returns (ok: bool)
      requires Valid() && me in waiters
      modifies this
      ensures Valid() && (View(), ok) == WriteSection(old(View()), me)
      ensures ok <==> old(readers) == {} && old(writers) == {}
      ensures readers == old(readers)
      ensures writers == (if ok then {me} else old(writers))
      ensures waiters == (if ok then old(waiters) - {me} else old(waiters))
    {
      if r_ct > 0 || w_ct > 0 {
        return false;
      }
      w_pending := w_pending - 1;
      w_ct := w_ct + 1;
      w_id := me;
      writers, waiters := {me}, waiters - {me};
      return true;
    }

    /** trywrlock: unlike a reader, it may overtake waiting writers. */
    method TryWrite(me: nat) returns (ok: bool)
      requires Valid() && Uninvolved(me)
      modifies this
      ensures Valid() && (View(), ok) == TryWriteSection(old(View()), me)
      ensures ok <==> old(readers) == {} && old(writers) == {}
      ensures readers == old(readers) && waiters == old(waiters)
      ensures writers == (if ok then {me} else old(writers))
    {
      if r_ct > 0 || w_ct > 0 {
        return false;
      }
      w_ct := w_ct + 1;
      w_id := me;
      writers := {me};
      return true;
    }

    /** unlock by a holder, which is not told whether it reads or writes: exactly that thread leaves,
        from the set it is in. */
    method Unlock(me: nat)
      requires Valid() && (me in readers || me in writers)
      modifies this
      ensures Valid() && View() == UnlockSection(old(View()), me)
      ensures readers == old(readers) - {me} && writers == old(writers) - {me} && waiters == old(waiters)
    {
      if w_id == me {
        w_id := -1;
        w_ct := w_ct - 1;
        writers := {};
      } else {
        r_ct := r_ct - 1;
        readers := readers - {me};
      }
    }
  }

  // The protocol

  datatype Pc = Outside | WantRead | Reading | WantWrite | Writing

  datatype Rw = Rw(word: Word, threads: seq<Pc>)

  /** What thread `t` does: call rdlock or wrlock, go round a waiting loop, try, or unlock. */
  datatype Op = CallRead | RetryRead | CallWrite | RetryWrite | TryRead | TryWrite | Unlock

  datatype Label = Label(t: nat, op: Op)

  /** Threads unlock only what they hold and do not lock again what they hold. */
  predicate Enabled(s: Rw, l: Label) {
    && l.t < |s.threads|
    && match l.op
       case RetryRead => s.threads[l.t].WantRead?
       case RetryWrite => s.threads[l.t].WantWrite?
       case Unlock => s.threads[l.t].Reading? || s.threads[l.t].Writing?
       case _ => s.threads[l.t].Outside?
  }

  function Move(s: Rw, l: Label): (Word, Pc)
    requires Enabled(s, l)
  {
    match l.op
    case CallRead => (s.word, WantRead)
    case RetryRead => var (w, ok) := ReadSection(s.word); (w, if ok then Reading else WantRead)
    case CallWrite =>
      var (w, ok) := WriteSection(s.word.(waiting := s.word.waiting + 1), l.t); (w, if ok then Writing else WantWrite)
    case RetryWrite => var (w, ok) := WriteSection(s.word, l.t); (w, if ok then Writing else WantWrite)
    case TryRead => var (w, ok) := ReadSection(s.word); (w, if ok then Reading else Outside)
    case TryWrite => var (w, ok) := TryWriteSection(s.word, l.t); (w, if ok then Writing else Outside)
    case Unlock => (UnlockSection(s.word, l.t), Outside)
  }

  function Step(s: Rw, l: Label): Rw
    requires Enabled(s, l)
  {
    var (w, pc) := Move(s, l);
    Rw(w, s.threads[l.t := pc])
  }

  function ReadingW(pc: Pc): int { if pc.Reading? then 1 else 0 }

  function WritingW(pc: Pc): int { if pc.Writing? then 1 else 0 }

  function WaitingW(pc: Pc): int { if pc.WantWrite? then 1 else 0 }

  /** The fields describe the holders and the waiting writers exactly, and holders exclude each other. */
  predicate Inv(s: Rw) {
    && s.word.readers == Sum(ReadingW, s.threads)
    && s.word.writers == Sum(WritingW, s.threads)
    && s.word.waiting == Sum(WaitingW, s.threads)
    && s.word.writers <= 1
    && (s.word.writers == 1 ==> s.word.readers == 0)
    && (forall t :: 0 <= t < |s.threads| ==> (s.threads[t].Writing? <==> s.word.writer == t))
    && (s.word.writers == 0 ==> s.word.writer == -1)
  }

  lemma Totals(s: Rw, t: nat)
    requires t < |s.threads|
    ensures ReadingW(s.threads[t]) <= Sum(ReadingW, s.threads)
    ensures WritingW(s.threads[t]) <= Sum(WritingW, s.threads)
    ensures WaitingW(s.threads[t]) <= Sum(WaitingW, s.threads)
  {
    SumAtLeast(ReadingW, s.threads, t);
    SumAtLeast(WritingW, s.threads, t);
    SumAtLeast(WaitingW, s.threads, t);
  }

  lemma InvStep(s: Rw, l: Label)
    requires Enabled(s, l) && Inv(s)
    ensures Inv(Step(s, l))
  {
    var (w, pc) := Move(s, l);
    SumUpdate(ReadingW, s.threads, l.t, pc);
    SumUpdate(WritingW, s.threads, l.t, pc);
    SumUpdate(WaitingW, s.threads, l.t, pc);
    Totals(s, l.t);
    SumNonNegative(ReadingW, s.threads);
    SumNonNegative(WritingW, s.threads);
  }

  /** A thread that appears outside the lock. */
  lemma NewThread(s: Rw)
    requires Inv(s)
    ensures Inv(Rw(s.word, s.threads + [Outside]))
  {
    SumAppend(ReadingW, s.threads, Outside);
    SumAppend(WritingW, s.threads, Outside);
    SumAppend(WaitingW, s.threads, Outside);
    if s.word.writer == |s.threads| {
      SumZero(WritingW, s.threads);
    }
  }

  predicate IsRun(run: seq<Rw>, labels: seq<Label>) {
    && |run| == |labels| + 1
    && run[0].word == FREE
    && (forall t :: 0 <= t < |run[0].threads| ==> run[0].threads[t] == Outside)
    && (forall i :: 0 <= i < |labels| ==> StepAt(run, labels, i))
  }

  predicate StepAt(run: seq<Rw>, labels: seq<Label>, i: nat)
    requires i < |labels| < |run|
  {
    Enabled(run[i], labels[i]) && run[i + 1] == Step(run[i], labels[i])
  }

  lemma {:induction false} Reachable(run: seq<Rw>, labels: seq<Label>, i: nat)
    requires IsRun(run, labels) && i < |run|
    ensures Inv(run[i])
  {
    if i == 0 {
      SumZero(ReadingW, run[0].threads);
      SumZero(WritingW, run[0].threads);
      SumZero(WaitingW, run[0].threads);
    } else {
      Reachable(run, labels, i - 1);
      assert StepAt(run, labels, i - 1);
      InvStep(run[i - 1], labels[i - 1]);
    }
  }

  /** Exclusion in every run: a writer is alone. */
  lemma WriterIsAlone(run: seq<Rw>, labels: seq<Label>, i: nat, t: nat, u: nat)
    requires IsRun(run, labels) && i < |run| && t < |run[i].threads| && u < |run[i].threads| && t != u
    requires run[i].threads[t].Writing?
    ensures !run[i].threads[u].Writing? && !run[i].threads[u].Reading?
  {
    Reachable(run, labels, i);
    Totals(run[i], t);
    Totals(run[i], u);
  }

  /** Unlock always gives back what the thread holds. */
  lemma UnlockReleasesOwn(run: seq<Rw>, labels: seq<Label>, i: nat)
    requires IsRun(run, labels) && i < |labels| && labels[i].op == Unlock
    ensures labels[i].t < |run[i].threads|
    ensures run[i].threads[labels[i].t].Reading? ==>
      run[i + 1].word == run[i].word.(readers := run[i].word.readers - 1) && 0 <= run[i + 1].word.readers
    ensures run[i].threads[labels[i].t].Writing? ==> run[i + 1].word == Word(0, 0, run[i].word.waiting, -1)
  {
    Reachable(run, labels, i);
    assert StepAt(run, labels, i);
    Totals(run[i], labels[i].t);
  }

  /** Thread `t` starts to read in this step. */
  predicate Starts(s: Rw, l: Label, t: nat)
    requires Enabled(s, l)
  {
    t < |s.threads| && !s.threads[t].Reading? && Step(s, l).threads[t].Reading?
  }

  predicate NobodyStarts(s: Rw, l: Label) {
    Enabled(s, l) && forall t :: 0 <= t < |s.threads| ==> !Starts(s, l, t)
  }

  /** A waiting writer keeps new readers out. */
  lemma PendingStep(s: Rw, l: Label)
    requires Enabled(s, l) && Inv(s) && s.word.waiting > 0
    ensures NobodyStarts(s, l)
    ensures Step(s, l).word.readers <= s.word.readers
  {
    Totals(s, l.t);
  }

  /** Writer preference: along any stretch of a run with a writer waiting, no read acquisition
      succeeds and the number of readers never grows. */
  lemma {:induction false} WriterPreference(run: seq<Rw>, labels: seq<Label>, i: nat, j: nat)
    requires IsRun(run, labels) && i <= j < |run|
    requires forall k :: i <= k < j ==> run[k].word.waiting > 0
    ensures run[j].word.readers <= run[i].word.readers
    ensures forall k :: i <= k < j ==> NobodyStarts(run[k], labels[k])
    decreases j
  {
    if i < j {
      WriterPreference(run, labels, i, j - 1);
      Reachable(run, labels, j - 1);
      assert StepAt(run, labels, j - 1);
      PendingStep(run[j - 1], labels[j - 1]);
    }
  }

  /** And when the readers are gone, the next writer to look gets in. */
  lemma WaitingWriterEnters(s: Rw, l: Label)
    requires Enabled(s, l) && Inv(s) && l.op == RetryWrite
    ensures Step(s, l).threads[l.t].Writing? <==> s.word.readers == 0 && s.word.writers == 0
  {
    SumNonNegative(ReadingW, s.threads);
    SumNonNegative(WritingW, s.threads);
  }
}
