/** Weighted sums over a sequence of threads or queues.  Every "number of threads such that ..."
    in the models is the sum of a weight over the sequence of threads. */
module Sums {

  /** The total weight of the elements of `s`. */
  function Sum<T>(w: T -> int, s: seq<T>): int {
    if s == [] then 0 else Sum(w, s[..|s| - 1]) + w(s[|s| - 1])
  }

  /** The weight of a queue is its length. */
  function LenW<T>(l: seq<T>): int { |l| }

  /** What left each queue, followed by what is still in it, is what entered it. */
  predicate Fifo<T(==)>(entered: seq<seq<T>>, left: seq<seq<T>>, lists: seq<seq<T>>)
    requires |entered| == |left| == |lists|
  {
    forall q :: 0 <= q < |lists| ==> entered[q] == left[q] + lists[q]
  }

  lemma SumAppend<T>(w: T -> int, s: seq<T>, x: T)
    ensures Sum(w, s + [x]) == Sum(w, s) + w(x)
  {
    assert (s + [x])[..|s|] == s;
  }

  /** The total, split at the front. */
  lemma {:induction false} SumFront<T>(w: T -> int, s: seq<T>)
    requires s != []
    ensures Sum(w, s) == w(s[0]) + Sum(w, s[1..])
  {
    var n := |s| - 1;
    if n > 0 {
      SumFront(w, s[..n]);
      assert s[..n][1..] == s[1..][..n - 1];
    }
  }

  lemma {:induction false} SumUpdate<T>(w: T -> int, s: seq<T>, i: nat, x: T)
    requires i < |s|
    ensures Sum(w, s[i := x]) == Sum(w, s) - w(s[i]) + w(x)
  {
    var n := |s| - 1;
    if i == n {
      assert s[i := x][..n] == s[..n];
    } else {
      SumUpdate(w, s[..n], i, x);
      assert s[i := x][..n] == s[..n][i := x];
    }
  }

  lemma {:induction false} SumNonNegative<T>(w: T -> int, s: seq<T>)
    requires forall i :: 0 <= i < |s| ==> 0 <= w(s[i])
    ensures 0 <= Sum(w, s)
  {
    if s != [] {
      SumNonNegative(w, s[..|s| - 1]);
    }
  }

  /** One element never weighs more than the whole. */
  lemma {:induction false} SumAtLeast<T>(w: T -> int, s: seq<T>, i: nat)
    requires i < |s|
    requires forall j :: 0 <= j < |s| ==> 0 <= w(s[j])
    ensures w(s[i]) <= Sum(w, s)
  {
    var n := |s| - 1;
    if i < n {
      SumAtLeast(w, s[..n], i);
    } else {
      SumNonNegative(w, s[..n]);
    }
  }

  /** Two elements at different positions never weigh more than the whole. */
  lemma {:induction false} SumAtLeastTwo<T>(w: T -> int, s: seq<T>, i: nat, j: nat)
    requires i < j < |s|
    requires forall k :: 0 <= k < |s| ==> 0 <= w(s[k])
    ensures w(s[i]) + w(s[j]) <= Sum(w, s)
  {
    var n := |s| - 1;
    if j < n {
      SumAtLeastTwo(w, s[..n], i, j);
    } else {
      SumAtLeast(w, s[..n], i);
    }
  }

  lemma {:induction false} SumMonotone<T>(v: T -> int, w: T -> int, s: seq<T>)
    requires forall i :: 0 <= i < |s| ==> v(s[i]) <= w(s[i])
    ensures Sum(v, s) <= Sum(w, s)
  {
    if s != [] {
      SumMonotone(v, w, s[..|s| - 1]);
    }
  }

  /** A positive total has a positive element. */
  lemma {:induction false} SumWitness<T>(w: T -> int, s: seq<T>) returns (i: nat)
    requires 0 < Sum(w, s)
    ensures i < |s| && 0 < w(s[i])
  {
    var n := |s| - 1;
    if 0 < w(s[n]) {
      i := n;
    } else {
      i := SumWitness(w, s[..n]);
    }
  }

  /** The elements of a sequence in which every weight is zero weigh nothing. */
  lemma {:induction false} SumZero<T>(w: T -> int, s: seq<T>)
    requires forall i :: 0 <= i < |s| ==> w(s[i]) == 0
    ensures Sum(w, s) == 0
  {
    if s != [] {
      SumZero(w, s[..|s| - 1]);
    }
  }

  function IsW(x: nat): nat -> int {
    y => if x == y then 1 else 0
  }

  /** How often `x` occurs in a queue or history. */
  function TimesW(x: nat): seq<nat> -> int {
    l => Sum(IsW(x), l)
  }

  lemma TimesNonNegative(x: nat, l: seq<nat>)
    ensures 0 <= TimesW(x)(l)
  {
    forall i | 0 <= i < |l| ensures 0 <= IsW(x)(l[i]) {
      assert IsW(x)(l[i]) == if x == l[i] then 1 else 0;
    }
    SumNonNegative(IsW(x), l);
  }
}
