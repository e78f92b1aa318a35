/** The singly-linked tail queue of src/windows/queue.h.  `stqh_last` is the address of a pointer: that
    of the head's own `stqh_first` when the queue is empty, otherwise that of the last node's next
    field.  Each macro is a method on the pointers; its contract is the operation on sequences. */
module StailQueue {

  class Node {
    var next: Node?

    constructor ()
      ensures next == null
    {
      next := null;
    }
  }

  /** The address of a pointer that a tail may hold. */
  datatype Slot = FirstOf(head: Head) | NextOf(node: Node)

  /** The node at position `i`, or null past the end. */
  ghost function At(s: seq<Node>, i: nat): Node? {
    if i < |s| then s[i] else null
  }

  /** Following next pointers from `first` visits the nodes of `s` and ends. */
  ghost predicate Chain(first: Node?, s: seq<Node>)
    reads s
  {
    first == At(s, 0) && forall i :: 0 <= i < |s| ==> s[i].next == At(s, i + 1)
  }

  /** A chain that ends visits no node twice. */
  lemma {:induction false} ChainDistinct(first: Node?, s: seq<Node>, i: nat, j: nat)
    requires Chain(first, s) && i < j < |s|
    ensures s[i] != s[j]
    decreases |s| - j
  {
    if s[i] == s[j] {
      assert At(s, i + 1) == At(s, j + 1);
      if j + 1 < |s| {
        ChainDistinct(first, s, i + 1, j + 1);
      }
    }
  }

  /** `s` without the node at position `k`. */
  ghost function Without(s: seq<Node>, k: nat): (r: seq<Node>)
    requires k < |s|
    ensures |r| == |s| - 1
    ensures forall i :: 0 <= i < |r| ==> r[i] == s[if i < k then i else i + 1]
  {
    s[..k] + s[k + 1..]
  }

  /** A chain in which node `k` skips its successor is the chain without it. */
  lemma ChainWithout(first: Node?, s: seq<Node>, k: nat)
    requires k + 1 < |s| && first == At(s, 0) && s[k].next == At(s, k + 2)
    requires forall i :: 0 <= i < |s| && i != k ==> s[i].next == At(s, i + 1)
    ensures Chain(first, Without(s, k + 1))
  {
    var n := Without(s, k + 1);
    forall i | 0 <= i < |n| ensures n[i].next == At(n, i + 1) {
      assert n[i] == s[if i <= k then i else i + 1];
    }
  }

  class Head {
    var first: Node?
    var last: Slot
    ghost var elems: seq<Node>

    /** The list hanging from `first` is `elems`, and `last` addresses its end. */
    ghost predicate Valid()
      reads this, elems
    {
      Chain(first, elems) && last == (if elems == [] then FirstOf(this) else NextOf(elems[|elems| - 1]))
    }

    /** STAILQ_INIT. */
    constructor ()
      ensures Valid() && elems == []
    {
      first := null;
      last := FirstOf(this);
      elems := [];
    }

    /** STAILQ_INIT on a head in use: the nodes are let go. */
    method Reset()
      modifies this
      ensures Valid() && elems == []
    {
      first := null;
      last := FirstOf(this);
      elems := [];
    }

    /** STAILQ_EMPTY. */
    method IsEmpty() returns (empty: bool)
      requires Valid()
      ensures empty <==> elems == []
    {
      empty := first == null;
    }

    /** The store `*stqh_last = x`. */
    method StoreLast(x: Node?)
      modifies if last.FirstOf? then {last.head as object} else {last.node as object}
      ensures last == old(last) && elems == old(elems)
      ensures last.FirstOf? ==> last.head.first == x && last.head.last == old(last.head.last) && last.head.elems == old(last.head.elems)
      ensures last.NextOf? ==> last.node.next == x
    {
      match last
      case FirstOf(h) => h.first := x;
      case NextOf(n) => n.next := x;
    }

    /** STAILQ_INSERT_TAIL. */
    method InsertTail(elm: Node)
      requires Valid() && elm !in elems
      modifies this, elems, elm
      ensures Valid() && elems == old(elems) + [elm]
    {
      elm.next := null;
      StoreLast(elm);
      last := NextOf(elm);
      elems := elems + [elm];
    }

    /** STAILQ_REMOVE_HEAD. */
    method RemoveHead()
      requires Valid() && elems != []
      modifies this
      ensures Valid() && elems == old(elems)[1..]
    {
      first := first.next;
      if first == null {
        last := FirstOf(this);
      }
      elems := elems[1..];
    }

    /** STAILQ_REMOVE_AFTER. */
    method RemoveAfter(elm: Node, ghost k: nat)
      requires Valid() && k + 1 < |elems| && elems[k] == elm
      modifies this, elm
      ensures Valid() && elems == Without(old(elems), k + 1)
    {
      ghost var was := elems;
      forall i | 0 <= i < |was| && i != k ensures was[i] != elm {
        ChainDistinct(first, was, if i < k then i else k, if i < k then k else i);
      }
      assert elm.next == At(was, k + 1) && was[k + 1].next == At(was, k + 2);
      elm.next := elm.next.next;
      if elm.next == null {
        last := NextOf(elm);
      }
      elems := Without(was, k + 1);
      ChainWithout(first, was, k);
    }

    /** STAILQ_REMOVE: find the predecessor by walking the list. */
    method Remove(elm: Node, ghost k: nat)
      requires Valid() && k < |elems| && elems[k] == elm
      modifies this, elems
      ensures Valid() && elems == Without(old(elems), k)
    {
      if k > 0 {
        ChainDistinct(first, elems, 0, k);
      }
      if first == elm {
        RemoveHead();
      } else {
        var cur := first;
        ghost var i := 0;
        while cur.next != elm
          invariant 0 <= i < k && cur == elems[i]
          decreases k - i
        {
          assert elems[i].next == At(elems, i + 1) && elems[i + 1] != elm;
          cur := cur.next;
          i := i + 1;
        }
        if i + 1 < k {
          ChainDistinct(first, elems, i + 1, k);
        }
        RemoveAfter(cur, i);
      }
    }

    /** STAILQ_CONCAT. */
    method Concat(other: Head)
      requires Valid() && other.Valid() && this != other
      requires forall i, j :: 0 <= i < |elems| && 0 <= j < |other.elems| ==> elems[i] != other.elems[j]
      modifies this, elems, other
      ensures Valid() && elems == old(elems) + old(other.elems)
      ensures other.Valid() && other.elems == []
    {
      if other.first != null {
        ghost var a, b := elems, other.elems;
        StoreLast(other.first);
        assert Chain(other.first, b);
        assert forall i :: 0 <= i < |a| ==> a[i].next == At(a + b, i + 1);
        last := other.last;
        elems := a + b;
        other.Reset();
      }
    }

    /** STAILQ_SWAP: an exchanged tail may address the other head and is then set right. */
    method Swap(other: Head)
      requires Valid() && other.Valid() && this != other
      modifies this, other
      ensures Valid() && elems == old(other.elems)
      ensures other.Valid() && other.elems == old(elems)
    {
      var swapFirst, swapLast := first, last;
      first := other.first;
      last := other.last;
      other.first := swapFirst;
      other.last := swapLast;
      if first == null {
        last := FirstOf(this);
      }
      if other.first == null {
        other.last := FirstOf(other);
      }
      elems, other.elems := other.elems, elems;
    }
  }
}
