/** The thread-specific work item cache of src/witem_cache.c (type 3) against plain malloc and free
    (type 1).  Each thread keeps a list of free items through `wi_next`; any thread may free what
    another one allocated. */
module WitemCache {

  /** struct work.  A null function is 0. */
  class Work {
    var gencount: int
    var flags: int
    var next: Work?
    var func: int
    var arg: int
    var wi_next: Work?

    constructor ()
      ensures Clean()
    {
      gencount, flags, next := 0, 0, null;
    }

    /** The fields that every allocation promises. */
    ghost predicate Clean()
      reads this
    {
      gencount == 0 && flags == 0 && next == null
    }
  }

  /** The item at position `i`, or null past the end. */
  ghost function At(l: seq<Work>, i: nat): Work? {
    if i < |l| then l[i] else null
  }

  class Cache {
    /** The value under `witem_cache_key` of each thread. */
    var heads: seq<Work?>
    /** The same lists as sequences, and the set of all cached items. */
    ghost var lists: seq<seq<Work>>
    ghost var cached: set<Work>
    /** What malloc and free alone would show: items in use, and items given back to the heap. */
    ghost var live: set<Work>
    ghost var returned: set<Work>
    /** Where each cached item is, counted from the end of its list: no item is cached twice. */
    ghost var place: map<Work, (nat, nat)>

    /** A cached item is in one place, is not in use and has not been given back; its list is linked
        and it is ready for use. */
    ghost predicate Valid()
      reads this, cached
    {
      && |heads| == |lists|
      && (forall t :: 0 <= t < |lists| ==> heads[t] == At(lists[t], 0))
      && (forall t, i :: 0 <= t < |lists| && 0 <= i < |lists[t]| ==> Placed(t, i))
      && (forall t, i :: 0 <= t < |lists| && 0 <= i < |lists[t]| ==> Linked(t, i))
      && cached !! live && cached !! returned && live !! returned
    }

    ghost predicate Placed(t: nat, i: nat)
      requires t < |lists| && i < |lists[t]|
      reads `lists, `cached, `place
    {
      lists[t][i] in cached && lists[t][i] in place && place[lists[t][i]] == (t, |lists[t]| - i)
    }

    ghost predicate Linked(t: nat, i: nat)
      requires t < |lists| && i < |lists[t]|
      reads `lists, `cached, cached
    {
      lists[t][i] in cached && lists[t][i].Clean() && lists[t][i].wi_next == At(lists[t], i + 1)
    }

    constructor (threads: nat)
      ensures Valid() && |lists| == threads && live == returned == {}
      ensures forall t :: 0 <= t < threads ==> lists[t] == []
    {
      heads := seq(threads, _ => null);
      lists := seq(threads, _ => []);
      cached, live, returned, place := {}, {}, {}, map[];
    }

    /** The free lists are acyclic and pairwise disjoint. */
    lemma CachedOnce(t: nat, i: nat, u: nat, j: nat)
      requires Valid() && t < |lists| && i < |lists[t]| && u < |lists| && j < |lists[u]|
      requires lists[t][i] == lists[u][j]
      ensures t == u && i == j && lists[t][i] !in live
    {
      assert Placed(t, i) && Placed(u, j);
    }

    /** Reading the thread's key and setting it to the next item: the head leaves the list. */
    method Pop(t: nat) returns (w: Work)
      requires Valid() && t < |lists| && heads[t] != null
      modifies this
      ensures Valid() && old(lists[t]) != [] && w == old(lists[t])[0] && w in old(cached) && w.Clean()
      ensures lists == old(lists)[t := old(lists[t])[1..]] && cached == old(cached) - {w}
      ensures live == old(live) && returned == old(returned)
    {
      w := heads[t];
      ghost var was := lists;
      assert lists[t] != [] && Placed(t, 0) && Linked(t, 0);
      heads := heads[t := w.wi_next];
      lists := lists[t := lists[t][1..]];
      cached := cached - {w};
      forall u, i | 0 <= u < |lists| && 0 <= i < |lists[u]| ensures Placed(u, i) && Linked(u, i) {
        var k := if u == t then i + 1 else i;
        assert lists[u][i] == was[u][k];
        assert old(Placed(u, k)) && old(Linked(u, k));
      }
    }

    /** Linking an item before the head and setting the thread's key to it. */
    method Push(t: nat, w: Work)
      requires Valid() && t < |lists| && w !in cached && w !in live && w !in returned
      modifies this, w
      ensures Valid() && lists == old(lists)[t := [w] + old(lists[t])] && cached == old(cached) + {w}
      ensures live == old(live) && returned == old(returned)
    {
      ghost var was := lists;
      w.wi_next := heads[t];
      w.gencount, w.flags, w.next, w.func, w.arg := 0, 0, null, 0, 0;
      heads := heads[t := w];
      place := place[w := (t, |lists[t]| + 1)];
      lists := lists[t := [w] + lists[t]];
      cached := cached + {w};
      forall u, i | 0 <= u < |lists| && 0 <= i < |lists[u]| ensures Placed(u, i) && Linked(u, i) {
        if u != t || i > 0 {
          var k := if u == t then i - 1 else i;
          assert lists[u][i] == was[u][k];
          assert old(Placed(u, k)) && old(Linked(u, k));
        }
      }
    }

    /** witem_alloc: the caller cannot tell a cached item from a new one. */
    method Alloc(t: nat, func: int, arg: int) returns (w: Work)
      requires Valid() && t < |lists|
      modifies this, cached
      ensures Valid()
      ensures w !in old(live) && w !in old(returned)
      ensures live == old(live) + {w} && returned == old(returned)
      ensures w.Clean() && w.func == func && w.arg == arg
      ensures old(lists[t]) == [] ==> fresh(w) && lists == old(lists)
      ensures old(lists[t]) != [] ==> w == old(lists[t])[0] && lists == old(lists)[t := old(lists[t])[1..]]
    {
      if heads[t] != null {
        w := Pop(t);
      } else {
        w := new Work();
      }
      w.func := func;
      w.arg := arg;
      live := live + {w};
    }

    /** witem_free, by any thread. */
    method Free(t: nat, w: Work)
      requires Valid() && t < |lists| && w in live
      modifies this, w
      ensures Valid()
      ensures live == old(live) - {w} && returned == old(returned)
      ensures lists == old(lists)[t := [w] + old(lists[t])]
    {
      live := live - {w};
      Push(t, w);
    }

    /** witem_cache_cleanup, called with the thread's value after its key was cleared.  `freed` is what
        was passed to free, in order. */
    method Cleanup(t: nat) returns (freed: seq<Work>)
      requires Valid() && t < |lists|
      modifies this
      ensures Valid() && freed == old(lists[t])
      ensures forall i, j :: 0 <= i < j < |freed| ==> freed[i] != freed[j]
      ensures forall i :: 0 <= i < |freed| ==> freed[i] !in old(live) && freed[i] !in old(returned)
      ensures lists == old(lists)[t := []] && live == old(live)
      ensures returned == old(returned) + set i | 0 <= i < |freed| :: freed[i]
    {
      ghost var all := lists[t];
      Distinct(t);
      freed := [];
      while heads[t] != null
        invariant Valid() && |lists| == |old(lists)|
        invariant |freed| <= |all| && freed == all[..|freed|] && lists[t] == all[|freed|..]
        invariant lists == old(lists)[t := lists[t]] && live == old(live)
        invariant returned == old(returned) + set i | 0 <= i < |freed| :: freed[i]
        decreases |lists[t]|
      {
        var w := Pop(t);
        freed := freed + [w];
        returned := returned + {w};
      }
    }

    lemma Distinct(t: nat)
      requires Valid() && t < |lists|
      ensures forall i, j :: 0 <= i < j < |lists[t]| ==> lists[t][i] != lists[t][j]
      ensures forall i :: 0 <= i < |lists[t]| ==> lists[t][i] !in live && lists[t][i] !in returned
    {
      forall i, j | 0 <= i < j < |lists[t]| ensures lists[t][i] != lists[t][j] {
        assert Placed(t, i) && Placed(t, j);
      }
      forall i | 0 <= i < |lists[t]| ensures lists[t][i] !in live && lists[t][i] !in returned {
        assert Placed(t, i);
      }
    }
  }
}
