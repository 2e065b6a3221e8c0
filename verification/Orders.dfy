/** Enumerations of a finite set, and when its elements can be put in an order that respects what each waits for. */
module Orders {
  import opened Wrappers

  ghost predicate Enumerates<T(!new)>(s: seq<T>, items: set<T>) {
    NoDup(s) && forall x :: x in s <==> x in items
  }

  /** Any start without repetitions can be completed to an enumeration. */
  lemma Completed<T(!new)>(prefix: seq<T>, items: set<T>) returns (all: seq<T>)
    requires NoDup(prefix) && Elements(prefix) <= items
    ensures Enumerates(all, items) && prefix <= all
    decreases items - Elements(prefix)
  {
    if x :| x in items && x !in prefix {
      assert x in Elements(prefix + [x]) && x !in Elements(prefix);
      assert Elements(prefix + [x]) == Elements(prefix) + {x};
      all := Completed(prefix + [x], items);
    } else {
      all := prefix;
      assert forall y :: y in prefix <==> y in Elements(prefix);
    }
  }

  // --- orders in which every element may come when it does ---

  /** An element that may come once some are visited may come once more of them are. */
  ghost predicate Monotone<T(!new)>(may: (set<T>, T) -> bool) {
    forall some, more, x | some <= more && may(some, x) :: may(more, x)
  }

  ghost predicate InGoodOrder<T>(may: (set<T>, T) -> bool, order: seq<T>) {
    forall k | 0 <= k < |order| :: may(Elements(order[..k]), order[k])
  }

  /** One of the set may come when everything outside it has been visited. */
  ghost predicate Free<T>(may: (set<T>, T) -> bool, items: set<T>, rest: set<T>) {
    exists x :: x in rest && may(items - rest, x)
  }

  /** No set of elements is stuck, each waiting for another of the set. */
  ghost predicate Unblocked<T(!new)>(may: (set<T>, T) -> bool, items: set<T>) {
    forall rest | rest <= items && rest != {} :: Free(may, items, rest)
  }

  lemma GoodOrderSnoc<T>(may: (set<T>, T) -> bool, order: seq<T>, x: T)
    requires InGoodOrder(may, order) && may(Elements(order), x)
    ensures InGoodOrder(may, order + [x])
  {
    forall k | 0 <= k < |order + [x]| ensures may(Elements((order + [x])[..k]), (order + [x])[k]) {
      assert (order + [x])[..k] == order[..k];
      assert order[..|order|] == order;
    }
  }

  lemma GoodOrder<T(!new)>(may: (set<T>, T) -> bool, items: set<T>, visited: seq<T>) returns (order: seq<T>)
    requires Unblocked(may, items) && NoDup(visited) && Elements(visited) <= items && InGoodOrder(may, visited)
    ensures Enumerates(order, items) && InGoodOrder(may, order)
    decreases items - Elements(visited)
  {
    var rest := items - Elements(visited);
    if rest == {} {
      order := visited;
      assert forall x :: x in visited <==> x in Elements(visited);
    } else {
      assert Free(may, items, rest);
      var x :| x in rest && may(items - rest, x);
      assert items - rest == Elements(visited);
      GoodOrderSnoc(may, visited, x);
      assert Elements(visited + [x]) == Elements(visited) + {x};
      order := GoodOrder(may, items, visited + [x]);
    }
  }

  lemma {:induction false} FirstOf<T>(order: seq<T>, rest: set<T>, x: T) returns (k: nat)
    requires x in order && x in rest
    ensures k < |order| && order[k] in rest && forall q | 0 <= q < k :: order[q] !in rest
  {
    if order[0] in rest {
      k := 0;
    } else {
      k := FirstOf(order[1..], rest, x);
      k := k + 1;
      assert forall q | 0 < q < k :: order[q] == order[1..][q - 1];
    }
  }

  lemma FirstIsFree<T(!new)>(may: (set<T>, T) -> bool, items: set<T>, order: seq<T>, rest: set<T>)
    requires Monotone(may) && Enumerates(order, items) && InGoodOrder(may, order) && rest <= items && rest != {}
    ensures Free(may, items, rest)
  {
    var y :| y in rest;
    var k := FirstOf(order, rest, y);
    forall z | z in Elements(order[..k]) ensures z in items - rest {
      var q :| 0 <= q < k && order[q] == z;
      assert z in order;
    }
    assert may(Elements(order[..k]), order[k]);
  }

  /** The elements have a good order exactly when no set of them is stuck. */
  lemma GoodOrderIff<T(!new)>(may: (set<T>, T) -> bool, items: set<T>)
    requires Monotone(may)
    ensures (exists order :: Enumerates(order, items) && InGoodOrder(may, order)) <==> Unblocked(may, items)
  {
    if order :| Enumerates(order, items) && InGoodOrder(may, order) {
      forall rest | rest <= items && rest != {} ensures Free(may, items, rest) {
        FirstIsFree(may, items, order, rest);
      }
    }
    if Unblocked(may, items) {
      var order := GoodOrder(may, items, []);
    }
  }
}
