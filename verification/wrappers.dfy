// Option and Result, and the one fact about hash iteration the rest relies on.
module Wrappers {

  datatype Option<+T> = None | Some(value: T)

  datatype Result<+T, +E> = Ok(value: T) | Err(error: E)

  /** `order` lists every element of `s` exactly once. This is all that is assumed of the order
      in which a hash set, or the keys of a hash map, are iterated. */
  ghost predicate Lists<T>(order: seq<T>, s: set<T>) {
    && (forall i, j | 0 <= i < j < |order| :: order[i] != order[j])
    && (forall i | 0 <= i < |order| :: order[i] in s)
    && (forall x | x in s :: x in order)
  }

  lemma ListsAppend<T>(order: seq<T>, s: set<T>, x: T)
    requires Lists(order, s) && x !in s
    ensures Lists(order + [x], s + {x})
  {
    var longer := order + [x];
    forall y | y in s + {x}
      ensures y in longer
    {
      if y == x { assert longer[|order|] == x; } else { assert y in order; }
    }
  }

  /** The first element of a listing heads a listing of what is left. */
  lemma ListsTail<T>(order: seq<T>, s: set<T>)
    requires Lists(order, s) && order != []
    ensures order[0] in s && Lists(order[1..], s - {order[0]})
  {}

  lemma ListsNothing<T>(order: seq<T>, s: set<T>)
    requires Lists(order, s)
    ensures order == [] <==> s == {}
  {
    if order != [] {
      assert order[0] in s;
    }
  }

  lemma ListingExists<T>(s: set<T>) returns (order: seq<T>)
    ensures Lists(order, s)
    decreases |s|
  {
    if s == {} {
      order := [];
    } else {
      var x :| x in s;
      var rest := ListingExists(s - {x});
      ListsAppend(rest, s - {x}, x);
      assert s - {x} + {x} == s;
      order := rest + [x];
    }
  }

  /** Hash set iteration: some listing of the set, decided by picks nothing is known about. */
  method Iterate<T(==)>(s: set<T>) returns (order: seq<T>)
    ensures Lists(order, s)
  {
    order := [];
    var todo := s;
    while todo != {}
      invariant todo <= s && Lists(order, s - todo)
      decreases |todo|
    {
      var x :| x in todo;
      ListsAppend(order, s - todo, x);
      assert s - todo + {x} == s - (todo - {x});
      order := order + [x];
      todo := todo - {x};
    }
    assert s - todo == s;
  }
}
