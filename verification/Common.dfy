/** Small things shared by several modules. */
module Common {
  datatype Option<+T> = None | Some(value: T)

  function Min(a: int, b: int): int { if a <= b then a else b }

  /** The first n elements, or all there are: SQL's LIMIT and JavaScript's slice. */
  function Take<T>(s: seq<T>, n: nat): seq<T> { if |s| <= n then s else s[..n] }

  /** The sequence lists the set, each element once. */
  ghost predicate Lists<T(!new)>(list: seq<T>, s: set<T>) {
    && (forall x :: x in list <==> x in s)
    && (forall i, j | 0 <= i < j < |list| :: list[i] != list[j])
  }

  lemma {:induction false} ListLength<T(!new)>(list: seq<T>, s: set<T>)
    requires Lists(list, s)
    ensures |list| == |s|
  {
    if list == [] {
      assert s == {};
    } else {
      var (front, x) := (list[..|list|-1], list[|list|-1]);
      assert list == front + [x];
      assert Lists(front, s - {x});
      ListLength(front, s - {x});
    }
  }

  lemma ListGrows<T(!new)>(list: seq<T>, s: set<T>, x: T)
    requires Lists(list, s) && x !in s
    ensures Lists(list + [x], s + {x})
  {
  }
}
