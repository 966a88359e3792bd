/** Go's sort.SliceStable, as far as callers may rely on it. */
module StableSort {

  /** less orders without contradiction: it is asymmetric, and "not after" is transitive. */
  ghost predicate Orders<T(!new)>(less: (T, T) -> bool) {
    && (forall a, b :: less(a, b) ==> !less(b, a))
    && (forall a, b, c :: !less(b, a) && !less(c, b) ==> !less(c, a))
  }

  /** Insert x before the first element that is greater than it. */
  function Insert<T>(x: T, xs: seq<T>, less: (T, T) -> bool): seq<T> {
    if xs == [] then [x]
    else if less(xs[0], x) then [xs[0]] + Insert(x, xs[1..], less)
    else [x] + xs
  }

  function Sort<T>(xs: seq<T>, less: (T, T) -> bool): seq<T> {
    if xs == [] then [] else Insert(xs[0], Sort(xs[1..], less), less)
  }

  predicate Sorted<T>(xs: seq<T>, less: (T, T) -> bool) {
    forall i, j | 0 <= i < j < |xs| :: !less(xs[j], xs[i])
  }

  lemma {:induction false} InsertPermutes<T>(x: T, xs: seq<T>, less: (T, T) -> bool)
    ensures multiset(Insert(x, xs, less)) == multiset([x]) + multiset(xs)
  {
    if xs != [] {
      InsertPermutes(x, xs[1..], less);
      assert xs == [xs[0]] + xs[1..];
    }
  }

  lemma {:induction false} SortPermutes<T>(xs: seq<T>, less: (T, T) -> bool)
    ensures multiset(Sort(xs, less)) == multiset(xs)
  {
    if xs != [] {
      SortPermutes(xs[1..], less);
      InsertPermutes(xs[0], Sort(xs[1..], less), less);
      assert xs == [xs[0]] + xs[1..];
    }
  }

  lemma {:induction false} InsertSorts<T(!new)>(x: T, xs: seq<T>, less: (T, T) -> bool)
    requires Orders(less) && Sorted(xs, less)
    ensures Sorted(Insert(x, xs, less), less)
  {
    if xs != [] && less(xs[0], x) {
      InsertSorts(x, xs[1..], less);
      InsertPermutes(x, xs[1..], less);
      var rest := Insert(x, xs[1..], less);
      forall j | 0 <= j < |rest| ensures !less(rest[j], xs[0]) {
        assert rest[j] in multiset(rest);
        if rest[j] != x {
          assert rest[j] in multiset(xs[1..]);
        }
      }
    }
  }

  lemma {:induction false} SortSorts<T(!new)>(xs: seq<T>, less: (T, T) -> bool)
    requires Orders(less)
    ensures Sorted(Sort(xs, less), less)
  {
    if xs != [] {
      SortSorts(xs[1..], less);
      InsertSorts(xs[0], Sort(xs[1..], less), less);
    }
  }

  /** The elements of xs that neither precede nor follow p, in order. */
  function Ties<T>(xs: seq<T>, p: T, less: (T, T) -> bool): seq<T> {
    if xs == [] then []
    else (if !less(xs[0], p) && !less(p, xs[0]) then [xs[0]] else []) + Ties(xs[1..], p, less)
  }

  lemma {:induction false} InsertStable<T(!new)>(x: T, xs: seq<T>, p: T, less: (T, T) -> bool)
    requires Orders(less)
    ensures Ties(Insert(x, xs, less), p, less) == Ties([x], p, less) + Ties(xs, p, less)
  {
    if xs != [] && less(xs[0], x) {
      InsertStable(x, xs[1..], p, less);
      var rest := Insert(x, xs[1..], less);
      assert ([xs[0]] + rest)[1..] == rest;
    } else {
      assert ([x] + xs)[1..] == xs;
    }
  }

  /** The sort is stable: equivalent elements keep their order. */
  lemma {:induction false} SortStable<T(!new)>(xs: seq<T>, p: T, less: (T, T) -> bool)
    requires Orders(less)
    ensures Ties(Sort(xs, less), p, less) == Ties(xs, p, less)
  {
    if xs != [] {
      SortStable(xs[1..], p, less);
      InsertStable(xs[0], Sort(xs[1..], less), p, less);
    }
  }
}
