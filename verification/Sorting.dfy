/** The library sort that the strategy code relies on: it orders by a key and loses nothing. */
module Sorting {

  ghost predicate SortedBy<T>(xs: seq<T>, key: T -> real) {
    forall i, j | 0 <= i < j < |xs| :: key(xs[i]) <= key(xs[j])
  }

  function Insert<T>(x: T, xs: seq<T>, key: T -> real): (ys: seq<T>)
    ensures multiset(ys) == multiset{x} + multiset(xs) && |ys| == |xs| + 1
  {
    if xs == [] || key(x) <= key(xs[0]) then [x] + xs
    else
      assert xs == [xs[0]] + xs[1..];
      [xs[0]] + Insert(x, xs[1..], key)
  }

  lemma {:induction false} InsertSorts<T>(x: T, xs: seq<T>, key: T -> real)
    requires SortedBy(xs, key)
    ensures SortedBy(Insert(x, xs, key), key)
  {
    if xs != [] && key(x) > key(xs[0]) {
      var rest := Insert(x, xs[1..], key);
      InsertSorts(x, xs[1..], key);
      forall k | 0 <= k < |rest|
        ensures key(xs[0]) <= key(rest[k])
      {
        assert rest[k] in multiset{x} + multiset(xs[1..]);
        assert rest[k] == x || rest[k] in xs[1..];
      }
    }
  }

  /** The elements of xs in ascending order of their keys. */
  function Sort<T>(xs: seq<T>, key: T -> real): (ys: seq<T>)
    ensures SortedBy(ys, key) && multiset(ys) == multiset(xs) && |ys| == |xs|
  {
    if xs == [] then []
    else
      assert xs == [xs[0]] + xs[1..];
      InsertSorts(xs[0], Sort(xs[1..], key), key);
      Insert(xs[0], Sort(xs[1..], key), key)
  }
}
