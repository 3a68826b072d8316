/** `sort.Strings` and `sort.SliceStable`, as a stable insertion sort under a caller's order. */
module Sorting {

  function Insert<T>(x: T, xs: seq<T>, le: (T, T) -> bool): seq<T> {
    if xs == [] || le(x, xs[0]) then [x] + xs else [xs[0]] + Insert(x, xs[1..], le)
  }

  function Sort<T>(xs: seq<T>, le: (T, T) -> bool): seq<T> {
    if xs == [] then [] else Insert(xs[0], Sort(xs[1..], le), le)
  }

  lemma {:induction false} InsertPermutes<T>(x: T, xs: seq<T>, le: (T, T) -> bool)
    ensures multiset(Insert(x, xs, le)) == multiset(xs) + multiset{x}
  {
    if xs == [] || le(x, xs[0]) {
    } else {
      InsertPermutes(x, xs[1..], le);
      assert xs == [xs[0]] + xs[1..];
    }
  }

  /** Sorting only rearranges. */
  lemma {:induction false} SortPermutes<T>(xs: seq<T>, le: (T, T) -> bool)
    ensures multiset(Sort(xs, le)) == multiset(xs)
    ensures |Sort(xs, le)| == |xs|
    ensures forall x :: x in Sort(xs, le) <==> x in xs
  {
    if xs == [] {
    } else {
      SortPermutes(xs[1..], le);
      InsertPermutes(xs[0], Sort(xs[1..], le), le);
      assert xs == [xs[0]] + xs[1..];
    }
    assert |multiset(Sort(xs, le))| == |Sort(xs, le)|;
    assert forall x :: x in Sort(xs, le) <==> x in multiset(Sort(xs, le));
  }

  ghost predicate TotalPreorder<T(!new)>(le: (T, T) -> bool) {
    && (forall x, y :: le(x, y) || le(y, x))
    && (forall x, y, z :: le(x, y) && le(y, z) ==> le(x, z))
  }

  ghost predicate Sorted<T(!new)>(xs: seq<T>, le: (T, T) -> bool) {
    forall i, j :: 0 <= i < j < |xs| ==> le(xs[i], xs[j])
  }

  lemma {:induction false} InsertSorts<T(!new)>(x: T, xs: seq<T>, le: (T, T) -> bool)
    requires TotalPreorder(le) && Sorted(xs, le)
    ensures Sorted(Insert(x, xs, le), le)
  {
    if xs == [] {
    } else if !le(x, xs[0]) {
      var rest := Insert(x, xs[1..], le);
      InsertSorts(x, xs[1..], le);
      InsertPermutes(x, xs[1..], le);
      forall y | y in rest ensures le(xs[0], y) {
        assert y in multiset(rest);
        assert y == x || y in xs[1..];
      }
    } else {
      forall j | 0 <= j < |xs| ensures le(x, xs[j]) {
        assert j > 0 ==> le(xs[0], xs[j]);
      }
    }
  }

  /** And it leaves things in order. */
  lemma {:induction false} SortSorts<T(!new)>(xs: seq<T>, le: (T, T) -> bool)
    requires TotalPreorder(le)
    ensures Sorted(Sort(xs, le), le)
  {
    if xs == [] {
    } else {
      SortSorts(xs[1..], le);
      InsertSorts(xs[0], Sort(xs[1..], le), le);
    }
  }

  /** The elements that stand level with `y`, in order. */
  function Level<T>(xs: seq<T>, y: T, le: (T, T) -> bool): seq<T> {
    if xs == [] then [] else (if le(xs[0], y) && le(y, xs[0]) then [xs[0]] else []) + Level(xs[1..], y, le)
  }

  lemma {:induction false} InsertStable<T(!new)>(x: T, xs: seq<T>, y: T, le: (T, T) -> bool)
    requires TotalPreorder(le)
    ensures Level(Insert(x, xs, le), y, le) == Level([x] + xs, y, le)
  {
    assert ([x] + xs)[1..] == xs;
    if xs == [] || le(x, xs[0]) {
    } else {
      InsertStable(x, xs[1..], y, le);
      assert ([x] + xs[1..])[1..] == xs[1..];
    }
  }

  /** And it keeps elements that stand level in the order they came in. */
  lemma {:induction false} SortStable<T(!new)>(xs: seq<T>, y: T, le: (T, T) -> bool)
    requires TotalPreorder(le)
    ensures Level(Sort(xs, le), y, le) == Level(xs, y, le)
  {
    if xs == [] {
    } else {
      SortStable(xs[1..], y, le);
      InsertStable(xs[0], Sort(xs[1..], le), y, le);
      assert ([xs[0]] + Sort(xs[1..], le))[1..] == Sort(xs[1..], le);
    }
  }

  /** Go's `<=` on strings: the first difference decides, and a prefix comes first. */
  predicate StringLe(a: string, b: string) {
    a == "" || (b != "" && (a[0] < b[0] || (a[0] == b[0] && StringLe(a[1..], b[1..]))))
  }

  lemma {:induction false} StringTotal(a: string, b: string)
    ensures StringLe(a, b) || StringLe(b, a)
    ensures StringLe(a, b) && StringLe(b, a) ==> a == b
  {
    if a == "" || b == "" || a[0] != b[0] {
    } else {
      StringTotal(a[1..], b[1..]);
      assert a == [a[0]] + a[1..] && b == [b[0]] + b[1..];
    }
  }

  lemma {:induction false} StringTransitive(a: string, b: string, c: string)
    requires StringLe(a, b) && StringLe(b, c)
    ensures StringLe(a, c)
  {
    if a == "" || a[0] < b[0] || b[0] < c[0] {
    } else {
      StringTransitive(a[1..], b[1..], c[1..]);
    }
  }

  /** Behind a common front the first differing character decides. */
  lemma {:induction false} FirstDifference(front: string, c: char, a: string, d: char, b: string)
    requires c != d
    ensures StringLe(front + [c] + a, front + [d] + b) <==> c < d
  {
    if front == "" {
      assert (front + [c] + a)[0] == c && (front + [d] + b)[0] == d;
    } else {
      FirstDifference(front[1..], c, a, d, b);
      assert (front + [c] + a)[1..] == front[1..] + [c] + a;
      assert (front + [d] + b)[1..] == front[1..] + [d] + b;
    }
  }

  lemma {:induction false} PrefixFirst(front: string, rest: string)
    ensures StringLe(front, front + rest)
  {
    if front == "" {
    } else {
      PrefixFirst(front[1..], rest);
      assert (front + rest)[1..] == front[1..] + rest;
    }
  }
}
