/** `Array.prototype.filter` and the facts about it that the screens use: the
    result is an order-preserving subsequence holding exactly the elements that
    pass, a weaker test keeps a superset, and three disjoint, covering tests split
    a list into three parts. */
module Sequences {

  /** `xs.filter(f)`. */
  function Filter<T>(f: T -> bool, xs: seq<T>): (r: seq<T>)
    ensures |r| <= |xs|
    ensures forall x | x in r :: x in xs && f(x)
    ensures forall x | x in xs && f(x) :: x in r
    decreases |xs|
  {
    if xs == [] then []
    else (if f(xs[0]) then [xs[0]] else []) + Filter(f, xs[1..])
  }

  /** `a` can be obtained from `b` by deleting elements (order is kept). */
  predicate IsSubsequence<T(==)>(a: seq<T>, b: seq<T>)
    decreases |b|
  {
    if b == [] then a == []
    else (a != [] && a[0] == b[0] && IsSubsequence(a[1..], b[1..])) || IsSubsequence(a, b[1..])
  }

  /** Every list is a subsequence of itself. */
  lemma {:induction false} SubsequenceReflexive<T>(a: seq<T>)
    ensures IsSubsequence(a, a)
    decreases |a|
  {
    if a != [] {
      SubsequenceReflexive(a[1..]);
    }
  }

  /** Deleting from a subsequence leaves a subsequence. */
  lemma {:induction false} SubsequenceTransitive<T>(a: seq<T>, b: seq<T>, c: seq<T>)
    requires IsSubsequence(a, b) && IsSubsequence(b, c)
    ensures IsSubsequence(a, c)
    decreases |c|
  {
    if c == [] {
    } else if b != [] && b[0] == c[0] && IsSubsequence(b[1..], c[1..]) {
      if a != [] && a[0] == b[0] && IsSubsequence(a[1..], b[1..]) {
        SubsequenceTransitive(a[1..], b[1..], c[1..]);
      } else {
        SubsequenceTransitive(a, b[1..], c[1..]);
      }
    } else {
      SubsequenceTransitive(a, b, c[1..]);
    }
  }

  /** A filter keeps the order of its source. */
  lemma {:induction false} FilterIsSubsequence<T>(f: T -> bool, xs: seq<T>)
    ensures IsSubsequence(Filter(f, xs), xs)
    decreases |xs|
  {
    if xs != [] {
      FilterIsSubsequence(f, xs[1..]);
      var rest := Filter(f, xs[1..]);
      if f(xs[0]) {
        var a := [xs[0]] + rest;
        assert Filter(f, xs) == a;
        assert a[0] == xs[0] && a[1..] == rest;
        assert IsSubsequence(a, xs);
      } else {
        assert Filter(f, xs) == rest;
      }
    }
  }

  /** Putting the same element in front of both lists keeps the relation. */
  lemma ConsBoth<T>(x: T, a: seq<T>, b: seq<T>)
    requires IsSubsequence(a, b)
    ensures IsSubsequence([x] + a, [x] + b)
  {
    assert ([x] + a)[1..] == a && ([x] + b)[1..] == b;
  }

  /** Putting an element in front of the longer list keeps the relation. */
  lemma ConsRight<T>(x: T, a: seq<T>, b: seq<T>)
    requires IsSubsequence(a, b)
    ensures IsSubsequence(a, [x] + b)
  {
    assert ([x] + b)[1..] == b;
  }

  /** Filtering by a weaker test keeps everything the stronger test keeps, in the
      same order. */
  lemma {:induction false} FilterWeakerTest<T>(f: T -> bool, g: T -> bool, xs: seq<T>)
    requires forall x | x in xs :: f(x) ==> g(x)
    ensures IsSubsequence(Filter(f, xs), Filter(g, xs))
    decreases |xs|
  {
    if xs != [] {
      assert forall x | x in xs[1..] :: x in xs;
      FilterWeakerTest(f, g, xs[1..]);
      var restF, restG := Filter(f, xs[1..]), Filter(g, xs[1..]);
      assert f(xs[0]) ==> g(xs[0]) by { assert xs[0] in xs; }
      if f(xs[0]) {
        ConsBoth(xs[0], restF, restG);
        assert Filter(f, xs) == [xs[0]] + restF && Filter(g, xs) == [xs[0]] + restG;
      } else if g(xs[0]) {
        ConsRight(xs[0], restF, restG);
        assert Filter(f, xs) == restF && Filter(g, xs) == [xs[0]] + restG;
      } else {
        assert Filter(f, xs) == restF && Filter(g, xs) == restG;
      }
    }
  }

  /** Two tests that agree on every element keep the same list. */
  lemma {:induction false} FilterSameTest<T>(f: T -> bool, g: T -> bool, xs: seq<T>)
    requires forall x | x in xs :: f(x) == g(x)
    ensures Filter(f, xs) == Filter(g, xs)
    decreases |xs|
  {
    if xs != [] {
      FilterSameTest(f, g, xs[1..]);
    }
  }

  /** Filtering twice is filtering by both tests. */
  lemma {:induction false} FilterTwice<T>(f: T -> bool, g: T -> bool, xs: seq<T>)
    ensures Filter(f, Filter(g, xs)) == Filter(x => g(x) && f(x), xs)
    decreases |xs|
  {
    if xs != [] {
      FilterTwice(f, g, xs[1..]);
      var rest := Filter(g, xs[1..]);
      if g(xs[0]) {
        assert Filter(g, xs) == [xs[0]] + rest;
        assert ([xs[0]] + rest)[1..] == rest;
      } else {
        assert Filter(g, xs) == rest;
      }
    }
  }

  /** Filtering distributes over concatenation. */
  lemma {:induction false} FilterAppend<T>(f: T -> bool, xs: seq<T>, ys: seq<T>)
    ensures Filter(f, xs + ys) == Filter(f, xs) + Filter(f, ys)
    decreases |xs|
  {
    if xs != [] {
      var h := if f(xs[0]) then [xs[0]] else [];
      assert (xs + ys)[0] == xs[0] && (xs + ys)[1..] == xs[1..] + ys;
      assert Filter(f, xs + ys) == h + Filter(f, xs[1..] + ys);
      FilterAppend(f, xs[1..], ys);
      assert Filter(f, xs) == h + Filter(f, xs[1..]);
    } else {
      assert xs + ys == ys;
    }
  }

  /** A filter keeps every passing element as often as it occurs and drops every
      other one. */
  lemma {:induction false} FilterMultiset<T>(f: T -> bool, xs: seq<T>)
    ensures forall x :: multiset(Filter(f, xs))[x] == if f(x) then multiset(xs)[x] else 0
    decreases |xs|
  {
    if xs != [] {
      FilterMultiset(f, xs[1..]);
      assert xs == [xs[0]] + xs[1..];
      assert Filter(f, xs) == (if f(xs[0]) then [xs[0]] else []) + Filter(f, xs[1..]);
    }
  }

  /** Three tests of which exactly one holds for each element split a list into
      three filters whose elements, together, are exactly the list's. */
  lemma {:induction false} FilterPartition<T>(f: T -> bool, g: T -> bool, h: T -> bool, xs: seq<T>)
    requires forall x | x in xs :: (f(x) || g(x) || h(x)) && !(f(x) && g(x)) && !(f(x) && h(x)) && !(g(x) && h(x))
    ensures multiset(Filter(f, xs)) + multiset(Filter(g, xs)) + multiset(Filter(h, xs)) == multiset(xs)
    ensures |Filter(f, xs)| + |Filter(g, xs)| + |Filter(h, xs)| == |xs|
    decreases |xs|
  {
    if xs != [] {
      FilterPartition(f, g, h, xs[1..]);
      assert xs == [xs[0]] + xs[1..];
    }
  }

  /** The number of elements that pass `f` (a `forEach` loop's counter). */
  function Count<T>(f: T -> bool, xs: seq<T>): (n: nat)
    ensures n == |Filter(f, xs)|
    ensures n <= |xs|
    decreases |xs|
  {
    if xs == [] then 0 else (if f(xs[0]) then 1 else 0) + Count(f, xs[1..])
  }

  /** Counting a list extended by one element. */
  lemma {:induction false} CountSnoc<T>(f: T -> bool, xs: seq<T>, x: T)
    ensures Count(f, xs + [x]) == Count(f, xs) + (if f(x) then 1 else 0)
    decreases |xs|
  {
    if xs == [] {
      assert xs + [x] == [x];
    } else {
      assert (xs + [x])[1..] == xs[1..] + [x];
      CountSnoc(f, xs[1..], x);
    }
  }

  /** The concatenation of a list of lists (`parts.join("")` on strings). */
  function Concat<T>(xss: seq<seq<T>>): seq<T>
    decreases |xss|
  {
    if xss == [] then [] else xss[0] + Concat(xss[1..])
  }

  /** Concatenation distributes over appending lists of lists. */
  lemma {:induction false} ConcatAppend<T>(a: seq<seq<T>>, b: seq<seq<T>>)
    ensures Concat(a + b) == Concat(a) + Concat(b)
    decreases |a|
  {
    if a == [] {
      assert a + b == b;
    } else {
      assert (a + b)[1..] == a[1..] + b;
      ConcatAppend(a[1..], b);
    }
  }

  /** Dropping only empty lists (`.filter(Boolean)` on strings) does not change the
      concatenation. */
  lemma {:induction false} ConcatSkipsEmpty<T>(f: seq<T> -> bool, xss: seq<seq<T>>)
    requires forall xs | xs in xss :: !f(xs) ==> |xs| == 0
    ensures Concat(Filter(f, xss)) == Concat(xss)
    decreases |xss|
  {
    if xss != [] {
      assert forall xs | xs in xss[1..] :: xs in xss;
      ConcatSkipsEmpty(f, xss[1..]);
      assert xss[0] in xss;
      if f(xss[0]) {
        assert Filter(f, xss) == [xss[0]] + Filter(f, xss[1..]);
        assert ([xss[0]] + Filter(f, xss[1..]))[1..] == Filter(f, xss[1..]);
      } else {
        assert Filter(f, xss) == Filter(f, xss[1..]);
        assert xss[0] == [];
      }
    }
  }
}
