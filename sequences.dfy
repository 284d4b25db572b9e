/** `Array.prototype.filter`, `map` and a numeric `reduce`, as the pages use them. */
module Seqs {

  /** The elements of `s` that satisfy `p`, in their original order. */
  function Filter<T(!new)>(s: seq<T>, p: T -> bool): (r: seq<T>)
    ensures |r| <= |s|
    ensures forall x :: x in r <==> x in s && p(x)
  {
    if s == [] then [] else (if p(s[0]) then [s[0]] else []) + Filter(s[1..], p)
  }

  lemma {:induction false} FilterAppend<T(!new)>(a: seq<T>, b: seq<T>, p: T -> bool)
    ensures Filter(a + b, p) == Filter(a, p) + Filter(b, p)
  {
    if a != [] {
      assert (a + b)[1..] == a[1..] + b;
      FilterAppend(a[1..], b, p);
    } else {
      assert a + b == b;
    }
  }

  /** Filtering with a predicate that every element satisfies keeps the sequence. */
  lemma {:induction false} FilterAll<T(!new)>(s: seq<T>, p: T -> bool)
    requires forall i :: 0 <= i < |s| ==> p(s[i])
    ensures Filter(s, p) == s
  {
    if s != [] {
      assert forall i :: 0 <= i < |s[1..]| ==> s[1..][i] == s[i + 1];
      FilterAll(s[1..], p);
    }
  }

  /** Filtering out the one element that fails the predicate removes its position. */
  lemma {:induction false} FilterDropsOne<T(!new)>(s: seq<T>, k: nat, p: T -> bool)
    requires k < |s| && !p(s[k])
    requires forall i :: 0 <= i < |s| && i != k ==> p(s[i])
    ensures Filter(s, p) == s[..k] + s[k + 1..]
  {
    assert forall i :: 0 <= i < |s[1..]| ==> s[1..][i] == s[i + 1];
    if k == 0 {
      FilterAll(s[1..], p);
    } else {
      FilterDropsOne(s[1..], k - 1, p);
      assert s[..k] == [s[0]] + s[1..][..k - 1];
      assert s[k + 1..] == s[1..][k..];
    }
  }

  /**
   * When every element satisfies exactly one of three predicates, the three filters together
   * are as long as the sequence.
   */
  lemma {:induction false} FilterPartition<T(!new)>(s: seq<T>, p: T -> bool, q: T -> bool, r: T -> bool)
    requires forall x :: x in s ==> (p(x) || q(x) || r(x))
    requires forall x :: x in s ==> !(p(x) && q(x)) && !(p(x) && r(x)) && !(q(x) && r(x))
    ensures |Filter(s, p)| + |Filter(s, q)| + |Filter(s, r)| == |s|
  {
    if s != [] {
      FilterPartition(s[1..], p, q, r);
    }
  }

  /**
   * The images under `f` of the elements of `s` that satisfy `p`, in order; built from the
   * last element so that a loop's prefix extends it one step at a time.
   */
  function FilterMap<T(!new), U(!new)>(s: seq<T>, p: T -> bool, f: T -> U): (r: seq<U>)
    ensures |r| <= |s|
    ensures forall y :: y in r <==> exists x :: x in s && p(x) && y == f(x)
  {
    if s == [] then []
    else
      var init := s[..|s| - 1];
      assert forall x :: x in s <==> x in init || x == s[|s| - 1];
      FilterMap(init, p, f) + (if p(s[|s| - 1]) then [f(s[|s| - 1])] else [])
  }

  /** Nothing selected gives nothing. */
  lemma {:induction false} FilterMapNone<T(!new), U(!new)>(s: seq<T>, p: T -> bool, f: T -> U)
    requires forall x :: x in s ==> !p(x)
    ensures FilterMap(s, p, f) == []
  {
    if s != [] {
      assert forall x :: x in s[..|s| - 1] ==> x in s;
      FilterMapNone(s[..|s| - 1], p, f);
    }
  }

  /** Extending the input by one element extends the result by at most its image. */
  lemma FilterMapSnoc<T(!new), U(!new)>(s: seq<T>, x: T, p: T -> bool, f: T -> U)
    ensures FilterMap(s + [x], p, f) == FilterMap(s, p, f) + (if p(x) then [f(x)] else [])
  {
    assert (s + [x])[..|s|] == s;
  }

  /** Selecting from a concatenation concatenates the selections: `FilterMap` keeps order. */
  lemma {:induction false} FilterMapAppend<T(!new), U(!new)>(a: seq<T>, b: seq<T>, p: T -> bool, f: T -> U)
    ensures FilterMap(a + b, p, f) == FilterMap(a, p, f) + FilterMap(b, p, f)
  {
    if b == [] {
      assert a + b == a;
    } else {
      var b0 := b[..|b| - 1];
      FilterMapAppend(a, b0, p, f);
      assert a + b == (a + b0) + [b[|b| - 1]];
      assert b == b0 + [b[|b| - 1]];
      FilterMapSnoc(a + b0, b[|b| - 1], p, f);
      FilterMapSnoc(b0, b[|b| - 1], p, f);
    }
  }

  /** The elements mapped one-to-one, in order. */
  function Map<T, U>(s: seq<T>, f: T -> U): (r: seq<U>)
    ensures |r| == |s|
    ensures forall i :: 0 <= i < |s| ==> r[i] == f(s[i])
  {
    seq(|s|, i requires 0 <= i < |s| => f(s[i]))
  }
}
