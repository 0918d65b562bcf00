/** Stock helpers. */
module Wrappers {
  datatype Option<+T> = None | Some(value: T)

  /** Last-element split, for inductions whose slices would otherwise multiply. */
  lemma SplitLast<T>(s: seq<T>) returns (front: seq<T>, last: T)
    requires s != []
    ensures s == front + [last] && |front| == |s| - 1
  {
    front, last := s[..|s| - 1], s[|s| - 1];
  }

  /** The elements satisfying p, in order. */
  function Filter<T>(s: seq<T>, p: T -> bool): seq<T> {
    if s == [] then [] else (if p(s[0]) then [s[0]] else []) + Filter(s[1..], p)
  }

  lemma {:induction false} FilterMembers<T(!new)>(s: seq<T>, p: T -> bool)
    ensures forall x :: x in Filter(s, p) <==> x in s && p(x)
  {
    if s != [] {
      FilterMembers(s[1..], p);
    }
  }

  lemma {:induction false} FilterNone<T(!new)>(s: seq<T>, p: T -> bool)
    requires forall x | x in s :: !p(x)
    ensures Filter(s, p) == []
  {
    if s != [] {
      FilterNone(s[1..], p);
    }
  }

  lemma {:induction false} FilterSame<T(!new)>(s: seq<T>, p: T -> bool, q: T -> bool)
    requires forall x | x in s :: p(x) == q(x)
    ensures Filter(s, p) == Filter(s, q)
  {
    if s != [] {
      FilterSame(s[1..], p, q);
    }
  }

  lemma FilterCons<T>(x: T, s: seq<T>, p: T -> bool)
    ensures Filter([x] + s, p) == (if p(x) then [x] else []) + Filter(s, p)
  {
    assert ([x] + s)[1..] == s;
  }

  lemma {:induction false} FilterAppend<T>(a: seq<T>, b: seq<T>, p: T -> bool)
    ensures Filter(a + b, p) == Filter(a, p) + Filter(b, p)
    decreases |a|
  {
    if a == [] {
      assert a + b == b;
    } else {
      hide Filter;
      var x, rest := a[0], a[1..];
      FilterAppend(rest, b, p);
      FilterCons(x, rest, p);
      FilterCons(x, rest + b, p);
      assert a == [x] + rest && a + b == [x] + (rest + b);
    }
  }

  /** Filtering twice is filtering by both. */
  lemma {:induction false} FilterTwice<T(!new)>(s: seq<T>, p: T -> bool, q: T -> bool, both: T -> bool)
    requires forall x :: both(x) <==> p(x) && q(x)
    ensures Filter(Filter(s, p), q) == Filter(s, both)
  {
    if s != [] {
      FilterTwice(s[1..], p, q, both);
      FilterAppend(if p(s[0]) then [s[0]] else [], Filter(s[1..], p), q);
      assert p(s[0]) ==> [s[0]][1..] == [];
    }
  }

  /** The first of those kept is the first there is. */
  lemma {:induction false} FilterFirst<T(!new)>(s: seq<T>, p: T -> bool) returns (i: nat)
    requires Filter(s, p) != []
    ensures i < |s| && s[i] == Filter(s, p)[0] && p(s[i]) && forall j | 0 <= j < i :: !p(s[j])
  {
    if p(s[0]) {
      i := 0;
    } else {
      i := FilterFirst(s[1..], p);
      i := i + 1;
    }
  }
}
