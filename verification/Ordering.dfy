/** Python's `sorted(set)` over ordered keys, and sums over a dictionary in key order. */
module Ordering {

  ghost predicate StrictlyIncreasing(s: seq<int>) {
    forall i, j | 0 <= i < j < |s| :: s[i] < s[j]
  }

  lemma Member<T>(s: set<T>) returns (x: T)
    requires s != {}
    ensures x in s
  {
    x :| x in s;
  }

  lemma {:induction false} LeastExists(s: set<int>)
    requires s != {}
    ensures exists x :: x in s && forall y | y in s :: x <= y
  {
    var x := Member(s);
    var rest := s - {x};
    if rest == {} {
      assert s == {x};
    } else {
      LeastExists(rest);
      var least :| least in rest && forall y | y in rest :: least <= y;
      assert forall y | y in s :: y == x || y in rest;
      assert (if x < least then x else least) in s;
    }
  }

  function Least(s: set<int>): (least: int)
    requires s != {}
    ensures least in s && forall x | x in s :: least <= x
  {
    LeastExists(s);
    var x :| x in s && forall y | y in s :: x <= y;
    x
  }

  function Sorted(s: set<int>): (r: seq<int>)
    ensures StrictlyIncreasing(r)
    ensures forall x :: x in r <==> x in s
    ensures |r| == |s|
  {
    if s == {} then [] else
      var x := Least(s);
      [x] + Sorted(s - {x})
  }

  /** A strictly increasing sequence is determined by its elements. */
  lemma {:induction false} SortedUnique(a: seq<int>, b: seq<int>)
    requires StrictlyIncreasing(a) && StrictlyIncreasing(b)
    requires forall x :: x in a <==> x in b
    ensures a == b
  {
    if a == [] {
      assert forall i | 0 <= i < |b| :: b[i] in b;
    } else {
      assert a[0] in b && (b != [] ==> b[0] in a);
      assert a[0] == b[0];
      forall x ensures x in a[1..] <==> x in b[1..] {
        if x in a[1..] { assert x in a && x in b && x != b[0]; }
        if x in b[1..] { assert x in b && x in a && x != a[0]; }
      }
      SortedUnique(a[1..], b[1..]);
      assert a == [a[0]] + a[1..] && b == [b[0]] + b[1..];
    }
  }

  /** Cutting a set at a bound cuts its sorted form to a prefix. */
  lemma SortedPrefix(s: set<int>, bound: int)
    ensures Sorted(set x | x in s && x <= bound) <= Sorted(s)
  {
    var low, high := set x | x in s && x <= bound, set x | x in s && x > bound;
    var joined := Sorted(low) + Sorted(high);
    forall i, j | 0 <= i < j < |joined| ensures joined[i] < joined[j] {
      if i < |low| <= j {
        assert joined[i] in Sorted(low) && joined[j] in Sorted(high);
      }
    }
    SortedUnique(joined, Sorted(s));
  }

  /** Sum of f over a set of keys. */
  ghost function SumOver(keys: set<int>, f: int -> real): real {
    if keys == {} then 0.0 else
      var x := Least(keys);
      f(x) + SumOver(keys - {x}, f)
  }

  lemma {:induction false} SumRemove(keys: set<int>, f: int -> real, x: int)
    requires x in keys
    ensures SumOver(keys, f) == f(x) + SumOver(keys - {x}, f)
  {
    var least := Least(keys);
    if x != least {
      SumRemove(keys - {least}, f, x);
      SumRemove(keys - {x}, f, least);
      assert keys - {least} - {x} == keys - {x} - {least};
    }
  }

  lemma {:induction false} SumAgree(keys: set<int>, f: int -> real, g: int -> real)
    requires forall x | x in keys :: f(x) == g(x)
    ensures SumOver(keys, f) == SumOver(keys, g)
  {
    if keys != {} {
      SumAgree(keys - {Least(keys)}, f, g);
    }
  }

  /** Changing f at one key (which may be new) changes the sum by the difference there. */
  lemma SumChange(keys: set<int>, f: int -> real, g: int -> real, x: int)
    requires forall y | y in keys && y != x :: f(y) == g(y)
    requires x !in keys ==> f(x) == 0.0
    ensures SumOver(keys + {x}, g) == SumOver(keys, f) - f(x) + g(x)
  {
    var rest := keys - {x};
    assert keys + {x} - {x} == rest;
    SumRemove(keys + {x}, g, x);
    SumAgree(rest, f, g);
    if x in keys {
      SumRemove(keys, f, x);
    } else {
      assert keys == rest;
    }
  }

  lemma SortedStep(s: set<int>, f: int -> real)
    requires Sorted(s) != []
    ensures var first := Sorted(s)[0];
      first in s && Sorted(s)[1..] == Sorted(s - {first}) && SumOver(s, f) == f(first) + SumOver(s - {first}, f)
  {
  }

  lemma NothingLeft(s: set<int>, f: int -> real)
    requires Sorted(s) == []
    ensures SumOver(s, f) == 0.0
  {
    assert |s| == 0;
  }

  lemma SortedEmpty(s: set<int>)
    requires Sorted(s) == []
    ensures s == {}
  {
    assert |s| == 0;
  }
}
