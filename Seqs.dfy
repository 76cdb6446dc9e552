/** `Array.prototype.filter` and the facts about it that the roster views rely on. */
module Seqs {

  /** `s.filter(f)`: the elements of `s` that satisfy `f`, in their original order. */
  function Filter<T(!new)>(s: seq<T>, f: T -> bool): (r: seq<T>)
    ensures |r| <= |s|
  {
    if s == [] then [] else (if f(s[0]) then [s[0]] else []) + Filter(s[1..], f)
  }

  /** The filter keeps exactly the elements that pass the test. */
  lemma {:induction false} FilterMembers<T(!new)>(s: seq<T>, f: T -> bool)
    ensures forall x :: x in Filter(s, f) <==> x in s && f(x)
    ensures forall i :: 0 <= i < |Filter(s, f)| ==> f(Filter(s, f)[i])
  {
    if s != [] {
      FilterMembers(s[1..], f);
      assert forall x :: x in s <==> x == s[0] || x in s[1..];
    }
  }

  /** `a` can be obtained from `b` by deleting elements. */
  ghost predicate IsSubsequence<T(!new)>(a: seq<T>, b: seq<T>)
    decreases |b|
  {
    if a == [] then true
    else if b == [] then false
    else (a[0] == b[0] && IsSubsequence(a[1..], b[1..])) || IsSubsequence(a, b[1..])
  }

  /** Filtering keeps the original order. */
  lemma {:induction false} FilterIsSubsequence<T(!new)>(s: seq<T>, f: T -> bool)
    ensures IsSubsequence(Filter(s, f), s)
  {
    if s != [] {
      FilterIsSubsequence(s[1..], f);
      var r := Filter(s, f);
      if f(s[0]) {
        assert r[0] == s[0] && r[1..] == Filter(s[1..], f);
      } else {
        assert r == Filter(s[1..], f);
      }
    }
  }

  lemma FilterCons<T(!new)>(x: T, s: seq<T>, f: T -> bool)
    ensures Filter([x] + s, f) == (if f(x) then [x] else []) + Filter(s, f)
  {
    assert ([x] + s)[1..] == s;
  }

  lemma {:induction false} FilterAppend<T(!new)>(a: seq<T>, b: seq<T>, f: T -> bool)
    ensures Filter(a + b, f) == Filter(a, f) + Filter(b, f)
  {
    if a == [] {
      assert a + b == b;
    } else {
      var h := if f(a[0]) then [a[0]] else [];
      calc {
        Filter(a + b, f);
        { assert (a + b)[0] == a[0]; assert (a + b)[1..] == a[1..] + b; }
        h + Filter(a[1..] + b, f);
        { FilterAppend(a[1..], b, f); }
        h + (Filter(a[1..], f) + Filter(b, f));
        (h + Filter(a[1..], f)) + Filter(b, f);
      }
    }
  }

  /** Filtering a sequence with one more element at the end keeps or drops that element alone. */
  lemma FilterSnoc<T(!new)>(s: seq<T>, x: T, f: T -> bool)
    ensures Filter(s + [x], f) == Filter(s, f) + (if f(x) then [x] else [])
  {
    FilterAppend(s, [x], f);
    assert [x][1..] == [];
  }

  /** An element occurs in the filtered sequence as often as in `s` when it passes the test,
      and not at all when it fails. */
  lemma {:induction false} FilterCount<T(!new)>(s: seq<T>, f: T -> bool)
    ensures forall x :: multiset(Filter(s, f))[x] == if f(x) then multiset(s)[x] else 0
  {
    if s != [] {
      FilterCount(s[1..], f);
      assert s == [s[0]] + s[1..];
      assert multiset(s) == multiset{s[0]} + multiset(s[1..]);
    }
  }

  /** A filter and its complement split `s` between them: every element lands in exactly one. */
  lemma FilterPartition<T(!new)>(s: seq<T>, f: T -> bool, g: T -> bool)
    requires forall x :: g(x) == !f(x)
    ensures multiset(Filter(s, f)) + multiset(Filter(s, g)) == multiset(s)
    ensures |Filter(s, f)| + |Filter(s, g)| == |s|
  {
    FilterSplit(s, f, g);
    assert |multiset(Filter(s, f)) + multiset(Filter(s, g))| == |multiset(s)|;
  }

  lemma {:induction false} FilterSplit<T(!new)>(s: seq<T>, f: T -> bool, g: T -> bool)
    requires forall x :: g(x) == !f(x)
    ensures multiset(Filter(s, f)) + multiset(Filter(s, g)) == multiset(s)
  {
    if s != [] {
      FilterSplit(s[1..], f, g);
      var a, b := Filter(s[1..], f), Filter(s[1..], g);
      assert multiset(s) == multiset{s[0]} + multiset(s[1..]) by {
        assert s == [s[0]] + s[1..];
      }
      if f(s[0]) {
        assert Filter(s, f) == [s[0]] + a && Filter(s, g) == b;
        assert multiset([s[0]] + a) == multiset{s[0]} + multiset(a);
      } else {
        assert Filter(s, f) == a && Filter(s, g) == [s[0]] + b;
        assert multiset([s[0]] + b) == multiset{s[0]} + multiset(b);
      }
    }
  }

  /** Three tests that each element passes exactly one of split `s` three ways. */
  lemma {:induction false} FilterThreeWay<T(!new)>(s: seq<T>, f: T -> bool, g: T -> bool, h: T -> bool)
    requires forall x :: (f(x) ==> !g(x) && !h(x)) && (g(x) ==> !h(x)) && (f(x) || g(x) || h(x))
    ensures |Filter(s, f)| + |Filter(s, g)| + |Filter(s, h)| == |s|
  {
    if s != [] {
      FilterThreeWay(s[1..], f, g, h);
    }
  }

  /** A weaker test keeps at least as many elements. */
  lemma {:induction false} FilterMonotone<T(!new)>(s: seq<T>, f: T -> bool, g: T -> bool)
    requires forall x :: f(x) ==> g(x)
    ensures |Filter(s, f)| <= |Filter(s, g)|
  {
    if s != [] {
      FilterMonotone(s[1..], f, g);
    }
  }

  /** The filter keeps something exactly when some element passes. */
  lemma {:induction false} FilterNonEmpty<T(!new)>(s: seq<T>, f: T -> bool)
    ensures |Filter(s, f)| > 0 <==> exists i :: 0 <= i < |s| && f(s[i])
  {
    if s != [] {
      FilterNonEmpty(s[1..], f);
      if exists i :: 1 <= i < |s| && f(s[i]) {
        var i :| 1 <= i < |s| && f(s[i]);
        assert s[1..][i - 1] == s[i];
      }
    }
  }

  /** A test every element passes keeps the whole sequence. */
  lemma {:induction false} FilterKeepsAll<T(!new)>(s: seq<T>, f: T -> bool)
    requires forall i :: 0 <= i < |s| ==> f(s[i])
    ensures Filter(s, f) == s
  {
    if s != [] {
      FilterKeepsAll(s[1..], f);
      assert s == [s[0]] + s[1..];
    }
  }

  /** A test no element passes keeps nothing. */
  lemma {:induction false} FilterKeepsNone<T(!new)>(s: seq<T>, f: T -> bool)
    requires forall i :: 0 <= i < |s| ==> !f(s[i])
    ensures Filter(s, f) == []
  {
    if s != [] {
      FilterKeepsNone(s[1..], f);
    }
  }

  /** When exactly one position passes, the filter is that element alone. */
  lemma {:induction false} FilterSingle<T(!new)>(s: seq<T>, f: T -> bool, j: nat)
    requires j < |s| && f(s[j])
    requires forall i :: 0 <= i < |s| && i != j ==> !f(s[i])
    ensures Filter(s, f) == [s[j]]
  {
    if j == 0 {
      FilterKeepsNone(s[1..], f);
    } else {
      FilterSingle(s[1..], f, j - 1);
    }
  }
}
