/** Sequence operations that the source performs with `Array.prototype.filter`,
    `includes` and `reverse`, with the facts the rest of the model relies on. */
module Lists {

  /** No value occurs twice. */
  predicate NoDup<T(==)>(s: seq<T>) {
    forall i, j :: 0 <= i < j < |s| ==> s[i] != s[j]
  }

  /** `s.filter(y => y !== x)` on item ids: every occurrence of `x` dropped, the rest kept in order. */
  function RemoveAll(s: seq<int>, x: int): (r: seq<int>)
    ensures x !in r
    ensures forall y :: y in r <==> y in s && y != x
    ensures forall y :: y != x ==> multiset(r)[y] == multiset(s)[y]
  {
    if s == [] then []
    else
      assert s == [s[0]] + s[1..];
      (if s[0] == x then [] else [s[0]]) + RemoveAll(s[1..], x)
  }

  /** `s.filter(y => !xs.includes(y))` on item ids: every value of `xs` dropped, the rest kept in order. */
  function Without(s: seq<int>, xs: seq<int>): (r: seq<int>)
    ensures forall y :: y in r <==> y in s && y !in xs
    ensures forall i :: 0 <= i < |r| ==> r[i] !in xs
    ensures |r| <= |s|
  {
    if s == [] then []
    else (if s[0] in xs then [] else [s[0]]) + Without(s[1..], xs)
  }

  /** `[...s].reverse()`. */
  function Reverse<T>(s: seq<T>): (r: seq<T>)
    ensures |r| == |s|
    ensures forall k :: 0 <= k < |s| ==> r[k] == s[|s| - 1 - k]
  {
    if s == [] then [] else Reverse(s[1..]) + [s[0]]
  }

  lemma {:induction false} RemoveAllAppend(a: seq<int>, b: seq<int>, x: int)
    ensures RemoveAll(a + b, x) == RemoveAll(a, x) + RemoveAll(b, x)
  {
    if a == [] {
      assert a + b == b;
    } else {
      assert (a + b)[0] == a[0] && (a + b)[1..] == a[1..] + b;
      RemoveAllAppend(a[1..], b, x);
    }
  }

  /** Removing a value that is not there changes nothing. */
  lemma {:induction false} RemoveAllAbsent(s: seq<int>, x: int)
    requires x !in s
    ensures RemoveAll(s, x) == s
  {
    if s != [] {
      RemoveAllAbsent(s[1..], x);
    }
  }

  lemma {:induction false} RemoveAllNoDup(s: seq<int>, x: int)
    requires NoDup(s)
    ensures NoDup(RemoveAll(s, x))
  {
    if s != [] {
      assert NoDup(s[1..]);
      RemoveAllNoDup(s[1..], x);
      NoDupCons(if s[0] == x then [] else [s[0]], RemoveAll(s[1..], x));
    }
  }

  lemma {:induction false} WithoutAppend(a: seq<int>, b: seq<int>, xs: seq<int>)
    ensures Without(a + b, xs) == Without(a, xs) + Without(b, xs)
  {
    if a == [] {
      assert a + b == b;
    } else {
      assert (a + b)[0] == a[0] && (a + b)[1..] == a[1..] + b;
      WithoutAppend(a[1..], b, xs);
    }
  }

  /** Dropping values none of which occur changes nothing. */
  lemma {:induction false} WithoutDisjoint(s: seq<int>, xs: seq<int>)
    requires forall i :: 0 <= i < |s| ==> s[i] !in xs
    ensures Without(s, xs) == s
  {
    if s != [] {
      assert s[0] !in xs;
      WithoutDisjoint(s[1..], xs);
      assert s == [s[0]] + s[1..];
    }
  }

  /** Dropping every value of `xs` from a sequence made only of such values leaves nothing. */
  lemma {:induction false} WithoutCovered(s: seq<int>, xs: seq<int>)
    requires forall i :: 0 <= i < |s| ==> s[i] in xs
    ensures Without(s, xs) == []
  {
    if s != [] {
      WithoutCovered(s[1..], xs);
    }
  }

  lemma {:induction false} WithoutNoDup(s: seq<int>, xs: seq<int>)
    requires NoDup(s)
    ensures NoDup(Without(s, xs))
  {
    if s != [] {
      assert NoDup(s[1..]);
      WithoutNoDup(s[1..], xs);
      NoDupCons(if s[0] in xs then [] else [s[0]], Without(s[1..], xs));
    }
  }

  /** Two duplicate-free sequences with no common value concatenate to a duplicate-free one. */
  lemma NoDupCons<T>(a: seq<T>, b: seq<T>)
    requires NoDup(a) && NoDup(b)
    requires forall i :: 0 <= i < |a| ==> a[i] !in b
    ensures NoDup(a + b)
  {
    forall i, j | 0 <= i < j < |a + b|
      ensures (a + b)[i] != (a + b)[j]
    {
      if j >= |a| && i < |a| {
        assert (a + b)[i] == a[i] && (a + b)[j] in b;
      }
    }
  }

  /** A duplicate-free sequence drawn from a finite set is no longer than the set. */
  lemma {:induction false} NoDupBound<T>(s: seq<T>, universe: set<T>)
    requires NoDup(s)
    requires forall y :: y in s ==> y in universe
    ensures |s| <= |universe|
  {
    if s != [] {
      assert NoDup(s[1..]);
      forall y | y in s[1..] ensures y in universe - {s[0]} {
        assert y in s;
      }
      NoDupBound(s[1..], universe - {s[0]});
    }
  }

  /** The set of the integers 1..n. */
  function UpTo(n: nat): (r: set<int>)
    ensures forall k :: k in r <==> 1 <= k <= n
  {
    if n == 0 then {} else UpTo(n - 1) + {n}
  }

  /** The set of the integers 1..n has n elements. */
  lemma {:induction false} UpToSize(n: nat)
    ensures |UpTo(n)| == n
  {
    if n > 0 {
      UpToSize(n - 1);
      assert n !in UpTo(n - 1);
    }
  }

  /** A duplicate-free sequence that holds every value of a finite set is at
      least as long as the set. */
  lemma {:induction false} CoverBound<T>(s: seq<T>, universe: set<T>)
    requires forall y :: y in universe ==> y in s
    ensures |universe| <= |s|
  {
    if s == [] {
      assert universe == {};
    } else {
      forall y | y in universe - {s[0]} ensures y in s[1..] {
        assert y in s && y != s[0];
      }
      CoverBound(s[1..], universe - {s[0]});
    }
  }
}
