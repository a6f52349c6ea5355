/**
 * The array helpers the source relies on (`findIndex`, `filter(...).length`,
 * `filter`), stated once over sequences and proved here.
 */
module Lists {

  function Min(a: int, b: int): int { if a <= b then a else b }

  function MinReal(a: real, b: real): real { if a <= b then a else b }

  function MaxReal(a: real, b: real): real { if a >= b then a else b }

  /** `s.findIndex(p)`: the index of the first element satisfying `p`, or -1. */
  function FindFirst<T>(s: seq<T>, p: T -> bool): (r: int)
    ensures -1 <= r < |s|
    ensures r == -1 <==> forall i :: 0 <= i < |s| ==> !p(s[i])
    ensures 0 <= r ==> p(s[r]) && forall j :: 0 <= j < r ==> !p(s[j])
  {
    if |s| == 0 then -1
    else if p(s[0]) then 0
    else
      var k := FindFirst(s[1..], p);
      if k == -1 then -1 else k + 1
  }

  /** `s.filter(p).length`. */
  function Count<T>(s: seq<T>, p: T -> bool): (n: nat)
    ensures n <= |s|
  {
    if |s| == 0 then 0 else (if p(s[0]) then 1 else 0) + Count(s[1..], p)
  }

  /** `s.filter(p)`: the elements satisfying `p`, in their original order. */
  function Filter<T>(s: seq<T>, p: T -> bool): (r: seq<T>)
    ensures |r| == Count(s, p)
    ensures forall x :: x in r ==> x in s && p(x)
    ensures forall i :: 0 <= i < |s| && p(s[i]) ==> s[i] in r
    ensures (forall i :: 0 <= i < |s| ==> p(s[i])) ==> r == s
  {
    if |s| == 0 then [] else (if p(s[0]) then [s[0]] else []) + Filter(s[1..], p)
  }

  /** Counting a non-empty prefix: its first element, then the rest of the prefix. */
  lemma CountPrefixStep<T>(s: seq<T>, p: T -> bool, i: nat)
    requires 0 < i <= |s|
    ensures Count(s[..i], p) == (if p(s[0]) then 1 else 0) + Count(s[1..][..i - 1], p)
  {
    assert s[..i][1..] == s[1..][..i - 1];
  }

  /**
   * `filter` keeps order: an element satisfying `p` lands at the index given
   * by how many elements before it satisfy `p`.
   */
  lemma {:induction false} FilterAt<T>(s: seq<T>, p: T -> bool, i: nat)
    requires i < |s| && p(s[i])
    ensures Count(s[..i], p) < |Filter(s, p)| && Filter(s, p)[Count(s[..i], p)] == s[i]
    decreases i
  {
    var t := s[1..];
    var pre := if p(s[0]) then [s[0]] else [];
    assert Filter(s, p) == pre + Filter(t, p);
    if i == 0 {
      assert s[..0] == [];
    } else {
      assert t[i - 1] == s[i];
      FilterAt(t, p, i - 1);
      CountPrefixStep(s, p, i);
      var k := Count(t[..i - 1], p);
      assert Filter(s, p)[|pre| + k] == Filter(t, p)[k];
    }
  }

  /** Every element satisfying `p` is placed as `FilterAt` says; with the length, this fixes the result. */
  lemma FilterPositions<T>(s: seq<T>, p: T -> bool)
    ensures forall i :: 0 <= i < |s| && p(s[i]) ==>
      Count(s[..i], p) < |Filter(s, p)| && Filter(s, p)[Count(s[..i], p)] == s[i]
  {
    forall i | 0 <= i < |s| && p(s[i])
      ensures Count(s[..i], p) < |Filter(s, p)| && Filter(s, p)[Count(s[..i], p)] == s[i]
    {
      FilterAt(s, p, i);
    }
  }

  /** A prefix whose elements all satisfy `p` survives filtering as the prefix of the result. */
  lemma {:induction false} FilterPrefix<T>(s: seq<T>, p: T -> bool, n: nat)
    requires n <= |s| && forall i :: 0 <= i < n ==> p(s[i])
    ensures |Filter(s, p)| >= n && forall i :: 0 <= i < n ==> Filter(s, p)[i] == s[i]
  {
    if n > 0 {
      var t := s[1..];
      assert forall i :: 0 <= i < n - 1 ==> t[i] == s[i + 1];
      FilterPrefix(t, p, n - 1);
      var f := Filter(t, p);
      assert Filter(s, p) == [s[0]] + f;
    }
  }

  /** No element satisfies `p` exactly when the count is zero. */
  lemma {:induction false} CountZero<T>(s: seq<T>, p: T -> bool)
    ensures Count(s, p) == 0 <==> forall i :: 0 <= i < |s| ==> !p(s[i])
  {
    if |s| > 0 {
      CountZero(s[1..], p);
      assert forall i :: 1 <= i < |s| ==> s[i] == s[1..][i - 1];
    }
  }

  /** Counting distributes over concatenation. */
  lemma {:induction false} CountAppend<T>(a: seq<T>, b: seq<T>, p: T -> bool)
    ensures Count(a + b, p) == Count(a, p) + Count(b, p)
  {
    if |a| == 0 {
      assert a + b == b;
    } else {
      assert (a + b)[1..] == a[1..] + b;
      CountAppend(a[1..], b, p);
    }
  }

  /** `s.slice(0, n)`: the first `n` elements, or all of them when there are fewer. */
  function Take<T>(s: seq<T>, n: nat): (r: seq<T>)
    ensures |r| == Min(|s|, n) && r == s[..|r|]
  {
    if |s| <= n then s else s[..n]
  }

  /** Taking after prepending one element keeps that element and one fewer of the rest. */
  lemma TakePrepend<T>(x: T, s: seq<T>, n: nat)
    requires n > 0
    ensures Take([x] + s, n) == [x] + Take(s, n - 1)
  {
  }

  /** `s.map(f)`: `f` applied to each element, in order. */
  function Map<T, U>(s: seq<T>, f: T -> U): (r: seq<U>)
    ensures |r| == |s| && forall i :: 0 <= i < |s| ==> r[i] == f(s[i])
  {
    seq(|s|, i requires 0 <= i < |s| => f(s[i]))
  }

  /** `f` applied to every index below `n`, in index order. */
  function MapIndex<B>(n: nat, f: nat --> B): (r: seq<B>)
    requires forall i: nat :: i < n ==> f.requires(i)
    ensures |r| == n
  {
    if n == 0 then [] else MapIndex(n - 1, f) + [f(n - 1)]
  }

  /** Entry `i` of `MapIndex(n, f)` is `f(i)`. */
  lemma {:induction false} MapIndexPointwise<B>(n: nat, f: nat --> B)
    requires forall i: nat :: i < n ==> f.requires(i)
    ensures forall i: nat :: i < n ==> MapIndex(n, f)[i] == f(i)
  {
    if n > 0 {
      MapIndexPointwise(n - 1, f);
      assert forall i: nat :: i < n - 1 ==> MapIndex(n, f)[i] == MapIndex(n - 1, f)[i];
    }
  }

  /** The elements in the opposite order. */
  function Reverse<T>(s: seq<T>): (r: seq<T>)
    ensures |r| == |s|
  {
    if |s| == 0 then [] else [s[|s| - 1]] + Reverse(s[..|s| - 1])
  }

  /** Capping before prepending and capping again is the same as capping once. */
  lemma TakePrependTake<T>(x: T, s: seq<T>, n: nat)
    requires n > 0
    ensures Take([x] + Take(s, n), n) == Take([x] + s, n)
  {
    TakePrepend(x, Take(s, n), n);
    TakePrepend(x, s, n);
  }

  /** Reversing after appending one element puts it in front. */
  lemma ReverseAppendOne<T>(s: seq<T>, x: T)
    ensures Reverse(s + [x]) == [x] + Reverse(s)
  {
    assert (s + [x])[..|s|] == s;
  }

  /** Prepend each element of `es` in turn, capping at `cap` after every prepend. */
  function PushAll<T>(h: seq<T>, es: seq<T>, cap: nat): seq<T> {
    if |es| == 0 then h else Take([es[|es| - 1]] + PushAll(h, es[..|es| - 1], cap), cap)
  }

  /** One more element is one more prepend-and-cap. */
  lemma PushAllAppend<T>(h: seq<T>, es: seq<T>, x: T, cap: nat)
    ensures PushAll(h, es + [x], cap) == Take([x] + PushAll(h, es, cap), cap)
  {
    assert (es + [x])[..|es|] == es;
  }

  /**
   * Prepend-and-cap at every step is the same as putting the new elements in
   * front, most recent first, and capping once.
   */
  lemma {:induction false} PushAllIsRecentFirst<T>(h: seq<T>, es: seq<T>, cap: nat)
    requires cap > 0
    ensures PushAll(h, es, cap) == if es == [] then h else Take(Reverse(es) + h, cap)
    ensures es != [] ==> |PushAll(h, es, cap)| == Min(|es| + |h|, cap)
  {
    if |es| > 0 {
      var front := es[..|es| - 1];
      var x := es[|es| - 1];
      assert es == front + [x];
      PushAllAppend(h, front, x, cap);
      PushAllIsRecentFirst(h, front, cap);
      ReverseAppendOne(front, x);
      if front == [] {
        assert Reverse(es) == [x];
      } else {
        TakePrependTake(x, Reverse(front) + h, cap);
        assert [x] + (Reverse(front) + h) == Reverse(es) + h;
      }
    }
  }
}
