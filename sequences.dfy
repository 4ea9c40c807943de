/** Generic sequence operations shared by the store and the screens:
    the `Array.prototype` methods the source relies on (`filter`, `map`,
    `findIndex`, `Math.max` over a spread), each specified by what it means. */
module Sequences {

  datatype Option<T> = None | Some(value: T)

  /** `s.filter(p)`: the elements of `s` that satisfy `p`, in their original order. */
  function Filter<T(==)>(s: seq<T>, p: T -> bool): (r: seq<T>)
    ensures |r| <= |s|
    ensures forall i | 0 <= i < |r| :: p(r[i])
    ensures forall i | 0 <= i < |r| :: r[i] in s
    ensures forall i | 0 <= i < |s| && p(s[i]) :: s[i] in r
  {
    if s == [] then []
    else (if p(s[0]) then [s[0]] else []) + Filter(s[1..], p)
  }

  /** `r` can be obtained from `s` by deleting elements: the order of what is kept is unchanged. */
  predicate IsSubsequence<T(==)>(r: seq<T>, s: seq<T>)
    decreases |s|
  {
    r == [] || (s != [] && if r[0] == s[0] then IsSubsequence(r[1..], s[1..]) else IsSubsequence(r, s[1..]))
  }

  /** Filtering keeps the relative order of the elements it keeps. */
  lemma {:induction false} FilterIsSubsequence<T>(s: seq<T>, p: T -> bool)
    ensures IsSubsequence(Filter(s, p), s)
  {
    if s != [] {
      FilterIsSubsequence(s[1..], p);
      var rest := Filter(s[1..], p);
      if p(s[0]) {
        assert Filter(s, p) == [s[0]] + rest;
        assert ([s[0]] + rest)[1..] == rest;
      } else {
        assert Filter(s, p) == rest;
        SubsequenceOfTail(rest, s);
      }
    }
  }

  /** A subsequence of the tail is a subsequence of the whole. */
  lemma {:induction false} SubsequenceOfTail<T>(r: seq<T>, s: seq<T>)
    requires s != [] && IsSubsequence(r, s[1..])
    ensures IsSubsequence(r, s)
    decreases |s|
  {
    if r != [] && r[0] == s[0] {
      assert s[1..] != [];
      if r[0] == s[1] {
        assert IsSubsequence(r[1..], s[2..]);
        SubsequenceOfTail(r[1..], s[1..]);
      } else {
        assert IsSubsequence(r, s[2..]);
        SubsequenceOfTail(r, s[1..]);
        SubsequenceOfTail(r[1..], s[1..]) by {
          SubsequenceDropHead(r, s[1..]);
        }
      }
    }
  }

  /** Dropping the first element of a subsequence keeps it a subsequence. */
  lemma {:induction false} SubsequenceDropHead<T>(r: seq<T>, s: seq<T>)
    requires r != [] && IsSubsequence(r, s)
    ensures s != [] && IsSubsequence(r[1..], s[1..])
    decreases |s|
  {
    if r[0] != s[0] {
      SubsequenceDropHead(r, s[1..]);
      SubsequenceOfTail(r[1..], s[1..]);
    }
  }

  /** Filtering keeps every element that satisfies `p` as often as it occurs, and drops every other. */
  lemma {:induction false} FilterCount<T>(s: seq<T>, p: T -> bool, x: T)
    ensures multiset(Filter(s, p))[x] == if p(x) then multiset(s)[x] else 0
  {
    if s != [] {
      FilterCount(s[1..], p, x);
      assert s == [s[0]] + s[1..];
    }
  }

  /** Filtering distributes over concatenation. */
  lemma {:induction false} FilterAppend<T>(a: seq<T>, b: seq<T>, p: T -> bool)
    ensures Filter(a + b, p) == Filter(a, p) + Filter(b, p)
  {
    if a == [] {
      assert a + b == b;
    } else {
      assert (a + b)[1..] == a[1..] + b;
      FilterAppend(a[1..], b, p);
    }
  }

  /** The filter drops nothing exactly when every element satisfies `p`, and then it is the identity. */
  lemma {:induction false} FilterKeepsAll<T>(s: seq<T>, p: T -> bool)
    ensures |Filter(s, p)| == |s| <==> forall i | 0 <= i < |s| :: p(s[i])
    ensures (forall i | 0 <= i < |s| :: p(s[i])) ==> Filter(s, p) == s
  {
    if s != [] {
      FilterKeepsAll(s[1..], p);
      assert forall i | 1 <= i < |s| :: s[i] == s[1..][i - 1];
      if !p(s[0]) {
        assert |Filter(s, p)| == |Filter(s[1..], p)| <= |s| - 1;
      }
      if forall i | 0 <= i < |s| :: p(s[i]) {
        assert forall i | 0 <= i < |s[1..]| :: p(s[1..][i]);
        assert s == [s[0]] + s[1..];
      }
    }
  }

  /** Two predicates that agree on every element of `s` filter it alike. */
  lemma {:induction false} FilterExtensional<T>(s: seq<T>, p: T -> bool, q: T -> bool)
    requires forall i | 0 <= i < |s| :: p(s[i]) == q(s[i])
    ensures Filter(s, p) == Filter(s, q)
  {
    if s != [] {
      assert forall i | 0 <= i < |s[1..]| :: s[1..][i] == s[i + 1];
      FilterExtensional(s[1..], p, q);
    }
  }

  /** `s.map(x => sel(x) ? f(x) : x)`: every element chosen by `sel` is replaced by its image under `f`. */
  function MapWhere<T>(s: seq<T>, sel: T -> bool, f: T -> T): (r: seq<T>)
    ensures |r| == |s|
    ensures forall i | 0 <= i < |s| && sel(s[i]) :: r[i] == f(s[i])
    ensures forall i | 0 <= i < |s| && !sel(s[i]) :: r[i] == s[i]
  {
    if s == [] then []
    else [if sel(s[0]) then f(s[0]) else s[0]] + MapWhere(s[1..], sel, f)
  }

  /** Applying a selective map twice with an involution that keeps the selection restores the sequence. */
  lemma MapWhereTwice<T>(s: seq<T>, sel: T -> bool, f: T -> T)
    requires forall x :: sel(x) ==> sel(f(x)) && f(f(x)) == x
    ensures MapWhere(MapWhere(s, sel, f), sel, f) == s
  {
    var once := MapWhere(s, sel, f);
    var twice := MapWhere(once, sel, f);
    forall i | 0 <= i < |s|
      ensures twice[i] == s[i]
    {
      if sel(s[i]) {
        assert once[i] == f(s[i]) && sel(once[i]);
      }
    }
  }

  /** `s.map(f)`. */
  function Map<T, U>(s: seq<T>, f: T -> U): (r: seq<U>)
    ensures |r| == |s|
    ensures forall i | 0 <= i < |s| :: r[i] == f(s[i])
  {
    if s == [] then [] else [f(s[0])] + Map(s[1..], f)
  }

  /** `s.findIndex(p)`: the first index whose element satisfies `p`, or -1 when none does. */
  function FindIndex<T>(s: seq<T>, p: T -> bool): (i: int)
    ensures -1 <= i < |s|
    ensures 0 <= i ==> p(s[i]) && forall j | 0 <= j < i :: !p(s[j])
    ensures i == -1 <==> forall j | 0 <= j < |s| :: !p(s[j])
  {
    if s == [] then -1
    else if p(s[0]) then 0
    else var k := FindIndex(s[1..], p); if k == -1 then -1 else k + 1
  }

  /** `Math.max(lo, ...xs)`: the largest of `lo` and the elements of `xs`. */
  function MaxFrom(lo: int, xs: seq<int>): (m: int)
    ensures lo <= m
    ensures forall i | 0 <= i < |xs| :: xs[i] <= m
    ensures m == lo || exists i | 0 <= i < |xs| :: xs[i] == m
    decreases |xs|
  {
    if xs == [] then lo
    else
      var m := MaxFrom(if xs[0] > lo then xs[0] else lo, xs[1..]);
      assert forall i | 1 <= i < |xs| :: xs[i] == xs[1..][i - 1];
      m
  }

  /** `Math.max(...xs)` on a non-empty list: the largest element. */
  function Max(xs: seq<int>): (m: int)
    requires |xs| > 0
    ensures m in xs
    ensures forall i | 0 <= i < |xs| :: xs[i] <= m
  {
    MaxFrom(xs[0], xs[1..])
  }
}
