/** Sequence operations the reducers use on arrays: `findIndex`, `indexOf`,
    `splice(i, 1)` at the first occurrence, `filter`, and "find the first match
    and change it in place". */
module Seqs {

  /** `s.findIndex(p)`: the first index whose element satisfies `p`, or -1. */
  function FindIndex<T>(s: seq<T>, p: T -> bool): (r: int)
    ensures -1 <= r < |s|
    ensures r == -1 <==> forall k :: 0 <= k < |s| ==> !p(s[k])
    ensures 0 <= r ==> p(s[r]) && forall k :: 0 <= k < r ==> !p(s[k])
    decreases |s|
  {
    if s == [] then -1
    else if p(s[0]) then 0
    else
      var r := FindIndex(s[1..], p);
      assert forall k :: 1 <= k < |s| ==> s[k] == s[1..][k - 1];
      if r == -1 then -1 else r + 1
  }

  /** Replacing the element FindIndex found by one that still satisfies `p`
      leaves the found index where it was. */
  lemma FindIndexAfterUpdate<T>(s: seq<T>, p: T -> bool, y: T)
    requires 0 <= FindIndex(s, p) && p(y)
    ensures FindIndex(s[FindIndex(s, p) := y], p) == FindIndex(s, p)
  {
    var i := FindIndex(s, p);
    var t := s[i := y];
    assert p(t[i]);
    assert forall k :: 0 <= k < i ==> !p(t[k]);
  }

  /** `s.indexOf(x)`: the first position of `x`, or -1. */
  function IndexOf<T(==)>(s: seq<T>, x: T): (r: int)
    ensures -1 <= r < |s|
    ensures r == -1 <==> x !in s
    ensures 0 <= r ==> s[r] == x && x !in s[..r]
  {
    var r := FindIndex(s, y => y == x);
    assert 0 <= r ==> forall k :: 0 <= k < r ==> s[..r][k] == s[k];
    r
  }

  /** `i = s.indexOf(x); if (i !== -1) s.splice(i, 1)`: drop the first
      occurrence of `x`, keeping everything else in order. */
  function RemoveFirst<T(==)>(s: seq<T>, x: T): (r: seq<T>)
    ensures x !in s ==> r == s
    ensures x in s ==> |r| == |s| - 1
    ensures multiset(r) == multiset(s) - multiset{x}
    ensures x in s ==> exists i :: 0 <= i < |s| && s[i] == x && x !in s[..i] && r == s[..i] + s[i + 1..]
  {
    var i := IndexOf(s, x);
    if i == -1 then s
    else
      assert s == s[..i] + [s[i]] + s[i + 1..];
      s[..i] + s[i + 1..]
  }

  /** `s.filter(p)`: the elements satisfying `p`, in their original order. */
  function Filter<T>(s: seq<T>, p: T -> bool): (r: seq<T>)
    ensures |r| <= |s|
    ensures forall k :: 0 <= k < |r| ==> p(r[k])
    ensures forall k :: 0 <= k < |r| ==> r[k] in s
    ensures forall k :: 0 <= k < |s| && p(s[k]) ==> s[k] in r
    decreases |s|
  {
    if s == [] then []
    else
      var rest := Filter(s[1..], p);
      assert forall k :: 1 <= k < |s| ==> s[k] == s[1..][k - 1];
      if p(s[0]) then [s[0]] + rest else rest
  }

  /** Filtering distributes over concatenation: the kept elements of `a` come
      first, in order, followed by the kept elements of `b`. */
  lemma {:induction false} FilterConcat<T>(a: seq<T>, b: seq<T>, p: T -> bool)
    ensures Filter(a + b, p) == Filter(a, p) + Filter(b, p)
    decreases |a|
  {
    if a == [] {
      assert a + b == b;
    } else {
      assert (a + b)[1..] == a[1..] + b;
      FilterConcat(a[1..], b, p);
    }
  }

  /** When every element is kept, filtering changes nothing. */
  lemma {:induction false} FilterKeepsAll<T>(s: seq<T>, p: T -> bool)
    requires forall k :: 0 <= k < |s| ==> p(s[k])
    ensures Filter(s, p) == s
    decreases |s|
  {
    if s != [] {
      FilterKeepsAll(s[1..], p);
    }
  }

  /** Filtering twice with the same predicate is filtering once. */
  lemma FilterIdempotent<T>(s: seq<T>, p: T -> bool)
    ensures Filter(Filter(s, p), p) == Filter(s, p)
  {
    FilterKeepsAll(Filter(s, p), p);
  }

  /** `const x = s.find(sel); if (x) mutate(x)`: apply `f` to the first element
      selected by `sel` and leave every other element as it is. */
  function UpdateFirst<T>(s: seq<T>, sel: T -> bool, f: T -> T): (r: seq<T>)
    ensures |r| == |s|
    decreases |s|
  {
    if s == [] then []
    else if sel(s[0]) then [f(s[0])] + s[1..]
    else [s[0]] + UpdateFirst(s[1..], sel, f)
  }

  /** UpdateFirst changes exactly the element at the index FindIndex reports. */
  lemma {:induction false} UpdateFirstAt<T>(s: seq<T>, sel: T -> bool, f: T -> T)
    ensures var i := FindIndex(s, sel);
            UpdateFirst(s, sel, f) == if i == -1 then s else s[i := f(s[i])]
    decreases |s|
  {
    if s != [] && !sel(s[0]) {
      UpdateFirstAt(s[1..], sel, f);
      var i := FindIndex(s[1..], sel);
      if i != -1 {
        assert [s[0]] + s[1..][i := f(s[1..][i])] == s[i + 1 := f(s[i + 1])];
      } else {
        assert [s[0]] + s[1..] == s;
      }
    }
  }
}
