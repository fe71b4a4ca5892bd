/** Sequence operations shared by the modals and the trackers: filtering,
    a stable sort by an integer key, and Python's negative-index slices. */
module Base {

  datatype Option<T> = None | Some(value: T)

  // ---------------------------------------------------------------------------
  // Filtering (JavaScript `Array.prototype.filter`, a Python comprehension)
  // ---------------------------------------------------------------------------

  /** The elements of `s` that satisfy `p`, in their original order. */
  function Filter<T>(s: seq<T>, p: T -> bool): (r: seq<T>)
    ensures |r| <= |s|
    ensures forall i :: 0 <= i < |r| ==> p(r[i]) && r[i] in s
    ensures forall x :: x in s && p(x) ==> x in r
  {
    if s == [] then [] else (if p(s[0]) then [s[0]] else []) + Filter(s[1..], p)
  }

  /** Filtering commutes with concatenation: it keeps the relative order. */
  lemma {:induction false} FilterConcat<T>(a: seq<T>, b: seq<T>, p: T -> bool)
    ensures Filter(a + b, p) == Filter(a, p) + Filter(b, p)
  {
    if a == [] {
      assert a + b == b;
    } else {
      assert (a + b)[0] == a[0];
      assert (a + b)[1..] == a[1..] + b;
      FilterConcat(a[1..], b, p);
    }
  }

  /** Filtering a sequence given by its first element. */
  lemma FilterCons<T>(h: T, t: seq<T>, p: T -> bool)
    ensures Filter([h] + t, p) == (if p(h) then [h] else []) + Filter(t, p)
  {
    assert ([h] + t)[0] == h && ([h] + t)[1..] == t;
  }

  /** Filtering keeps every element that satisfies `p` as often as it occurs,
      and drops every other element entirely. */
  lemma {:induction false} FilterCount<T>(s: seq<T>, p: T -> bool, x: T)
    ensures multiset(Filter(s, p))[x] == if p(x) then multiset(s)[x] else 0
  {
    if s != [] {
      FilterCount(s[1..], p, x);
      assert s == [s[0]] + s[1..];
      FilterCons(s[0], s[1..], p);
      var rest := Filter(s[1..], p);
      assert multiset(s) == multiset{s[0]} + multiset(s[1..]);
      if p(s[0]) {
        assert multiset(Filter(s, p)) == multiset{s[0]} + multiset(rest);
      } else {
        assert Filter(s, p) == rest;
      }
    }
  }

  /** Appending one element: the loop step of every filtering loop. */
  lemma FilterSnoc<T>(s: seq<T>, x: T, p: T -> bool)
    ensures Filter(s + [x], p) == Filter(s, p) + (if p(x) then [x] else [])
  {
    FilterConcat(s, [x], p);
    assert Filter([x], p) == (if p(x) then [x] else []) + Filter([], p);
  }

  // ---------------------------------------------------------------------------
  // Stable sorting by an integer key (JavaScript `sort` with a subtracting
  // comparator, Python `sorted(key=...)`; both are stable)
  // ---------------------------------------------------------------------------

  ghost predicate SortedBy<T>(s: seq<T>, key: T -> int) {
    forall i, j :: 0 <= i < j < |s| ==> key(s[i]) <= key(s[j])
  }

  /** Puts `x` in front of the first element whose key is not smaller, so an
      element that came first in the input stays first among equal keys. */
  function InsertBy<T>(x: T, s: seq<T>, key: T -> int): (r: seq<T>)
    requires SortedBy(s, key)
    ensures SortedBy(r, key)
    ensures multiset(r) == multiset(s) + multiset{x}
  {
    if s == [] || key(x) <= key(s[0]) then [x] + s
    else
      var t := InsertBy(x, s[1..], key);
      InsertBehind(x, s, t, key);
      [s[0]] + t
  }

  /** The step of `InsertBy` that keeps the head in front. */
  lemma InsertBehind<T>(x: T, s: seq<T>, t: seq<T>, key: T -> int)
    requires s != [] && key(s[0]) < key(x) && SortedBy(s, key)
    requires SortedBy(t, key) && multiset(t) == multiset(s[1..]) + multiset{x}
    ensures SortedBy([s[0]] + t, key)
    ensures multiset([s[0]] + t) == multiset(s) + multiset{x}
  {
    assert s == [s[0]] + s[1..];
    forall k | 0 <= k < |t| ensures key(s[0]) <= key(t[k]) {
      assert t[k] in multiset(t);
      assert t[k] == x || t[k] in multiset(s[1..]);
    }
  }

  /** An insertion sort: a sorted permutation of `s`. */
  function SortBy<T>(s: seq<T>, key: T -> int): (r: seq<T>)
    ensures SortedBy(r, key)
    ensures multiset(r) == multiset(s)
  {
    if s == [] then []
    else
      assert s == [s[0]] + s[1..];
      InsertBy(s[0], SortBy(s[1..], key), key)
  }

  /** The elements whose key is `v`: the group of ties that stability is about. */
  function KeyIs<T>(key: T -> int, v: int): T -> bool {
    x => key(x) == v
  }

  /** `InsertBy` puts `x` in front of every element with the same key. */
  lemma {:induction false} InsertByTies<T>(x: T, s: seq<T>, key: T -> int, v: int)
    requires SortedBy(s, key)
    ensures Filter(InsertBy(x, s, key), KeyIs(key, v))
         == (if key(x) == v then [x] else []) + Filter(s, KeyIs(key, v))
  {
    var p := KeyIs(key, v);
    if s == [] || key(x) <= key(s[0]) {
      assert InsertBy(x, s, key) == [x] + s;
      FilterCons(x, s, p);
    } else {
      var t := InsertBy(x, s[1..], key);
      assert InsertBy(x, s, key) == [s[0]] + t;
      InsertByTies(x, s[1..], key, v);
      PassedHeadTies(x, key(x) == v, s, t, p);
    }
  }

  /** The step of `InsertByTies` where `x` goes behind the head of `s`:
      the head is not among `x`'s ties, so the order of the two is moot. */
  lemma PassedHeadTies<T>(x: T, tie: bool, s: seq<T>, t: seq<T>, p: T -> bool)
    requires s != [] && !(tie && p(s[0]))
    requires Filter(t, p) == (if tie then [x] else []) + Filter(s[1..], p)
    ensures Filter([s[0]] + t, p) == (if tie then [x] else []) + Filter(s, p)
  {
    var before := (if tie then [x] else []);
    FilterCons(s[0], t, p);
    assert s == [s[0]] + s[1..];
    FilterCons(s[0], s[1..], p);
    if p(s[0]) {
      assert !tie && before == [];
      assert Filter([s[0]] + t, p) == [s[0]] + Filter(t, p);
    } else {
      assert Filter([s[0]] + t, p) == Filter(t, p);
      assert Filter(s, p) == Filter(s[1..], p);
    }
  }

  /** The sort is stable: among elements with equal keys, the input order is
      kept. */
  lemma {:induction false} SortByStable<T>(s: seq<T>, key: T -> int, v: int)
    ensures Filter(SortBy(s, key), KeyIs(key, v)) == Filter(s, KeyIs(key, v))
  {
    if s != [] {
      SortByStable(s[1..], key, v);
      InsertByTies(s[0], SortBy(s[1..], key), key, v);
    }
  }

  // ---------------------------------------------------------------------------
  // Python slices with negative bounds
  // ---------------------------------------------------------------------------

  /** Python's `s[start:]`: a negative `start` counts from the end, and both
      kinds of bound are clamped to the sequence. */
  function PySliceFrom<T>(s: seq<T>, start: int): (r: seq<T>)
    ensures |r| == if start >= 0 then (if start <= |s| then |s| - start else 0)
                   else (if -start <= |s| then -start else |s|)
    ensures r == s[|s| - |r|..]
  {
    if start < 0 then (if -start <= |s| then s[|s| + start..] else s)
    else if start <= |s| then s[start..] else []
  }

  // ---------------------------------------------------------------------------
  // Bounded deques (Python `collections.deque(maxlen=cap)`)
  // ---------------------------------------------------------------------------

  /** The last `cap` elements of `s` (all of them when there are fewer). */
  function Window<T>(s: seq<T>, cap: nat): (r: seq<T>)
    ensures |r| == if |s| <= cap then |s| else cap
    ensures r == s[|s| - |r|..]
  {
    if |s| <= cap then s else s[|s| - cap..]
  }

  /** For `k >= 1` the window is Python's `s[-k:]`. */
  lemma WindowIsNegativeSlice<T>(s: seq<T>, k: int)
    ensures k >= 1 ==> Window(s, k) == PySliceFrom(s, -k)
  {
  }

  /** `d.append(x)` on a deque with `maxlen=cap`: when full, the oldest
      element is dropped; with `maxlen=0` nothing is ever kept. */
  function BoundedAppend<T>(d: seq<T>, x: T, cap: nat): (r: seq<T>)
    requires |d| <= cap
    ensures |r| == if |d| < cap then |d| + 1 else cap
    ensures cap > 0 ==> r[|r| - 1] == x && r[..|r| - 1] == (if |d| < cap then d else d[1..])
  {
    if |d| < cap then d + [x] else if cap == 0 then [] else d[1..] + [x]
  }

  /** A deque that received the elements of `s` holds their window, so
      appending to it gives the window of `s + [x]`. */
  lemma {:induction false} WindowAppend<T>(s: seq<T>, x: T, cap: nat)
    ensures BoundedAppend(Window(s, cap), x, cap) == Window(s + [x], cap)
  {
    var w := Window(s, cap);
    var t := s + [x];
    if |s| < cap {
      assert w == s;
    } else if cap > 0 {
      assert w == s[|s| - cap..];
      assert Window(t, cap) == t[|t| - cap..];
      assert w[1..] + [x] == t[|t| - cap..];
    }
  }
}
