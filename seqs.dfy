/**
 * The JavaScript array operations the core uses, on sequences:
 * `filter`, `filter(...).length`, and the stable `sort` with a
 * descending numeric comparator `(a, b) => key(b) - key(a)`.
 */
module Seqs {

  /** A value that may be missing (`null`/`undefined` in the source). */
  datatype Option<T> = None | Some(value: T)

  // ---------------------------------------------------------------------
  // filter
  // ---------------------------------------------------------------------

  /** `s.filter(p)`: the elements of `s` satisfying `p`, in their order. */
  function Filter<T>(s: seq<T>, p: T -> bool): (r: seq<T>)
    ensures |r| <= |s|
  {
    if |s| == 0 then []
    else (if p(s[0]) then [s[0]] else []) + Filter(s[1..], p)
  }

  lemma {:induction false} FilterAppend<T>(a: seq<T>, b: seq<T>, p: T -> bool)
    ensures Filter(a + b, p) == Filter(a, p) + Filter(b, p)
  {
    if |a| == 0 {
      assert a + b == b;
    } else {
      var head := if p(a[0]) then [a[0]] else [];
      assert (a + b)[0] == a[0];
      assert (a + b)[1..] == a[1..] + b;
      assert Filter(a + b, p) == head + Filter(a[1..] + b, p);
      FilterAppend(a[1..], b, p);
      assert Filter(a, p) == head + Filter(a[1..], p);
      assert head + (Filter(a[1..], p) + Filter(b, p)) == (head + Filter(a[1..], p)) + Filter(b, p);
    }
  }

  /** An element is kept exactly when it is in `s` and satisfies `p`. */
  lemma {:induction false} FilterMembership<T>(s: seq<T>, p: T -> bool, x: T)
    ensures x in Filter(s, p) <==> x in s && p(x)
  {
    if |s| > 0 {
      FilterMembership(s[1..], p, x);
      assert s == [s[0]] + s[1..];
    }
  }

  /** `FilterMembership` for every element at once. */
  lemma FilterMembers<T>(s: seq<T>, p: T -> bool)
    ensures forall x :: x in Filter(s, p) <==> x in s && p(x)
  {
    forall x
      ensures x in Filter(s, p) <==> x in s && p(x)
    {
      FilterMembership(s, p, x);
    }
  }

  /** Each value is kept as often as it occurs, or not at all. */
  lemma {:induction false} FilterMultiplicity<T>(s: seq<T>, p: T -> bool, x: T)
    ensures multiset(Filter(s, p))[x] == if p(x) then multiset(s)[x] else 0
  {
    if |s| > 0 {
      FilterMultiplicity(s[1..], p, x);
      assert s == [s[0]] + s[1..];
    }
  }

  /** A predicate that holds of everything keeps the whole sequence. */
  lemma {:induction false} FilterAll<T>(s: seq<T>, p: T -> bool)
    requires forall x <- s :: p(x)
    ensures Filter(s, p) == s
  {
    if |s| > 0 {
      FilterAll(s[1..], p);
      assert s == [s[0]] + s[1..];
    }
  }

  /** A predicate that holds of nothing keeps nothing. */
  lemma {:induction false} FilterNone<T>(s: seq<T>, p: T -> bool)
    requires forall x <- s :: !p(x)
    ensures Filter(s, p) == []
  {
    if |s| > 0 {
      FilterNone(s[1..], p);
    }
  }

  /** Filtering with a stronger predicate keeps no more elements. */
  lemma {:induction false} FilterMonotone<T>(s: seq<T>, p: T -> bool, q: T -> bool)
    requires forall x <- s :: p(x) ==> q(x)
    ensures |Filter(s, p)| <= |Filter(s, q)|
  {
    if |s| > 0 {
      FilterMonotone(s[1..], p, q);
    }
  }

  /** A predicate and its negation split a sequence between them. */
  lemma {:induction false} FilterComplement<T>(s: seq<T>, p: T -> bool, q: T -> bool)
    requires forall x :: q(x) == !p(x)
    ensures |Filter(s, p)| + |Filter(s, q)| == |s|
  {
    if |s| > 0 {
      FilterComplement(s[1..], p, q);
    }
  }

  // ---------------------------------------------------------------------
  // subsequences
  // ---------------------------------------------------------------------

  /** `a` is `b` with some elements removed, the rest kept in order. */
  predicate IsSubsequence<T(==)>(a: seq<T>, b: seq<T>)
    decreases |b|
  {
    if |a| == 0 then true
    else if |b| == 0 then false
    else if a[0] == b[0] then IsSubsequence(a[1..], b[1..])
    else IsSubsequence(a, b[1..])
  }

  lemma {:induction false} FilterIsSubsequence<T>(s: seq<T>, p: T -> bool)
    ensures IsSubsequence(Filter(s, p), s)
  {
    if |s| > 0 {
      FilterIsSubsequence(s[1..], p);
      if p(s[0]) {
        assert Filter(s, p) == [s[0]] + Filter(s[1..], p);
        assert Filter(s, p)[1..] == Filter(s[1..], p);
      } else {
        assert Filter(s, p) == Filter(s[1..], p);
        SubsequenceDropFront(Filter(s[1..], p), s);
      }
    }
  }

  /** A subsequence of the tail is a subsequence of the whole. */
  lemma {:induction false} SubsequenceDropFront<T>(a: seq<T>, b: seq<T>)
    requires |b| > 0 && IsSubsequence(a, b[1..])
    ensures IsSubsequence(a, b)
    decreases |b|, 0
  {
    if |a| > 0 && a[0] == b[0] {
      SubsequenceTail(a, b[1..]);
    }
  }

  /** Dropping the first element of a subsequence keeps it a subsequence. */
  lemma {:induction false} SubsequenceTail<T>(a: seq<T>, b: seq<T>)
    requires |a| > 0 && IsSubsequence(a, b)
    ensures IsSubsequence(a[1..], b)
    decreases |b|, 1
  {
    if a[0] == b[0] {
      SubsequenceDropFront(a[1..], b);
    } else {
      SubsequenceTail(a, b[1..]);
      SubsequenceDropFront(a[1..], b);
    }
  }

  // ---------------------------------------------------------------------
  // stable sort by a descending key
  // ---------------------------------------------------------------------

  /** Keys never increase from left to right. */
  predicate SortedDesc<T>(s: seq<T>, key: T -> int) {
    forall i, j :: 0 <= i < j < |s| ==> key(s[i]) >= key(s[j])
  }

  /**
   * Inserts `x` into `t` after every element whose key is at least `x`'s,
   * which is where a stable sort leaves an element that comes after all of `t`.
   */
  function Insert<T>(t: seq<T>, x: T, key: T -> int): (r: seq<T>)
    ensures |r| == |t| + 1
  {
    if |t| == 0 then [x]
    else if key(t[0]) < key(x) then [x] + t
    else
      assert t == [t[0]] + t[1..];
      [t[0]] + Insert(t[1..], x, key)
  }

  /**
   * `s.sort((a, b) => key(b) - key(a))`. `Array.prototype.sort` is stable, so
   * this is insertion of each element, left to right, into the sorted prefix.
   */
  function SortDesc<T>(s: seq<T>, key: T -> int): (r: seq<T>)
    ensures |r| == |s|
    decreases |s|
  {
    if |s| == 0 then [] else Insert(SortDesc(s[..|s| - 1], key), s[|s| - 1], key)
  }

  /** Insertion adds exactly the one element. */
  lemma {:induction false} InsertMultiset<T>(t: seq<T>, x: T, key: T -> int)
    ensures multiset(Insert(t, x, key)) == multiset(t) + multiset{x}
  {
    if |t| > 0 && key(t[0]) >= key(x) {
      InsertMultiset(t[1..], x, key);
      assert t == [t[0]] + t[1..];
    }
  }

  lemma {:induction false} InsertSorted<T>(t: seq<T>, x: T, key: T -> int)
    requires SortedDesc(t, key)
    ensures SortedDesc(Insert(t, x, key), key)
  {
    if |t| > 0 && key(t[0]) >= key(x) {
      InsertSorted(t[1..], x, key);
      InsertMultiset(t[1..], x, key);
      var r := Insert(t[1..], x, key);
      forall y | y in r
        ensures key(t[0]) >= key(y)
      {
        assert y in multiset(r);
        assert y in multiset(t[1..]) || y == x;
      }
      assert Insert(t, x, key) == [t[0]] + r;
    }
  }

  /** The result is ordered by non-increasing key. */
  lemma {:induction false} SortDescSorted<T>(s: seq<T>, key: T -> int)
    ensures SortedDesc(SortDesc(s, key), key)
    decreases |s|
  {
    if |s| > 0 {
      SortDescSorted(s[..|s| - 1], key);
      InsertSorted(SortDesc(s[..|s| - 1], key), s[|s| - 1], key);
    }
  }

  lemma MultisetLast<T>(s: seq<T>)
    requires |s| > 0
    ensures multiset(s) == multiset(s[..|s| - 1]) + multiset{s[|s| - 1]}
  {
    assert s == s[..|s| - 1] + [s[|s| - 1]];
  }

  /** The result is a permutation of the input. */
  lemma {:induction false} SortDescPermutation<T>(s: seq<T>, key: T -> int)
    ensures multiset(SortDesc(s, key)) == multiset(s)
    ensures |SortDesc(s, key)| == |s|
    decreases |s|
  {
    if |s| > 0 {
      SortDescPermutation(s[..|s| - 1], key);
      InsertMultiset(SortDesc(s[..|s| - 1], key), s[|s| - 1], key);
      MultisetLast(s);
    }
  }

  /** The elements whose key is `v`, in their order. */
  function WithKey<T>(s: seq<T>, key: T -> int, v: int): seq<T> {
    if |s| == 0 then []
    else (if key(s[0]) == v then [s[0]] else []) + WithKey(s[1..], key, v)
  }

  lemma {:induction false} WithKeyAppend<T>(a: seq<T>, b: seq<T>, key: T -> int, v: int)
    ensures WithKey(a + b, key, v) == WithKey(a, key, v) + WithKey(b, key, v)
  {
    if |a| == 0 {
      assert a + b == b;
    } else {
      var head := if key(a[0]) == v then [a[0]] else [];
      assert (a + b)[0] == a[0];
      assert (a + b)[1..] == a[1..] + b;
      assert WithKey(a + b, key, v) == head + WithKey(a[1..] + b, key, v);
      WithKeyAppend(a[1..], b, key, v);
      assert WithKey(a, key, v) == head + WithKey(a[1..], key, v);
      assert head + (WithKey(a[1..], key, v) + WithKey(b, key, v))
          == (head + WithKey(a[1..], key, v)) + WithKey(b, key, v);
    }
  }

  /** When every key is `v`, nothing is dropped. */
  lemma {:induction false} WithKeyAll<T>(s: seq<T>, key: T -> int, v: int)
    requires forall y <- s :: key(y) == v
    ensures WithKey(s, key, v) == s
  {
    if |s| > 0 {
      WithKeyAll(s[1..], key, v);
      assert s == [s[0]] + s[1..];
    }
  }

  /** In a sorted sequence whose first key is below `v`, no key is `v` or more. */
  lemma {:induction false} WithKeyBelow<T>(t: seq<T>, key: T -> int, v: int)
    requires forall y <- t :: key(y) < v
    ensures WithKey(t, key, v) == []
  {
    if |t| > 0 {
      WithKeyBelow(t[1..], key, v);
    }
  }

  lemma {:induction false} InsertWithKey<T>(t: seq<T>, x: T, key: T -> int, v: int)
    requires SortedDesc(t, key)
    ensures WithKey(Insert(t, x, key), key, v)
         == WithKey(t, key, v) + (if key(x) == v then [x] else [])
  {
    if |t| == 0 {
    } else if key(t[0]) < key(x) {
      assert Insert(t, x, key) == [x] + t;
      assert ([x] + t)[1..] == t;
      if key(x) == v {
        assert forall y <- t :: key(y) < v by {
          forall y <- t ensures key(y) < v {
            var i :| 0 <= i < |t| && t[i] == y;
            assert key(t[0]) >= key(t[i]);
          }
        }
        WithKeyBelow(t, key, v);
      }
    } else {
      InsertWithKey(t[1..], x, key, v);
      var r := Insert(t[1..], x, key);
      assert Insert(t, x, key) == [t[0]] + r;
      assert ([t[0]] + r)[1..] == r;
    }
  }

  /**
   * Stability: the elements sharing any one key keep their input order,
   * which is what makes ties fall back to the order of the input.
   */
  lemma {:induction false} SortDescStable<T>(s: seq<T>, key: T -> int, v: int)
    ensures WithKey(SortDesc(s, key), key, v) == WithKey(s, key, v)
    decreases |s|
  {
    if |s| > 0 {
      SortDescStable(s[..|s| - 1], key, v);
      SortDescSorted(s[..|s| - 1], key);
      InsertWithKey(SortDesc(s[..|s| - 1], key), s[|s| - 1], key, v);
      WithKeyLast(s, key, v);
    }
  }

  lemma WithKeyLast<T>(s: seq<T>, key: T -> int, v: int)
    requires |s| > 0
    ensures WithKey(s, key, v)
         == WithKey(s[..|s| - 1], key, v) + (if key(s[|s| - 1]) == v then [s[|s| - 1]] else [])
  {
    var x := s[|s| - 1];
    assert s == s[..|s| - 1] + [x];
    WithKeyAppend(s[..|s| - 1], [x], key, v);
    assert [x][1..] == [];
  }

  /**
   * Where the backward scan of an insertion sort stops: after the elements
   * whose key is at least `x`'s and before those whose key is smaller.
   */
  lemma {:induction false} InsertAt<T>(t: seq<T>, x: T, key: T -> int, j: nat)
    requires j <= |t|
    requires forall k :: 0 <= k < j ==> key(t[k]) >= key(x)
    requires forall k :: j <= k < |t| ==> key(t[k]) < key(x)
    ensures Insert(t, x, key) == t[..j] + [x] + t[j..]
  {
    if j == 0 {
      if |t| > 0 {
        assert key(t[0]) < key(x);
      }
    } else {
      var u := t[1..];
      assert key(t[0]) >= key(x);
      forall k | 0 <= k < j - 1
        ensures key(u[k]) >= key(x)
      {
        assert u[k] == t[k + 1];
      }
      forall k | j - 1 <= k < |u|
        ensures key(u[k]) < key(x)
      {
        assert u[k] == t[k + 1];
      }
      InsertAt(u, x, key, j - 1);
      assert t == [t[0]] + u;
      assert Insert(t, x, key) == [t[0]] + Insert(u, x, key);
      assert t[..j] == [t[0]] + u[..j - 1];
      assert u[j - 1..] == t[j..];
      assert [t[0]] + (u[..j - 1] + [x] + u[j - 1..]) == ([t[0]] + u[..j - 1]) + [x] + u[j - 1..];
    }
  }

  /** In a sorted sequence, everything before a key at least `key(x)` is at least `key(x)` too. */
  lemma SortedAbove<T>(t: seq<T>, key: T -> int, x: T, j: nat)
    requires SortedDesc(t, key) && j <= |t|
    requires j > 0 ==> key(t[j - 1]) >= key(x)
    ensures forall k :: 0 <= k < j ==> key(t[k]) >= key(x)
  {
  }

  /** Sorting one more element inserts it into the sorted prefix. */
  lemma SortDescSnoc<T>(s: seq<T>, key: T -> int, i: nat)
    requires i < |s|
    ensures SortDesc(s[..i + 1], key) == Insert(SortDesc(s[..i], key), s[i], key)
  {
    assert s[..i + 1][..i] == s[..i];
  }

  /**
   * An array state after the backward scan: `t`'s first `j` elements, then
   * `x`, then the rest of `t` moved one place right.
   */
  lemma ShiftedInsert<T>(b: seq<T>, t: seq<T>, x: T, j: nat)
    requires j <= |t| < |b|
    requires forall k :: 0 <= k < j ==> b[k] == t[k]
    requires b[j] == x
    requires forall k :: j < k <= |t| ==> b[k] == t[k - 1]
    ensures b[..|t| + 1] == t[..j] + [x] + t[j..]
  {
  }
}
