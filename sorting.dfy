/** Python's stable sort with `reverse=True` on a key (`sorted(xs, key=k,
    reverse=True)` and `xs.sort(key=k, reverse=True)`), and `max(xs, key=k)`,
    which returns the first element of largest key. */
module Sorting {

  ghost predicate SortedDesc<T>(s: seq<T>, key: T -> int) {
    forall i, j :: 0 <= i < j < |s| ==> key(s[i]) >= key(s[j])
  }

  /** The elements of `s` whose key is `k`, in their order in `s`. A sort is
      stable exactly when it keeps this subsequence for every `k`. */
  function WithKey<T>(s: seq<T>, key: T -> int, k: int): seq<T> {
    if s == [] then []
    else (if key(s[0]) == k then [s[0]] else []) + WithKey(s[1..], key, k)
  }

  lemma {:induction false} WithKeyAppend<T>(a: seq<T>, b: seq<T>, key: T -> int, k: int)
    ensures WithKey(a + b, key, k) == WithKey(a, key, k) + WithKey(b, key, k)
  {
    if a == [] {
      assert a + b == b;
    } else {
      var head := if key(a[0]) == k then [a[0]] else [];
      assert (a + b)[0] == a[0];
      assert (a + b)[1..] == a[1..] + b;
      WithKeyAppend(a[1..], b, key, k);
      calc {
        WithKey(a + b, key, k);
        head + WithKey(a[1..] + b, key, k);
        head + (WithKey(a[1..], key, k) + WithKey(b, key, k));
        (head + WithKey(a[1..], key, k)) + WithKey(b, key, k);
        WithKey(a, key, k) + WithKey(b, key, k);
      }
    }
  }

  lemma {:induction false} WithKeyNone<T>(s: seq<T>, key: T -> int, k: int)
    requires forall i :: 0 <= i < |s| ==> key(s[i]) < k
    ensures WithKey(s, key, k) == []
  {
    if s != [] { WithKeyNone(s[1..], key, k); }
  }

  /** Insert `x` after every element whose key is at least `key(x)`. */
  function InsertDesc<T>(x: T, s: seq<T>, key: T -> int): (r: seq<T>)
    ensures multiset(r) == multiset(s) + multiset{x}
    ensures |r| == |s| + 1
  {
    if s == [] then [x]
    else if key(s[0]) >= key(x) then
      assert s == [s[0]] + s[1..];
      [s[0]] + InsertDesc(x, s[1..], key)
    else [x] + s
  }

  /** A bound on the keys of `s` and on `key(x)` bounds the keys after insertion. */
  lemma {:induction false} InsertDescBound<T>(x: T, s: seq<T>, key: T -> int, b: int)
    requires key(x) <= b && forall i :: 0 <= i < |s| ==> key(s[i]) <= b
    ensures forall i :: 0 <= i < |s| + 1 ==> key(InsertDesc(x, s, key)[i]) <= b
  {
    if s != [] && key(s[0]) >= key(x) {
      InsertDescBound(x, s[1..], key, b);
    }
  }

  lemma {:induction false} InsertDescSorted<T>(x: T, s: seq<T>, key: T -> int)
    requires SortedDesc(s, key)
    ensures SortedDesc(InsertDesc(x, s, key), key)
  {
    if s != [] && key(s[0]) >= key(x) {
      InsertDescSorted(x, s[1..], key);
      InsertDescBound(x, s[1..], key, key(s[0]));
    }
  }

  lemma SortedTail<T>(s: seq<T>, key: T -> int)
    requires s != [] && SortedDesc(s, key)
    ensures SortedDesc(s[1..], key)
  {
    forall i, j | 0 <= i < j < |s| - 1 ensures key(s[1..][i]) >= key(s[1..][j]) {
      assert s[1..][i] == s[i + 1] && s[1..][j] == s[j + 1];
    }
  }

  /** Putting the same element in front of two sequences keeps a relation
      between their elements of key `k`. */
  lemma WithKeyConsBoth<T>(y: T, t: seq<T>, u: seq<T>, tail: seq<T>, key: T -> int, k: int)
    requires WithKey(t, key, k) == WithKey(u, key, k) + tail
    ensures WithKey([y] + t, key, k) == WithKey([y] + u, key, k) + tail
  {
    WithKeyCons(y, t, key, k);
    WithKeyCons(y, u, key, k);
  }

  lemma {:induction false} InsertDescStable<T>(x: T, s: seq<T>, key: T -> int, k: int)
    requires SortedDesc(s, key)
    ensures WithKey(InsertDesc(x, s, key), key, k)
         == WithKey(s, key, k) + (if key(x) == k then [x] else [])
  {
    var tail := if key(x) == k then [x] else [];
    if s == [] {
      WithKeyCons(x, [], key, k);
      assert [x] + [] == [x];
    } else if key(s[0]) >= key(x) {
      SortedTail(s, key);
      InsertDescStable(x, s[1..], key, k);
      assert InsertDesc(x, s, key) == [s[0]] + InsertDesc(x, s[1..], key);
      WithKeyConsBoth(s[0], InsertDesc(x, s[1..], key), s[1..], tail, key, k);
      assert [s[0]] + s[1..] == s;
    } else {
      InsertDescFront(x, s, key, k);
    }
  }

  lemma WithKeyCons<T>(y: T, s: seq<T>, key: T -> int, k: int)
    ensures WithKey([y] + s, key, k) == (if key(y) == k then [y] else []) + WithKey(s, key, k)
  {
    assert ([y] + s)[0] == y && ([y] + s)[1..] == s;
  }

  lemma InsertDescFront<T>(x: T, s: seq<T>, key: T -> int, k: int)
    requires s != [] && SortedDesc(s, key) && key(s[0]) < key(x)
    ensures WithKey([x] + s, key, k) == WithKey(s, key, k) + (if key(x) == k then [x] else [])
  {
    WithKeyCons(x, s, key, k);
    if key(x) == k {
      assert forall i :: 0 <= i < |s| ==> key(s[i]) < k by {
        forall i | 0 <= i < |s| ensures key(s[i]) < k {
          assert key(s[i]) <= key(s[0]);
        }
      }
      WithKeyNone(s, key, k);
    }
  }

  lemma {:induction false} WithKeyMembers<T>(s: seq<T>, key: T -> int, k: int)
    ensures forall x :: x in WithKey(s, key, k) ==> x in s && key(x) == k
  {
    if s != [] {
      WithKeyMembers(s[1..], key, k);
    }
  }

  /** Two elements of key `k` keep their relative order in `WithKey`. */
  lemma WithKeyOrder<T>(s: seq<T>, key: T -> int, k: int, i: nat, j: nat)
    requires i < j < |s| && key(s[i]) == k && key(s[j]) == k
    ensures exists a, b :: 0 <= a < b < |WithKey(s, key, k)|
                           && WithKey(s, key, k)[a] == s[i] && WithKey(s, key, k)[b] == s[j]
  {
    var pre, mid, post := s[..i], s[i..j], s[j..];
    assert s == pre + mid + post;
    WithKeyAppend(pre + mid, post, key, k);
    WithKeyAppend(pre, mid, key, k);
    WithKeyCons(s[i], s[i + 1..j], key, k);
    assert mid == [s[i]] + s[i + 1..j];
    WithKeyCons(s[j], s[j + 1..], key, k);
    assert post == [s[j]] + s[j + 1..];
    var a := |WithKey(pre, key, k)|;
    var b := |WithKey(pre, key, k)| + |WithKey(mid, key, k)|;
    assert WithKey(s, key, k)[a] == s[i];
    assert WithKey(s, key, k)[b] == s[j];
  }

  ghost predicate IncreasingBy<T>(s: seq<T>, f: T -> int) {
    forall i, j :: 0 <= i < j < |s| ==> f(s[i]) < f(s[j])
  }

  /** A subsequence of an increasing sequence is increasing. */
  lemma {:induction false} WithKeyIncreasing<T>(s: seq<T>, key: T -> int, k: int, f: T -> int)
    requires IncreasingBy(s, f)
    ensures IncreasingBy(WithKey(s, key, k), f)
  {
    if s != [] {
      var rest := WithKey(s[1..], key, k);
      assert IncreasingBy(s[1..], f) by {
        forall i, j | 0 <= i < j < |s| - 1 ensures f(s[1..][i]) < f(s[1..][j]) {
          assert s[1..][i] == s[i + 1] && s[1..][j] == s[j + 1];
        }
      }
      WithKeyIncreasing(s[1..], key, k, f);
      if key(s[0]) == k {
        WithKeyMembers(s[1..], key, k);
        forall x | x in rest ensures f(s[0]) < f(x) {
          var m :| 0 <= m < |s| - 1 && s[1..][m] == x;
          assert s[m + 1] == x;
        }
        var w := WithKey(s, key, k);
        assert w == [s[0]] + rest;
        forall i, j | 0 <= i < j < |w| ensures f(w[i]) < f(w[j]) {
          if i == 0 { assert w[j] == rest[j - 1] && w[j] in rest; } else { assert w[i] == rest[i - 1] && w[j] == rest[j - 1]; }
        }
      }
    }
  }

  /** Stable sort by descending key (insertion sort over the input, left to right). */
  function SortDesc<T>(s: seq<T>, key: T -> int): (r: seq<T>)
    ensures |r| == |s|
    ensures multiset(r) == multiset(s)
    ensures SortedDesc(r, key)
    ensures forall k :: WithKey(r, key, k) == WithKey(s, key, k)
  {
    if s == [] then []
    else
      var init, last := s[..|s| - 1], s[|s| - 1];
      var sorted := SortDesc(init, key);
      InsertDescSorted(last, sorted, key);
      assert s == init + [last];
      InsertLastStable(init, last, sorted, key);
      InsertDesc(last, sorted, key)
  }

  /** Inserting the last element into a stable sort of the others keeps, for
      every key, the elements of that key in their input order. */
  lemma InsertLastStable<T>(init: seq<T>, last: T, sorted: seq<T>, key: T -> int)
    requires SortedDesc(sorted, key)
    requires forall k :: WithKey(sorted, key, k) == WithKey(init, key, k)
    ensures forall k :: WithKey(InsertDesc(last, sorted, key), key, k) == WithKey(init + [last], key, k)
  {
    forall k ensures WithKey(InsertDesc(last, sorted, key), key, k) == WithKey(init + [last], key, k) {
      InsertDescStable(last, sorted, key, k);
      WithKeyAppend(init, [last], key, k);
      WithKeyCons(last, [], key, k);
      assert [last] + [] == [last];
    }
  }

  /** `max(s, key=key)`: the first element whose key is largest. */
  function FirstMax<T>(s: seq<T>, key: T -> int): (r: T)
    requires s != []
    ensures r in s
    ensures forall x :: x in s ==> key(x) <= key(r)
    ensures exists i :: 0 <= i < |s| && s[i] == r && forall j :: 0 <= j < i ==> key(s[j]) < key(r)
  {
    if |s| == 1 then (assert s[0] in s; s[0])
    else
      var init := s[..|s| - 1];
      var m := FirstMax(init, key);
      assert forall x :: x in s ==> x in init || x == s[|s| - 1];
      if key(s[|s| - 1]) > key(m) then
        (assert forall j :: 0 <= j < |s| - 1 ==> key(s[j]) < key(s[|s| - 1]) by {
           forall j | 0 <= j < |s| - 1 ensures key(s[j]) < key(s[|s| - 1]) { assert s[j] in init; }
         }
         s[|s| - 1])
      else
        m
  }
}
