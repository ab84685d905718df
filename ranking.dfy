/** Python's `sorted(xs, key=k, reverse=True)` on a list: a stable sort into
    non-increasing key order. The feedback engine and the recommendation
    endpoint both rank search hits this way by `feedback_weight`. */
module Ranking {

  /** Puts `x` in front of the first element whose key is not larger, so
      that `x` stays ahead of later elements with the same key. */
  function Insert<T>(x: T, t: seq<T>, key: T -> real): (r: seq<T>)
    ensures |r| == |t| + 1
    ensures multiset(r) == multiset(t) + multiset{x}
  {
    if t == [] || key(t[0]) <= key(x) then [x] + t
    else
      assert t == [t[0]] + t[1..];
      [t[0]] + Insert(x, t[1..], key)
  }

  /** The stable descending sort, as insertion of each element, last to
      first, into the sorted rest. */
  function SortDesc<T>(s: seq<T>, key: T -> real): (r: seq<T>)
    ensures |r| == |s|
    ensures multiset(r) == multiset(s)
  {
    if s == [] then []
    else
      assert s == [s[0]] + s[1..];
      Insert(s[0], SortDesc(s[1..], key), key)
  }

  ghost predicate NonIncreasing<T>(s: seq<T>, key: T -> real) {
    forall i, j :: 0 <= i < j < |s| ==> key(s[j]) <= key(s[i])
  }

  /** The elements of `s` whose key is `w`, in the order of `s`. */
  function WithKey<T>(s: seq<T>, key: T -> real, w: real): seq<T> {
    if s == [] then []
    else (if key(s[0]) == w then [s[0]] else []) + WithKey(s[1..], key, w)
  }

  /** `i` is the position of the first element of `s` with the largest key. */
  ghost predicate IsFirstMax<T>(s: seq<T>, key: T -> real, i: int) {
    && 0 <= i < |s|
    && (forall j :: 0 <= j < |s| ==> key(s[j]) <= key(s[i]))
    && (forall j :: 0 <= j < i ==> key(s[j]) < key(s[i]))
  }

  lemma {:induction false} InsertSorted<T>(x: T, t: seq<T>, key: T -> real)
    requires NonIncreasing(t, key)
    ensures NonIncreasing(Insert(x, t, key), key)
  {
    if t == [] || key(t[0]) <= key(x) {
    } else {
      InsertSorted(x, t[1..], key);
      var r := Insert(x, t, key);
      var tail := Insert(x, t[1..], key);
      assert r == [t[0]] + tail;
      forall j | 0 < j < |r| ensures key(r[j]) <= key(t[0]) {
        assert r[j] in multiset(tail);
        assert r[j] in multiset(t[1..]) + multiset{x};
        if r[j] != x {
          assert r[j] in t[1..];
        }
      }
    }
  }

  lemma {:induction false} InsertWithKey<T>(x: T, t: seq<T>, key: T -> real, w: real)
    ensures WithKey(Insert(x, t, key), key, w)
         == (if key(x) == w then [x] else []) + WithKey(t, key, w)
  {
    if t == [] || key(t[0]) <= key(x) {
      assert ([x] + t)[1..] == t;
    } else {
      InsertWithKey(x, t[1..], key, w);
      assert ([t[0]] + Insert(x, t[1..], key))[1..] == Insert(x, t[1..], key);
    }
  }

  /** The output of `sorted(..., reverse=True)` is in non-increasing key order. */
  lemma {:induction false} SortDescSorted<T>(s: seq<T>, key: T -> real)
    ensures NonIncreasing(SortDesc(s, key), key)
  {
    if s != [] {
      SortDescSorted(s[1..], key);
      InsertSorted(s[0], SortDesc(s[1..], key), key);
    }
  }

  /** Stability: for every key value, the elements carrying it come out in
      the order they went in. Together with the multiset equality of
      `SortDesc` this pins the output down completely. */
  lemma {:induction false} SortDescStable<T>(s: seq<T>, key: T -> real, w: real)
    ensures WithKey(SortDesc(s, key), key, w) == WithKey(s, key, w)
  {
    if s != [] {
      SortDescStable(s[1..], key, w);
      InsertWithKey(s[0], SortDesc(s[1..], key), key, w);
    }
  }

  lemma {:induction false} InsertHead<T>(x: T, t: seq<T>, key: T -> real)
    ensures Insert(x, t, key)[0] == if t == [] || key(t[0]) <= key(x) then x else t[0]
  {
  }

  /** The first maximum of `s` is its head or comes from the first maximum
      of its tail. */
  lemma {:induction false} ConsFirstMax<T>(s: seq<T>, key: T -> real, k: int)
    requires |s| > 1 && IsFirstMax(s[1..], key, k)
    ensures key(s[k + 1]) <= key(s[0]) ==> IsFirstMax(s, key, 0)
    ensures key(s[0]) < key(s[k + 1]) ==> IsFirstMax(s, key, k + 1)
  {
    forall j | 0 < j < |s| ensures key(s[j]) <= key(s[k + 1]) && (j <= k ==> key(s[j]) < key(s[k + 1])) {
      assert s[j] == s[1..][j - 1];
    }
  }

  /** The first element after sorting is the first element of the input
      that carries the largest key. */
  lemma {:induction false} SortDescHead<T>(s: seq<T>, key: T -> real) returns (i: nat)
    requires s != []
    ensures IsFirstMax(s, key, i)
    ensures SortDesc(s, key)[0] == s[i]
  {
    var rest := s[1..];
    var R := SortDesc(rest, key);
    assert SortDesc(s, key) == Insert(s[0], R, key);
    InsertHead(s[0], R, key);
    if rest == [] {
      i := 0;
    } else {
      var k := SortDescHead(rest, key);
      assert rest[k] == s[k + 1];
      ConsFirstMax(s, key, k);
      i := if key(s[k + 1]) <= key(s[0]) then 0 else k + 1;
    }
  }
}
