/** Filtering and ordering of query results: the `where(field, '==', v)` and
    `orderBy(field, 'desc')` of a store query. */
module Ordering {
  function Filter<T(!new)>(s: seq<T>, p: T -> bool): (r: seq<T>)
    ensures forall x :: x in r <==> x in s && p(x)
    ensures |r| <= |s|
  {
    if |s| == 0 then [] else (if p(s[0]) then [s[0]] else []) + Filter(s[1..], p)
  }

  ghost predicate SortedDesc<T>(s: seq<T>, key: T -> int) {
    forall i, j :: 0 <= i < j < |s| ==> key(s[i]) >= key(s[j])
  }

  /** Puts `x` before the first element whose key is not greater than its own. */
  function Insert<T>(x: T, s: seq<T>, key: T -> int): seq<T> {
    if |s| == 0 then [x]
    else if key(x) >= key(s[0]) then [x] + s
    else [s[0]] + Insert(x, s[1..], key)
  }

  /** Descending order by `key`; elements with equal keys keep their relative order. */
  function SortDesc<T>(s: seq<T>, key: T -> int): seq<T> {
    if |s| == 0 then [] else Insert(s[0], SortDesc(s[1..], key), key)
  }

  lemma {:induction false} InsertPermutes<T>(x: T, s: seq<T>, key: T -> int)
    ensures multiset(Insert(x, s, key)) == multiset(s) + multiset{x}
    decreases |s|
  {
    if |s| > 0 && key(x) < key(s[0]) {
      InsertPermutes(x, s[1..], key);
      assert s == [s[0]] + s[1..];
    }
  }

  lemma {:induction false} InsertSorted<T>(x: T, s: seq<T>, key: T -> int)
    requires SortedDesc(s, key)
    ensures SortedDesc(Insert(x, s, key), key)
    ensures |Insert(x, s, key)| == |s| + 1
    ensures Insert(x, s, key)[0] == x || (|s| > 0 && Insert(x, s, key)[0] == s[0])
    decreases |s|
  {
    if |s| > 0 && key(x) < key(s[0]) {
      var tail := s[1..];
      assert SortedDesc(tail, key) by {
        forall i, j | 0 <= i < j < |tail| ensures key(tail[i]) >= key(tail[j]) {
          assert tail[i] == s[i + 1] && tail[j] == s[j + 1];
        }
      }
      InsertSorted(x, tail, key);
      var r := Insert(x, s, key);
      var r' := Insert(x, tail, key);
      assert r == [s[0]] + r';
      forall i, j | 0 <= i < j < |r| ensures key(r[i]) >= key(r[j]) {
        if i == 0 {
          if r'[j - 1] == x {
          } else {
            InsertElements(x, tail, key, j - 1);
          }
        } else {
          assert r[i] == r'[i - 1] && r[j] == r'[j - 1];
        }
      }
    }
  }

  /** Every element of an insertion other than `x` comes from `s`. */
  lemma {:induction false} InsertElements<T>(x: T, s: seq<T>, key: T -> int, k: nat)
    requires k < |Insert(x, s, key)|
    ensures Insert(x, s, key)[k] == x || Insert(x, s, key)[k] in s
    decreases |s|
  {
    InsertPermutes(x, s, key);
    var r := Insert(x, s, key);
    assert r[k] in multiset(r);
  }

  lemma {:induction false} SortDescCorrect<T>(s: seq<T>, key: T -> int)
    ensures SortedDesc(SortDesc(s, key), key)
    ensures multiset(SortDesc(s, key)) == multiset(s)
    decreases |s|
  {
    if |s| > 0 {
      SortDescCorrect(s[1..], key);
      InsertSorted(s[0], SortDesc(s[1..], key), key);
      InsertPermutes(s[0], SortDesc(s[1..], key), key);
      assert s == [s[0]] + s[1..];
    }
  }

  /** What a filtered, ordered query returns: exactly the matching elements, each as
      often as it is stored, newest (largest key) first. */
  function Query<T(!new)>(s: seq<T>, p: T -> bool, key: T -> int): (r: seq<T>)
    ensures multiset(r) == multiset(Filter(s, p))
    ensures SortedDesc(r, key)
    ensures forall x :: x in r <==> x in s && p(x)
  {
    SortDescCorrect(Filter(s, p), key);
    var r := SortDesc(Filter(s, p), key);
    assert forall x :: x in r <==> x in multiset(r);
    r
  }
}
