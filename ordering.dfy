/**
 * Ordering of records by a timestamp-like string key, as done by the store's
 * `ORDER BY c.created_at DESC` and by Python's `sorted(..., key=...)`:
 * lexicographic order on strings (ISO-8601 timestamps sort chronologically
 * this way), a stable insertion sort, and `LIMIT`/`[:n]`.
 */
module Ordering {

  /** Python's `a <= b` on strings: lexicographic by character. */
  predicate StrLe(a: string, b: string)
  {
    a == [] || (b != [] && (a[0] < b[0] || (a[0] == b[0] && StrLe(a[1..], b[1..]))))
  }

  lemma {:induction false} StrLeTotal(a: string, b: string)
    ensures StrLe(a, b) || StrLe(b, a)
  {
    if a != [] && b != [] && a[0] == b[0] {
      StrLeTotal(a[1..], b[1..]);
    }
  }

  lemma {:induction false} StrLeTrans(a: string, b: string, c: string)
    requires StrLe(a, b) && StrLe(b, c)
    ensures StrLe(a, c)
  {
    if a != [] && b != [] && c != [] && a[0] == b[0] && b[0] == c[0] {
      StrLeTrans(a[1..], b[1..], c[1..]);
    }
  }

  /** `a` may come before `b`: ascending, or descending when `desc`. */
  predicate InOrder(a: string, b: string, desc: bool)
  {
    if desc then StrLe(b, a) else StrLe(a, b)
  }

  predicate SortedBy<T>(s: seq<T>, key: T -> string, desc: bool)
  {
    forall i, j :: 0 <= i < j < |s| ==> InOrder(key(s[i]), key(s[j]), desc)
  }

  /** Insert `x` before the first element it may precede (equal keys keep `x` first). */
  function Insert<T>(x: T, s: seq<T>, key: T -> string, desc: bool): (r: seq<T>)
    ensures |r| == |s| + 1
    ensures multiset(r) == multiset(s) + multiset{x}
  {
    if s == [] then [x]
    else if InOrder(key(x), key(s[0]), desc) then [x] + s
    else
      assert s == [s[0]] + s[1..];
      [s[0]] + Insert(x, s[1..], key, desc)
  }

  lemma {:induction false} InsertSorted<T>(x: T, s: seq<T>, key: T -> string, desc: bool)
    requires SortedBy(s, key, desc)
    ensures SortedBy(Insert(x, s, key, desc), key, desc)
  {
    if s == [] {
    } else if InOrder(key(x), key(s[0]), desc) {
      var r := [x] + s;
      forall j | 0 < j < |r|
        ensures InOrder(key(x), key(r[j]), desc)
      {
        if j > 1 {
          if desc { StrLeTrans(key(r[j]), key(s[0]), key(x)); }
          else { StrLeTrans(key(x), key(s[0]), key(r[j])); }
        }
      }
    } else {
      var t := Insert(x, s[1..], key, desc);
      InsertSorted(x, s[1..], key, desc);
      StrLeTotal(key(x), key(s[0]));
      var r := [s[0]] + t;
      forall j | 0 < j < |r|
        ensures InOrder(key(s[0]), key(r[j]), desc)
      {
        var y := r[j];
        assert y in multiset(t);
        if y != x {
          assert y in multiset(s[1..]);
          assert y in s[1..];
        }
      }
    }
  }

  /** A stable sort on the key, ascending or (when `desc`) descending. */
  function SortBy<T>(s: seq<T>, key: T -> string, desc: bool): (r: seq<T>)
    ensures |r| == |s|
  {
    if s == [] then [] else Insert(s[0], SortBy(s[1..], key, desc), key, desc)
  }

  /** The sort keeps exactly the elements it is given. */
  lemma {:induction false} SortByPermutes<T>(s: seq<T>, key: T -> string, desc: bool)
    ensures multiset(SortBy(s, key, desc)) == multiset(s)
  {
    if s != [] {
      SortByPermutes(s[1..], key, desc);
      assert s == [s[0]] + s[1..];
    }
  }

  /** The sort puts its elements in key order. */
  lemma {:induction false} SortBySorted<T>(s: seq<T>, key: T -> string, desc: bool)
    ensures SortedBy(SortBy(s, key, desc), key, desc)
  {
    if s != [] {
      SortBySorted(s[1..], key, desc);
      InsertSorted(s[0], SortBy(s[1..], key, desc), key, desc);
    }
  }

  /** Sorting a list already in key order leaves it as it is. */
  lemma {:induction false} SortBySortedId<T>(s: seq<T>, key: T -> string, desc: bool)
    requires SortedBy(s, key, desc)
    ensures SortBy(s, key, desc) == s
  {
    if s != [] {
      SortedTail(s, key, desc);
      SortBySortedId(s[1..], key, desc);
      assert s == [s[0]] + s[1..];
    }
  }

  /** The tail of a sorted list is sorted, and the head may precede the tail's first element. */
  lemma SortedTail<T>(s: seq<T>, key: T -> string, desc: bool)
    requires s != [] && SortedBy(s, key, desc)
    ensures SortedBy(s[1..], key, desc)
    ensures |s| > 1 ==> InOrder(key(s[0]), key(s[1..][0]), desc)
  {
    var t := s[1..];
    forall i, j | 0 <= i < j < |t|
      ensures InOrder(key(t[i]), key(t[j]), desc)
    {
      assert t[i] == s[i + 1] && t[j] == s[j + 1];
    }
    if |s| > 1 {
      assert t[0] == s[1];
    }
  }

  /** `LIMIT n` / `s[:n]` with a non-negative bound. */
  function Take<T>(s: seq<T>, n: int): (r: seq<T>)
    ensures |r| <= |s| && (n >= 0 ==> |r| <= n)
    ensures r == s[..|r|]
    ensures n >= |s| ==> r == s
  {
    if n >= |s| then s else if n <= 0 then [] else s[..n]
  }
}
