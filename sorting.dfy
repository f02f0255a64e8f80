/** Python's `sorted(xs, key=..., reverse=...)` on string keys: a stable sort.
    Equal keys keep their input order, in ascending and in descending order alike. */
module Sorting {
  import opened Common

  /** `a` may stand before `b` in the output. */
  predicate InOrder(a: string, b: string, desc: bool)
  {
    if desc then LexLe(b, a) else LexLe(a, b)
  }

  lemma InOrderRefl(a: string, desc: bool)
    ensures InOrder(a, a, desc)
  {
    LexLeRefl(a);
  }

  lemma InOrderTotal(a: string, b: string, desc: bool)
    ensures InOrder(a, b, desc) || InOrder(b, a, desc)
  {
    LexLeTotal(a, b);
  }

  lemma InOrderTrans(a: string, b: string, c: string, desc: bool)
    requires InOrder(a, b, desc) && InOrder(b, c, desc)
    ensures InOrder(a, c, desc)
  {
    if desc { LexLeTrans(c, b, a); } else { LexLeTrans(a, b, c); }
  }

  predicate Sorted<T>(s: seq<T>, key: T -> string, desc: bool)
  {
    forall i, j :: 0 <= i < j < |s| ==> InOrder(key(s[i]), key(s[j]), desc)
  }

  /** The elements of `s` whose key is `k`, in their order in `s`. */
  function KeyFilter<T>(s: seq<T>, key: T -> string, k: string): (r: seq<T>)
    ensures |r| <= |s|
    ensures forall i :: 0 <= i < |r| ==> key(r[i]) == k
  {
    if s == [] then []
    else (if key(s[0]) == k then [s[0]] else []) + KeyFilter(s[1..], key, k)
  }

  /** Puts `x` in front of the first element it may precede. */
  function Insert<T>(x: T, s: seq<T>, key: T -> string, desc: bool): (r: seq<T>)
    ensures |r| == |s| + 1
  {
    if s == [] then [x]
    else if InOrder(key(x), key(s[0]), desc) then [x] + s
    else [s[0]] + Insert(x, s[1..], key, desc)
  }

  function SortBy<T>(s: seq<T>, key: T -> string, desc: bool): (r: seq<T>)
    ensures |r| == |s|
  {
    if s == [] then [] else Insert(s[0], SortBy(s[1..], key, desc), key, desc)
  }

  lemma {:induction false} InsertPermutes<T>(x: T, s: seq<T>, key: T -> string, desc: bool)
    ensures multiset(Insert(x, s, key, desc)) == multiset(s) + multiset{x}
  {
    if s == [] {
      assert Insert(x, s, key, desc) == [x];
    } else if InOrder(key(x), key(s[0]), desc) {
      assert Insert(x, s, key, desc) == [x] + s;
    } else {
      var rest := Insert(x, s[1..], key, desc);
      InsertPermutes(x, s[1..], key, desc);
      assert Insert(x, s, key, desc) == [s[0]] + rest;
      assert s == [s[0]] + s[1..];
    }
  }

  /** A key that may precede `x` and every element of `s` may precede every element of
      the result. */
  lemma {:induction false} InsertBound<T>(x: T, s: seq<T>, key: T -> string, desc: bool, b: string)
    requires InOrder(b, key(x), desc)
    requires forall k :: 0 <= k < |s| ==> InOrder(b, key(s[k]), desc)
    ensures forall k :: 0 <= k < |Insert(x, s, key, desc)| ==> InOrder(b, key(Insert(x, s, key, desc)[k]), desc)
  {
    if s == [] {
      assert Insert(x, s, key, desc) == [x];
    } else if InOrder(key(x), key(s[0]), desc) {
      assert Insert(x, s, key, desc) == [x] + s;
    } else {
      InsertBound(x, s[1..], key, desc, b);
      assert Insert(x, s, key, desc) == [s[0]] + Insert(x, s[1..], key, desc);
    }
  }

  lemma {:induction false} InsertSorted<T>(x: T, s: seq<T>, key: T -> string, desc: bool)
    requires Sorted(s, key, desc)
    ensures Sorted(Insert(x, s, key, desc), key, desc)
  {
    if s == [] {
      assert Insert(x, s, key, desc) == [x];
    } else if InOrder(key(x), key(s[0]), desc) {
      var r := [x] + s;
      assert Insert(x, s, key, desc) == r;
      forall i, j | 0 <= i < j < |r|
        ensures InOrder(key(r[i]), key(r[j]), desc)
      {
        if i == 0 && j > 1 {
          InOrderTrans(key(x), key(s[0]), key(s[j - 1]), desc);
        }
      }
    } else {
      var rest := s[1..];
      var t := Insert(x, rest, key, desc);
      assert Sorted(rest, key, desc);
      InsertSorted(x, rest, key, desc);
      InOrderTotal(key(x), key(s[0]), desc);
      assert forall k :: 0 <= k < |rest| ==> InOrder(key(s[0]), key(rest[k]), desc);
      InsertBound(x, rest, key, desc, key(s[0]));
      var r := [s[0]] + t;
      assert Insert(x, s, key, desc) == r;
      forall i, j | 0 <= i < j < |r|
        ensures InOrder(key(r[i]), key(r[j]), desc)
      {
        if i > 0 {
          assert r[i] == t[i - 1] && r[j] == t[j - 1];
        } else {
          assert r[j] == t[j - 1];
        }
      }
    }
  }

  /** `x` lands in front of every element with the same key, so the order among equal
      keys is the input order. */
  lemma {:induction false} InsertStable<T>(x: T, s: seq<T>, key: T -> string, desc: bool, k: string)
    ensures KeyFilter(Insert(x, s, key, desc), key, k)
         == (if key(x) == k then [x] else []) + KeyFilter(s, key, k)
  {
    if s == [] {
      assert Insert(x, s, key, desc) == [x];
    } else if InOrder(key(x), key(s[0]), desc) {
      assert Insert(x, s, key, desc) == [x] + s;
      assert ([x] + s)[1..] == s;
    } else {
      InOrderRefl(key(x), desc);
      assert key(s[0]) != key(x);
      InsertStable(x, s[1..], key, desc, k);
      assert Insert(x, s, key, desc) == [s[0]] + Insert(x, s[1..], key, desc);
      assert ([s[0]] + Insert(x, s[1..], key, desc))[1..] == Insert(x, s[1..], key, desc);
    }
  }

  /** The output of `sorted` is a rearrangement of the input. */
  lemma {:induction false} SortByPermutes<T>(s: seq<T>, key: T -> string, desc: bool)
    ensures multiset(SortBy(s, key, desc)) == multiset(s)
  {
    if s != [] {
      SortByPermutes(s[1..], key, desc);
      InsertPermutes(s[0], SortBy(s[1..], key, desc), key, desc);
      assert s == [s[0]] + s[1..];
    }
  }

  /** The output of `sorted` is ordered by the key. */
  lemma {:induction false} SortBySorted<T>(s: seq<T>, key: T -> string, desc: bool)
    ensures Sorted(SortBy(s, key, desc), key, desc)
  {
    if s != [] {
      SortBySorted(s[1..], key, desc);
      InsertSorted(s[0], SortBy(s[1..], key, desc), key, desc);
    }
  }

  /** `sorted` is stable: the elements sharing one key appear in their input order. */
  lemma {:induction false} SortByStable<T>(s: seq<T>, key: T -> string, desc: bool, k: string)
    ensures KeyFilter(SortBy(s, key, desc), key, k) == KeyFilter(s, key, k)
  {
    if s != [] {
      SortByStable(s[1..], key, desc, k);
      InsertStable(s[0], SortBy(s[1..], key, desc), key, desc, k);
    }
  }
}
