/** `sortedByDescending { key }`: a stable sort, largest key first, where keys are
    strings compared as Kotlin compares them. */
module StableSort {
  import opened AsciiText

  /** Keys never increase along `s`. */
  ghost predicate SortedDesc<T>(s: seq<T>, key: T -> string) {
    forall i, j :: 0 <= i < j < |s| ==> LexLe(key(s[j]), key(s[i]))
  }

  /** Every key in `s` is at most `bound`. */
  ghost predicate KeysAtMost<T>(s: seq<T>, key: T -> string, bound: string) {
    forall i :: 0 <= i < |s| ==> LexLe(key(s[i]), bound)
  }

  /** The elements whose key is `k`, in their order. */
  function WithKey<T>(s: seq<T>, key: T -> string, k: string): seq<T> {
    if s == [] then []
    else (if key(s[0]) == k then [s[0]] else []) + WithKey(s[1..], key, k)
  }

  /** Puts `x` before the first element whose key is not above its own, so it stays
      ahead of the equal keys that came after it. */
  function InsertDesc<T>(x: T, t: seq<T>, key: T -> string): (r: seq<T>)
    ensures |r| == |t| + 1
  {
    if t == [] || LexLe(key(t[0]), key(x)) then [x] + t
    else [t[0]] + InsertDesc(x, t[1..], key)
  }

  function SortDesc<T>(s: seq<T>, key: T -> string): (r: seq<T>)
    ensures |r| == |s|
  {
    if s == [] then [] else InsertDesc(s[0], SortDesc(s[1..], key), key)
  }

  lemma {:induction false} InsertDescKeysAtMost<T>(x: T, t: seq<T>, key: T -> string, bound: string)
    requires KeysAtMost(t, key, bound) && LexLe(key(x), bound)
    ensures KeysAtMost(InsertDesc(x, t, key), key, bound)
  {
    if t != [] && !LexLe(key(t[0]), key(x)) {
      InsertDescKeysAtMost(x, t[1..], key, bound);
    }
  }

  lemma {:induction false} InsertDescSorted<T>(x: T, t: seq<T>, key: T -> string)
    requires SortedDesc(t, key)
    ensures SortedDesc(InsertDesc(x, t, key), key)
  {
    if t == [] {
    } else if LexLe(key(t[0]), key(x)) {
      forall j | 0 <= j < |t| ensures LexLe(key(t[j]), key(x)) {
        if j > 0 { LexLeTransitive(key(t[j]), key(t[0]), key(x)); }
      }
    } else {
      var rest := InsertDesc(x, t[1..], key);
      InsertDescSorted(x, t[1..], key);
      LexLeTotal(key(x), key(t[0]));
      InsertDescKeysAtMost(x, t[1..], key, key(t[0]));
    }
  }

  lemma {:induction false} InsertDescPermutes<T>(x: T, t: seq<T>, key: T -> string)
    ensures multiset(InsertDesc(x, t, key)) == multiset{x} + multiset(t)
  {
    if t != [] && !LexLe(key(t[0]), key(x)) {
      InsertDescPermutes(x, t[1..], key);
      assert t == [t[0]] + t[1..];
    }
  }

  lemma {:induction false} InsertDescStable<T>(x: T, t: seq<T>, key: T -> string, k: string)
    ensures WithKey(InsertDesc(x, t, key), key, k) == (if key(x) == k then [x] else []) + WithKey(t, key, k)
  {
    if t != [] && !LexLe(key(t[0]), key(x)) {
      InsertDescStable(x, t[1..], key, k);
      LexLeReflexive(key(x));
      var r := InsertDesc(x, t, key);
      assert r[1..] == InsertDesc(x, t[1..], key);
    } else {
      assert ([x] + t)[1..] == t;
    }
  }

  /** The result is in descending key order and holds exactly the input's elements. */
  lemma {:induction false} SortDescSortedPermutation<T>(s: seq<T>, key: T -> string)
    ensures SortedDesc(SortDesc(s, key), key)
    ensures multiset(SortDesc(s, key)) == multiset(s)
  {
    if s != [] {
      SortDescSortedPermutation(s[1..], key);
      InsertDescSorted(s[0], SortDesc(s[1..], key), key);
      InsertDescPermutes(s[0], SortDesc(s[1..], key), key);
      assert s == [s[0]] + s[1..];
    }
  }

  /** Stability: elements sharing a key keep their relative order. */
  lemma {:induction false} SortDescStable<T>(s: seq<T>, key: T -> string, k: string)
    ensures WithKey(SortDesc(s, key), key, k) == WithKey(s, key, k)
  {
    if s != [] {
      SortDescStable(s[1..], key, k);
      InsertDescStable(s[0], SortDesc(s[1..], key), key, k);
    }
  }
}
