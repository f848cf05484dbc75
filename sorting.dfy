/**
 * The two table operations every listing in database.py is made of: a
 * `WHERE` filter and `ORDER BY date DESC`. Dates are TEXT columns, so the
 * order is the code-point order of strings (`Text.StrLe`). SQLite leaves the
 * order of rows with equal dates unspecified; the model picks one (an
 * insertion sort) and states only what SQLite promises: the rows are the
 * table's rows and the dates do not increase.
 */
module Sorting {
  import opened Text

  /** Every later row's key is at most every earlier row's key. */
  ghost predicate SortedDesc<T>(s: seq<T>, key: T -> string)
  {
    forall i, j :: 0 <= i < j < |s| ==> StrLe(key(s[j]), key(s[i]))
  }

  function Insert<T>(x: T, s: seq<T>, key: T -> string): (r: seq<T>)
    ensures multiset(r) == multiset(s) + multiset{x}
    decreases |s|
  {
    if s == [] then [x]
    else if StrLe(key(s[0]), key(x)) then [x] + s
    else
      assert s == [s[0]] + s[1..];
      [s[0]] + Insert(x, s[1..], key)
  }

  lemma {:induction false} InsertSorted<T>(x: T, s: seq<T>, key: T -> string)
    requires SortedDesc(s, key)
    ensures SortedDesc(Insert(x, s, key), key)
    decreases |s|
  {
    if s == [] {
    } else if StrLe(key(s[0]), key(x)) {
      forall j | 0 <= j < |s| ensures StrLe(key(s[j]), key(x)) {
        if j > 0 {
          StrLeTrans(key(s[j]), key(s[0]), key(x));
        }
      }
    } else {
      StrLeTotal(key(s[0]), key(x));
      var t := Insert(x, s[1..], key);
      InsertSorted(x, s[1..], key);
      forall k | 0 <= k < |t| ensures StrLe(key(t[k]), key(s[0])) {
        assert t[k] in multiset(t);
        if t[k] != x {
          assert t[k] in multiset(s[1..]);
          var j :| 0 <= j < |s[1..]| && s[1..][j] == t[k];
          assert s[j + 1] == t[k];
        }
      }
      var r := [s[0]] + t;
      forall i, j | 0 <= i < j < |r| ensures StrLe(key(r[j]), key(r[i])) {
        if i > 0 {
          assert r[i] == t[i - 1] && r[j] == t[j - 1];
        } else {
          assert r[j] == t[j - 1];
        }
      }
    }
  }

  /** `ORDER BY key DESC`: the same rows, latest key first. */
  function SortDesc<T>(s: seq<T>, key: T -> string): (r: seq<T>)
    ensures multiset(r) == multiset(s)
    ensures |r| == |s|
    ensures SortedDesc(r, key)
    decreases |s|
  {
    if s == [] then []
    else
      var t := SortDesc(s[1..], key);
      InsertSorted(s[0], t, key);
      assert s == [s[0]] + s[1..];
      assert |multiset(Insert(s[0], t, key))| == |multiset(s)|;
      Insert(s[0], t, key)
  }

  /** `WHERE p`: the rows satisfying `p`, in table order. */
  function Filter<T(!new)>(s: seq<T>, p: T -> bool): (r: seq<T>)
    ensures |r| <= |s|
    ensures forall x :: x in r <==> x in s && p(x)
    ensures forall x :: multiset(r)[x] == if p(x) then multiset(s)[x] else 0
    decreases |s|
  {
    if s == [] then []
    else
      assert s == [s[0]] + s[1..];
      if p(s[0]) then [s[0]] + Filter(s[1..], p) else Filter(s[1..], p)
  }

  /** A filtered listing keeps the listing's order. */
  lemma {:induction false} FilterSorted<T(!new)>(s: seq<T>, p: T -> bool, key: T -> string)
    requires SortedDesc(s, key)
    ensures SortedDesc(Filter(s, p), key)
    decreases |s|
  {
    if s != [] {
      var t := Filter(s[1..], p);
      FilterSorted(s[1..], p, key);
      if p(s[0]) {
        var r := [s[0]] + t;
        forall i, j | 0 <= i < j < |r| ensures StrLe(key(r[j]), key(r[i])) {
          assert r[j] == t[j - 1];
          assert t[j - 1] in s[1..];
          var m :| 0 <= m < |s[1..]| && s[1..][m] == t[j - 1];
          assert s[m + 1] == r[j];
          if i > 0 {
            assert r[i] == t[i - 1];
          }
        }
      }
    }
  }

  /** Python's `head(n)`: the first `n` rows, or all of them when there are fewer. */
  function Head<T>(s: seq<T>, n: nat): (r: seq<T>)
    ensures |r| <= n && |r| <= |s|
    ensures |s| >= n ==> |r| == n
    ensures r == s[..|r|]
  {
    if |s| <= n then s else s[..n]
  }

  /** In a sorted listing, every shown row is at least as recent as every hidden one. */
  lemma HeadIsLatest<T>(s: seq<T>, n: nat, key: T -> string, i: int, j: int)
    requires SortedDesc(s, key)
    requires 0 <= i < |Head(s, n)| <= j < |s|
    ensures StrLe(key(s[j]), key(Head(s, n)[i]))
  {
  }
}
