/**
 * Python's `sorted(xs, key=...)` and `list.sort(key=...)` as a stable insertion sort
 * over a caller-supplied "less than or equal" relation, the lexicographic order
 * Python uses on strings, and `sorted(set)` for sets of days and of symbols.
 */
module Sorting {

  /** `le` is a total preorder: any two values compare, and comparison chains. */
  ghost predicate TotalPreorder<T(!new)>(le: (T, T) -> bool) {
    && (forall x, y :: le(x, y) || le(y, x))
    && (forall x, y, z :: le(x, y) && le(y, z) ==> le(x, z))
  }

  predicate SortedBy<T>(s: seq<T>, le: (T, T) -> bool) {
    forall i, j :: 0 <= i < j < |s| ==> le(s[i], s[j])
  }

  /** Inserts x before the first element it is less than or equal to. */
  function Insert<T>(x: T, s: seq<T>, le: (T, T) -> bool): (r: seq<T>)
    ensures multiset(r) == multiset(s) + multiset{x}
    ensures |r| == |s| + 1
  {
    if s == [] then [x]
    else if le(x, s[0]) then [x] + s
    else
      assert s == [s[0]] + s[1..];
      [s[0]] + Insert(x, s[1..], le)
  }

  /** Stable sort: elements that compare equal keep their input order. */
  function SortBy<T>(s: seq<T>, le: (T, T) -> bool): (r: seq<T>)
    ensures multiset(r) == multiset(s)
    ensures |r| == |s|
  {
    if s == [] then []
    else
      assert s == [s[0]] + s[1..];
      Insert(s[0], SortBy(s[1..], le), le)
  }

  lemma {:induction false} InsertSorted<T(!new)>(x: T, s: seq<T>, le: (T, T) -> bool)
    requires TotalPreorder(le)
    requires SortedBy(s, le)
    ensures SortedBy(Insert(x, s, le), le)
    decreases |s|
  {
    if s != [] && !le(x, s[0]) {
      InsertSorted(x, s[1..], le);
      var r := Insert(x, s, le);
      var t := Insert(x, s[1..], le);
      assert r == [s[0]] + t;
      assert le(s[0], x);
      forall j | 0 < j < |r| ensures le(s[0], r[j]) {
        assert r[j] in multiset(t);
        assert r[j] in multiset(s[1..]) + multiset{x};
        if r[j] != x {
          assert r[j] in s[1..];
          var k :| 0 <= k < |s[1..]| && s[1..][k] == r[j];
          assert s[k + 1] == r[j];
        }
      }
    }
  }

  /** The sort's output is ordered by `le`. */
  lemma {:induction false} SortBySorted<T(!new)>(s: seq<T>, le: (T, T) -> bool)
    requires TotalPreorder(le)
    ensures SortedBy(SortBy(s, le), le)
    decreases |s|
  {
    if s != [] {
      SortBySorted(s[1..], le);
      InsertSorted(s[0], SortBy(s[1..], le), le);
    }
  }

  /** Sorting an already ordered sequence leaves it unchanged, so sorting is idempotent. */
  lemma {:induction false} SortedIsFixedPoint<T>(s: seq<T>, le: (T, T) -> bool)
    requires SortedBy(s, le)
    ensures SortBy(s, le) == s
    decreases |s|
  {
    if s != [] {
      SortedIsFixedPoint(s[1..], le);
      assert s == [s[0]] + s[1..];
    }
  }

  /** Finds an occurrence of x in t and returns t without it. */
  lemma Extract<T>(t: seq<T>, x: T) returns (k: nat, rest: seq<T>)
    requires x in multiset(t)
    ensures k < |t| && t[k] == x && rest == t[..k] + t[k + 1..]
    ensures multiset(rest) == multiset(t) - multiset{x}
  {
    assert x in t;
    k :| 0 <= k < |t| && t[k] == x;
    rest := t[..k] + t[k + 1..];
    assert t == t[..k] + [x] + t[k + 1..];
  }

  // ---------------------------------------------------------------------------------------------
  // Python's ordering of strings: code point by code point, a proper prefix first.

  predicate StrLe(a: string, b: string)
    decreases |a|
  {
    a == [] || (b != [] && (a[0] < b[0] || (a[0] == b[0] && StrLe(a[1..], b[1..]))))
  }

  lemma {:induction false} StrLeTotal(a: string, b: string)
    ensures StrLe(a, b) || StrLe(b, a)
    decreases |a|
  {
    if a != [] && b != [] && a[0] == b[0] {
      StrLeTotal(a[1..], b[1..]);
    }
  }

  lemma {:induction false} StrLeTransitive(a: string, b: string, c: string)
    requires StrLe(a, b) && StrLe(b, c)
    ensures StrLe(a, c)
    decreases |a|
  {
    if a != [] && a[0] == b[0] && b[0] == c[0] {
      StrLeTransitive(a[1..], b[1..], c[1..]);
    }
  }

  lemma {:induction false} StrLeAntisymmetric(a: string, b: string)
    requires StrLe(a, b) && StrLe(b, a)
    ensures a == b
    decreases |a|
  {
    if a != [] {
      StrLeAntisymmetric(a[1..], b[1..]);
      assert a == [a[0]] + a[1..];
      assert b == [b[0]] + b[1..];
    }
  }

  // ---------------------------------------------------------------------------------------------
  // `sorted(set(xs))`: the distinct elements of xs in strictly ascending order.

  predicate StrictlyIncreasing(s: seq<int>) {
    forall i, j :: 0 <= i < j < |s| ==> s[i] < s[j]
  }

  function InsertInt(x: int, s: seq<int>): (r: seq<int>)
    requires StrictlyIncreasing(s)
    ensures StrictlyIncreasing(r)
    ensures forall y :: y in r <==> y == x || y in s
    ensures r != [] && (s == [] || r[0] == x || r[0] == s[0])
  {
    if s == [] then [x]
    else if x < s[0] then [x] + s
    else if x == s[0] then s
    else
      assert forall y :: y in s <==> y == s[0] || y in s[1..];
      [s[0]] + InsertInt(x, s[1..])
  }

  /** Python's `sorted(set(xs))` for integers (days). */
  function SortedDistinctInts(xs: seq<int>): (r: seq<int>)
    ensures StrictlyIncreasing(r)
    ensures forall y :: y in r <==> y in xs
  {
    if xs == [] then []
    else
      assert forall y :: y in xs <==> y == xs[|xs| - 1] || y in xs[..|xs| - 1];
      InsertInt(xs[|xs| - 1], SortedDistinctInts(xs[..|xs| - 1]))
  }

  predicate StrLt(a: string, b: string) {
    StrLe(a, b) && a != b
  }

  predicate StrictlyIncreasingStr(s: seq<string>) {
    forall i, j :: 0 <= i < j < |s| ==> StrLt(s[i], s[j])
  }

  lemma StrLtTransitive(a: string, b: string, c: string)
    requires StrLt(a, b) && StrLt(b, c)
    ensures StrLt(a, c)
  {
    StrLeTransitive(a, b, c);
    if a == c {
      StrLeAntisymmetric(a, b);
    }
  }

  function InsertStr(x: string, s: seq<string>): (r: seq<string>)
    requires StrictlyIncreasingStr(s)
    ensures StrictlyIncreasingStr(r)
    ensures forall y :: y in r <==> y == x || y in s
    ensures r != [] && (s == [] || r[0] == x || r[0] == s[0])
  {
    if s == [] then [x]
    else if x == s[0] then s
    else if StrLe(x, s[0]) then
      assert forall j :: 0 < j < |s| ==> StrLt(x, s[j]) by {
        forall j | 0 < j < |s| ensures StrLt(x, s[j]) { StrLtTransitive(x, s[0], s[j]); }
      }
      [x] + s
    else
      StrLeTotal(x, s[0]);
      assert forall y :: y in s <==> y == s[0] || y in s[1..];
      var t := InsertStr(x, s[1..]);
      assert forall j :: 0 <= j < |t| ==> StrLt(s[0], t[j]) by {
        forall j | 0 <= j < |t| ensures StrLt(s[0], t[j]) {
          if t[j] != x {
            assert t[j] in s[1..];
            var k :| 0 <= k < |s[1..]| && s[1..][k] == t[j];
            assert s[k + 1] == t[j];
          }
        }
      }
      [s[0]] + t
  }

  /** Python's `sorted(set(xs))` for strings (symbols). */
  function SortedDistinctStrings(xs: seq<string>): (r: seq<string>)
    ensures StrictlyIncreasingStr(r)
    ensures forall y :: y in r <==> y in xs
  {
    if xs == [] then []
    else
      assert forall y :: y in xs <==> y == xs[|xs| - 1] || y in xs[..|xs| - 1];
      InsertStr(xs[|xs| - 1], SortedDistinctStrings(xs[..|xs| - 1]))
  }
}
