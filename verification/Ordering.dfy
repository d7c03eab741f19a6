/** Finite sets listed in a given order: the meaning of `SELECT ... ORDER BY ... LIMIT n`. */
module Ordering {

  ghost predicate TotalOrder<T(!new)>(le: (T, T) -> bool) {
    && (forall x, y :: le(x, y) || le(y, x))
    && (forall x, y :: le(x, y) && le(y, x) ==> x == y)
    && (forall x, y, z :: le(x, y) && le(y, z) ==> le(x, z))
  }

  predicate Ascending<T(==)>(r: seq<T>, le: (T, T) -> bool) {
    forall i, j :: 0 <= i < j < |r| ==> le(r[i], r[j]) && r[i] != r[j]
  }

  function Elements<T(==)>(r: seq<T>): set<T> {
    set x | x in r
  }

  lemma {:induction false} LeastElement<T(!new)>(s: set<T>, le: (T, T) -> bool) returns (m: T)
    requires TotalOrder(le) && s != {}
    ensures m in s && forall x | x in s :: le(m, x)
  {
    m :| m in s;
    if s != {m} {
      var rest := s - {m};
      var n := LeastElement(rest, le);
      var first := m;
      if le(n, first) {
        m := n;
      } else {
        forall x | x in rest ensures le(first, x) { assert le(first, n) && le(n, x); }
      }
      assert s == rest + {first};
    }
  }

  function Least<T(==, !new)>(s: set<T>, le: (T, T) -> bool): (m: T)
    requires TotalOrder(le) && s != {}
    ensures m in s && forall x | x in s :: le(m, x)
  {
    assert exists m :: m in s && forall x | x in s :: le(m, x) by { var m := LeastElement(s, le); }
    var m :| m in s && forall x | x in s :: le(m, x);
    m
  }

  lemma AscendingCons<T>(s: set<T>, m: T, rest: seq<T>, le: (T, T) -> bool)
    requires m in s && forall x | x in s :: le(m, x)
    requires Elements(rest) == s - {m} && |rest| == |s| - 1 && Ascending(rest, le)
    requires forall i | 0 <= i < |rest| :: rest[i] in s - {m}
    ensures Elements([m] + rest) == s && |[m] + rest| == |s| && Ascending([m] + rest, le)
    ensures forall i | 0 <= i < |[m] + rest| :: ([m] + rest)[i] in s
  {
    var r := [m] + rest;
    forall x ensures x in r <==> x in s { assert x in rest <==> x in Elements(rest); }
  }

  /** The elements of `s` in ascending order. */
  function Sorted<T(==, !new)>(s: set<T>, le: (T, T) -> bool): (r: seq<T>)
    requires TotalOrder(le)
    ensures Elements(r) == s && |r| == |s| && Ascending(r, le)
    ensures forall i | 0 <= i < |r| :: r[i] in s
    decreases |s|
  {
    if s == {} then [] else
      var m := Least(s, le);
      var rest := Sorted(s - {m}, le);
      AscendingCons(s, m, rest, le);
      [m] + rest
  }

  lemma HeadIsElement<T>(r: seq<T>)
    ensures r != [] ==> r[0] in Elements(r)
  {}

  /** An ascending list is determined by its elements. */
  lemma {:induction false} AscendingIsUnique<T(!new)>(a: seq<T>, b: seq<T>, le: (T, T) -> bool)
    requires TotalOrder(le) && Ascending(a, le) && Ascending(b, le) && Elements(a) == Elements(b)
    ensures a == b
  {
    if |a| == 0 {
      HeadIsElement(b);
    } else {
      assert a[0] in Elements(a) && a[0] in Elements(b);
      assert b[0] in Elements(b) && b[0] in Elements(a);
      assert le(a[0], b[0]) && le(b[0], a[0]);
      forall x ensures x in a[1..] <==> x in b[1..] {
        if x in a[1..] { assert x in Elements(a) && x in Elements(b) && x != a[0]; }
        if x in b[1..] { assert x in Elements(b) && x in Elements(a) && x != b[0]; }
      }
      assert Elements(a[1..]) == Elements(b[1..]);
      AscendingIsUnique(a[1..], b[1..], le);
    }
  }

  function Filter<T(!new)>(r: seq<T>, keep: T -> bool): (f: seq<T>)
    ensures |f| <= |r|
    ensures forall x :: x in f <==> x in r && keep(x)
  {
    if r == [] then [] else
      (if keep(r[0]) then [r[0]] else []) + Filter(r[1..], keep)
  }

  lemma {:induction false} FilterAppend<T(!new)>(a: seq<T>, b: seq<T>, keep: T -> bool)
    ensures Filter(a + b, keep) == Filter(a, keep) + Filter(b, keep)
  {
    if a == [] {
      assert a + b == b;
    } else {
      assert (a + b)[0] == a[0] && (a + b)[1..] == a[1..] + b;
      FilterAppend(a[1..], b, keep);
    }
  }

  lemma {:induction false} FilterFilter<T(!new)>(r: seq<T>, p: T -> bool, q: T -> bool, both: T -> bool)
    requires forall x | x in r :: both(x) <==> p(x) && q(x)
    ensures Filter(Filter(r, p), q) == Filter(r, both)
  {
    if r != [] {
      FilterFilter(r[1..], p, q, both);
      FilterAppend(if p(r[0]) then [r[0]] else [], Filter(r[1..], p), q);
    }
  }

  lemma {:induction false} FilterKeepsOrder<T(!new)>(r: seq<T>, keep: T -> bool, le: (T, T) -> bool)
    requires Ascending(r, le)
    ensures Ascending(Filter(r, keep), le)
  {
    if r != [] {
      FilterKeepsOrder(r[1..], keep, le);
      var f := Filter(r[1..], keep);
      forall j | 0 <= j < |f| ensures le(r[0], f[j]) && r[0] != f[j] {
        assert f[j] in r[1..];
      }
    }
  }

  /** Selecting from a sorted list and sorting the selection agree. */
  lemma SortedFilter<T(!new)>(s: set<T>, chosen: set<T>, keep: T -> bool, le: (T, T) -> bool)
    requires TotalOrder(le)
    requires forall x :: x in chosen <==> x in s && keep(x)
    ensures Sorted(chosen, le) == Filter(Sorted(s, le), keep)
  {
    var a := Sorted(chosen, le);
    var b := Filter(Sorted(s, le), keep);
    FilterKeepsOrder(Sorted(s, le), keep, le);
    forall x ensures x in Elements(a) <==> x in Elements(b) {
      assert x in Elements(b) <==> x in Sorted(s, le) && keep(x);
      assert x in Sorted(s, le) <==> x in Elements(Sorted(s, le));
    }
    AscendingIsUnique(a, b, le);
  }

  lemma AscendingSnoc<T>(r: seq<T>, m: T, le: (T, T) -> bool)
    requires Ascending(r, le)
    requires forall i | 0 <= i < |r| :: le(r[i], m) && r[i] != m
    ensures Ascending(r + [m], le) && Elements(r + [m]) == Elements(r) + {m}
  {}

  /** A new largest element goes last. */
  lemma SortedSnoc<T(!new)>(s: set<T>, m: T, le: (T, T) -> bool)
    requires TotalOrder(le) && m !in s && forall x | x in s :: le(x, m)
    ensures Sorted(s + {m}, le) == Sorted(s, le) + [m]
  {
    var r := Sorted(s, le);
    AscendingSnoc(r, m, le);
    AscendingIsUnique(Sorted(s + {m}, le), r + [m], le);
  }

  /** `LIMIT n`. */
  function Limited<T>(r: seq<T>, n: nat): (p: seq<T>)
    ensures |p| == (if n < |r| then n else |r|) && p <= r
  {
    if n < |r| then r[..n] else r
  }

  lemma PrefixCovers<T(!new)>(all: seq<T>, k: nat, le: (T, T) -> bool, i: nat)
    requires TotalOrder(le) && Ascending(all, le) && 0 < k <= |all| && i < |all|
    ensures all[i] in all[..k] <==> le(all[i], all[k - 1])
  {
    if i < k {
      assert all[..k][i] == all[i];
    } else {
      forall j | 0 <= j < k ensures all[..k][j] != all[i] {}
    }
  }

  /** A page of a sorted listing holds exactly what precedes its last entry; a short page holds all. */
  lemma PageCovers<T(!new)>(s: set<T>, le: (T, T) -> bool, n: nat)
    requires TotalOrder(le)
    ensures var page := Limited(Sorted(s, le), n);
      && (forall x | x in page :: x in s)
      && (page != [] ==> forall x | x in s :: x in page <==> le(x, page[|page| - 1]))
      && (|page| < n ==> forall x | x in s :: x in page)
      && (0 < n && page == [] ==> s == {})
  {
    var all, page := Sorted(s, le), Limited(Sorted(s, le), n);
    assert page == all[..|page|] && (|page| < n ==> page == all);
    forall x ensures x in s <==> x in all { assert x in Elements(all) <==> x in s; }
    hide TotalOrder, Ascending, Elements, Sorted, Limited;
    PrefixListed(s, all, |page|, le);
  }

  lemma PrefixListed<T(!new)>(s: set<T>, all: seq<T>, k: nat, le: (T, T) -> bool)
    requires TotalOrder(le) && Ascending(all, le) && k <= |all| && forall x :: x in s <==> x in all
    ensures forall x | x in all[..k] :: x in s
    ensures 0 < k ==> forall x | x in s :: x in all[..k] <==> le(x, all[k - 1])
    ensures all == [] ==> s == {}
  {
    hide TotalOrder, Ascending;
    if 0 < k {
      forall x | x in s ensures x in all[..k] <==> le(x, all[k - 1]) {
        var i :| 0 <= i < |all| && all[i] == x;
        PrefixCovers(all, k, le, i);
      }
    }
  }

  lemma SortedLists<T(!new)>(s: set<T>, le: (T, T) -> bool)
    requires TotalOrder(le)
    ensures var r := Sorted(s, le);
      && |r| == |s| && (forall x :: x in s <==> x in r)
      && forall i, j | 0 <= i < j < |r| :: le(r[i], r[j]) && r[i] != r[j]
  {
    hide Sorted, TotalOrder;
    forall x ensures x in s <==> x in Sorted(s, le) { assert x in Elements(Sorted(s, le)) <==> x in Sorted(s, le); }
  }

  lemma PageIsFirst<T(!new)>(s: set<T>, le: (T, T) -> bool, n: nat)
    requires TotalOrder(le)
    ensures var page := Limited(Sorted(s, le), n);
      && |page| == (if n < |s| then n else |s|) && (forall x | x in page :: x in s)
      && (forall i, j | 0 <= i < j < |page| :: le(page[i], page[j]) && page[i] != page[j])
      && (forall x, i | x in s && x !in page && 0 <= i < |page| :: le(page[i], x))
  {
    hide TotalOrder, Sorted, Ascending, Elements;
    SortedLists(s, le);
    var all := Sorted(s, le);
    var page := Limited(all, n);
    assert page == all[..|page|] && forall j | 0 <= j < |page| :: all[j] == page[j] && page[j] in page;
    forall x, i | x in s && x !in page && 0 <= i < |page| ensures le(page[i], x) {
      var j :| 0 <= j < |all| && all[j] == x;
    }
  }

  lemma LeftOut<T(!new)>(s: set<T>, page: seq<T>, limit: nat)
    requires |page| == (if limit < |s| then limit else |s|) && forall x | x in page :: x in s
    requires forall i, j | 0 <= i < j < |page| :: page[i] != page[j]
    ensures (exists x :: x in s && x !in page) ==> |page| == limit
  {
    if x :| x in s && x !in page {
      var listed := set y | y in s && y in page;
      DistinctSize(page, listed);
      assert listed <= s - {x} && |s - {x}| == |s| - 1;
      SubsetSize(listed, s - {x});
    }
  }

  lemma SubsetSize<T>(a: set<T>, b: set<T>)
    requires a <= b
    ensures |a| <= |b|
  {
    assert b == a + (b - a);
  }

  predicate IntLe(a: int, b: int) { a <= b }

  lemma IntLeIsTotal()
    ensures TotalOrder(IntLe)
  {}

  /** Byte-wise order of identifiers. */
  predicate StringLe(a: string, b: string) {
    a == [] || (b != [] && (a[0] < b[0] || (a[0] == b[0] && StringLe(a[1..], b[1..]))))
  }

  /** The first difference is at `i`, and `a` is lower there. */
  ghost predicate LowerAt(a: string, b: string, i: nat) {
    i < |a| && i < |b| && a[i] < b[i] && forall k | 0 <= k < i :: a[k] == b[k]
  }

  /** A prefix comes first; otherwise the first difference decides. */
  lemma {:induction false} StringLeMeans(a: string, b: string)
    ensures StringLe(a, b) <==> a <= b || exists i :: LowerAt(a, b, i)
    decreases |a|
  {
    hide LowerAt;
    if a != [] && b != [] {
      StringLeMeans(a[1..], b[1..]);
      if a[0] == b[0] { SameFirst(a, b); } else { FirstDecides(a, b); }
    } else {
      NoneLower(a, b);
    }
  }

  lemma NoneLower(a: string, b: string)
    requires a == [] || b == []
    ensures forall i :: !LowerAt(a, b, i)
  {}

  lemma FirstDecides(a: string, b: string)
    requires a != [] && b != [] && a[0] != b[0]
    ensures !(a <= b) && ((exists i :: LowerAt(a, b, i)) <==> a[0] < b[0])
  {
    if a[0] < b[0] { assert LowerAt(a, b, 0); }
  }

  lemma SameFirst(a: string, b: string)
    requires a != [] && b != [] && a[0] == b[0]
    ensures a <= b <==> a[1..] <= b[1..]
    ensures (exists i :: LowerAt(a, b, i)) <==> exists i :: LowerAt(a[1..], b[1..], i)
  {
    assert a == [a[0]] + a[1..] && b == [b[0]] + b[1..];
    forall i: nat ensures LowerAt(a[1..], b[1..], i) <==> LowerAt(a, b, i + 1) {
      if LowerAt(a[1..], b[1..], i) {
        assert forall k | 0 < k < i + 1 :: a[k] == a[1..][k - 1] && b[k] == b[1..][k - 1];
      }
      if LowerAt(a, b, i + 1) {
        assert forall k | 0 <= k < i :: a[1..][k] == a[k + 1] && b[1..][k] == b[k + 1];
      }
    }
    if i: nat :| LowerAt(a, b, i) { assert LowerAt(a[1..], b[1..], i - 1); }
  }

  lemma {:induction false} StringLeAntisymmetric(a: string, b: string)
    requires StringLe(a, b) && StringLe(b, a)
    ensures a == b
  {
    if a != [] && b != [] {
      StringLeAntisymmetric(a[1..], b[1..]);
      assert a == [a[0]] + a[1..] && b == [b[0]] + b[1..];
    }
  }

  lemma {:induction false} StringLeTransitive(a: string, b: string, c: string)
    requires StringLe(a, b) && StringLe(b, c)
    ensures StringLe(a, c)
  {
    if a != [] && a[0] == b[0] && b[0] == c[0] {
      StringLeTransitive(a[1..], b[1..], c[1..]);
    }
  }

  lemma {:induction false} StringLeConnected(a: string, b: string)
    ensures StringLe(a, b) || StringLe(b, a)
  {
    if a != [] && b != [] && a[0] == b[0] {
      StringLeConnected(a[1..], b[1..]);
    }
  }

  lemma StringLeIsTotal()
    ensures TotalOrder(StringLe)
  {
    forall x, y ensures StringLe(x, y) || StringLe(y, x) { StringLeConnected(x, y); }
    forall x, y | StringLe(x, y) && StringLe(y, x) ensures x == y { StringLeAntisymmetric(x, y); }
    forall x, y, z | StringLe(x, y) && StringLe(y, z) ensures StringLe(x, z) { StringLeTransitive(x, y, z); }
  }

  function SumOver(s: set<int>, f: int -> nat): (total: nat)
    decreases |s|
  {
    if s == {} then 0 else
      var m := Least(s, IntLe);
      f(m) + SumOver(s - {m}, f)
  }

  lemma {:induction false} SumRemove(s: set<int>, x: int, f: int -> nat)
    requires x in s
    ensures SumOver(s, f) == f(x) + SumOver(s - {x}, f)
    decreases |s|
  {
    var m := Least(s, IntLe);
    if m != x {
      SumRemove(s - {m}, x, f);
      SumRemove(s - {x}, m, f);
      assert s - {m} - {x} == s - {x} - {m};
    }
  }

  lemma {:induction false} SumDisjoint(a: set<int>, b: set<int>, f: int -> nat)
    requires a !! b
    ensures SumOver(a + b, f) == SumOver(a, f) + SumOver(b, f)
    decreases |b|
  {
    if b == {} {
      assert a + b == a;
    } else {
      var x := Least(b, IntLe);
      SumRemove(b, x, f);
      SumRemove(a + b, x, f);
      assert a + b - {x} == a + (b - {x});
      SumDisjoint(a, b - {x}, f);
    }
  }

  /** A list without repetitions has as many elements as entries. */
  lemma {:induction false} DistinctSize<T(!new)>(r: seq<T>, s: set<T>)
    requires forall i, j | 0 <= i < j < |r| :: r[i] != r[j]
    requires forall x :: x in s <==> x in r
    ensures |s| == |r|
    decreases |r|
  {
    if r == [] {
      assert s == {};
    } else {
      forall x ensures x in s - {r[0]} <==> x in r[1..] {}
      DistinctSize(r[1..], s - {r[0]});
    }
  }
}
