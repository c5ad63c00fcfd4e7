/**
  Ranking of breakdown items, as the advisor does it with Python's built-in
  `sorted(breakdown.items(), key=lambda x: x[1], reverse=True)` followed
  by list comprehensions and slices.  `sorted` is stable, also with
  `reverse=True`: items of equal emissions keep their dictionary order.
 */
module Ranking {
  import opened CarbonCalculator

  predicate SortedDesc(s: seq<Entry>) {
    forall i, j :: 0 <= i < j < |s| ==> s[i].emissions >= s[j].emissions
  }

  lemma SortedTail(s: seq<Entry>)
    requires SortedDesc(s) && s != []
    ensures SortedDesc(s[1..])
  {
    forall i, j | 0 <= i < j < |s| - 1 ensures s[1..][i].emissions >= s[1..][j].emissions {
      assert s[1..][i] == s[i + 1] && s[1..][j] == s[j + 1];
    }
  }

  /**
    Puts `x` in front of the first item that has no more emissions than
    it, so `x` stays ahead of the items it tied with.
   */
  function Insert(x: Entry, s: seq<Entry>): seq<Entry> {
    if s == [] || x.emissions >= s[0].emissions then [x] + s
    else [s[0]] + Insert(x, s[1..])
  }

  /** `sorted(items, key=emissions, reverse=True)` */
  function SortByEmissionsDesc(s: seq<Entry>): seq<Entry> {
    if s == [] then [] else Insert(s[0], SortByEmissionsDesc(s[1..]))
  }

  lemma {:induction false} InsertPermutes(x: Entry, s: seq<Entry>)
    ensures multiset(Insert(x, s)) == multiset(s) + multiset{x}
    ensures |Insert(x, s)| == |s| + 1
    decreases |s|
  {
    if s != [] && x.emissions < s[0].emissions {
      assert s == [s[0]] + s[1..];
      InsertPermutes(x, s[1..]);
    }
  }

  /** The sort returns the same items, as many as it was given, ranked. */
  lemma {:induction false} SortRanks(s: seq<Entry>)
    ensures multiset(SortByEmissionsDesc(s)) == multiset(s)
    ensures |SortByEmissionsDesc(s)| == |s|
    ensures SortedDesc(SortByEmissionsDesc(s))
    decreases |s|
  {
    if s != [] {
      assert s == [s[0]] + s[1..];
      SortRanks(s[1..]);
      InsertPermutes(s[0], SortByEmissionsDesc(s[1..]));
      InsertSorted(s[0], SortByEmissionsDesc(s[1..]));
    }
  }

  /** One step of the sort, and the two cases of an insertion, for reasoning about given lists. */
  lemma SortStep(s: seq<Entry>)
    requires s != []
    ensures SortByEmissionsDesc(s) == Insert(s[0], SortByEmissionsDesc(s[1..]))
  {
  }

  lemma InsertAhead(x: Entry, s: seq<Entry>)
    requires s == [] || x.emissions >= s[0].emissions
    ensures Insert(x, s) == [x] + s
  {
  }

  lemma InsertBehind(x: Entry, s: seq<Entry>)
    requires s != [] && x.emissions < s[0].emissions
    ensures Insert(x, s) == [s[0]] + Insert(x, s[1..])
  {
  }

  lemma RankedBelowHead(x: Entry, s: seq<Entry>)
    requires SortedDesc(s) && s != [] && x.emissions < s[0].emissions
    ensures forall e :: e in Insert(x, s[1..]) ==> s[0].emissions >= e.emissions
  {
    InsertPermutes(x, s[1..]);
    var rest := Insert(x, s[1..]);
    forall e | e in rest ensures s[0].emissions >= e.emissions {
      assert e in multiset(rest);
      if e != x {
        assert e in multiset(s[1..]);
        var k :| 0 <= k < |s[1..]| && s[1..][k] == e;
        assert s[k + 1] == e;
      }
    }
  }

  lemma {:induction false} InsertSorted(x: Entry, s: seq<Entry>)
    requires SortedDesc(s)
    ensures SortedDesc(Insert(x, s))
    decreases |s|
  {
    if s != [] && x.emissions < s[0].emissions {
      assert SortedDesc(s[1..]);
      InsertSorted(x, s[1..]);
      var rest := Insert(x, s[1..]);
      RankedBelowHead(x, s);
      var r := Insert(x, s);
      assert r == [s[0]] + rest;
      forall i, j | 0 <= i < j < |r| ensures r[i].emissions >= r[j].emissions {
        if i == 0 {
          assert r[j] in rest;
        } else {
          assert r[i] == rest[i - 1] && r[j] == rest[j - 1];
        }
      }
    }
  }

  /** The items of `s` whose emissions are exactly `v`, in order: a tie group. */
  function Ties(s: seq<Entry>, v: real): seq<Entry> {
    if s == [] then []
    else (if s[0].emissions == v then [s[0]] else []) + Ties(s[1..], v)
  }

  lemma TiesCons(y: Entry, s: seq<Entry>, v: real)
    ensures Ties([y] + s, v) == (if y.emissions == v then [y] else []) + Ties(s, v)
  {
    assert ([y] + s)[1..] == s;
  }

  lemma {:induction false} InsertKeepsTieOrder(x: Entry, s: seq<Entry>, v: real)
    ensures Ties(Insert(x, s), v) == (if x.emissions == v then [x] else []) + Ties(s, v)
    decreases |s|
  {
    if s == [] || x.emissions >= s[0].emissions {
      TiesCons(x, s, v);
    } else {
      InsertKeepsTieOrder(x, s[1..], v);
      TiesCons(s[0], Insert(x, s[1..]), v);
      TiesCons(s[0], s[1..], v);
      assert [s[0]] + s[1..] == s;
    }
  }

  lemma {:induction false} TiesAppend(a: seq<Entry>, b: seq<Entry>, v: real)
    ensures Ties(a + b, v) == Ties(a, v) + Ties(b, v)
    decreases |a|
  {
    if a == [] {
      assert a + b == b;
    } else {
      var head := if a[0].emissions == v then [a[0]] else [];
      assert (a + b)[1..] == a[1..] + b;
      assert Ties(a + b, v) == head + Ties(a[1..] + b, v);
      TiesAppend(a[1..], b, v);
      assert head + (Ties(a[1..], v) + Ties(b, v)) == (head + Ties(a[1..], v)) + Ties(b, v);
    }
  }

  /** Keeping items and picking a tie group can be done in either order. */
  lemma {:induction false} TiesFilter(keep: Entry -> bool, s: seq<Entry>, v: real)
    ensures Ties(Filter(keep, s), v) == Filter(keep, Ties(s, v))
    decreases |s|
  {
    if s != [] {
      TiesFilter(keep, s[1..], v);
      var kept := if keep(s[0]) then [s[0]] else [];
      var tied := if s[0].emissions == v then [s[0]] else [];
      TiesAppend(kept, Filter(keep, s[1..]), v);
      FilterAppend(keep, tied, Ties(s[1..], v));
      assert Ties(kept, v) == Filter(keep, tied) by {
        if kept != [] { assert kept[1..] == []; }
        if tied != [] { assert tied[1..] == []; }
      }
    }
  }

  /** The tie group of a prefix is a prefix of the tie group. */
  lemma TiesTakePrefix(s: seq<Entry>, n: nat, v: real)
    ensures Ties(Take(s, n), v) <= Ties(s, v)
  {
    var t := Take(s, n);
    assert s == t + s[|t|..];
    TiesAppend(t, s[|t|..], v);
  }

  /** The sort is stable: every tie group comes out in the order it went in. */
  lemma {:induction false} SortIsStable(s: seq<Entry>, v: real)
    ensures Ties(SortByEmissionsDesc(s), v) == Ties(s, v)
    decreases |s|
  {
    if s != [] {
      SortIsStable(s[1..], v);
      InsertKeepsTieOrder(s[0], SortByEmissionsDesc(s[1..]), v);
    }
  }

  /** `s[:n]` */
  function Take<T>(s: seq<T>, n: nat): (r: seq<T>)
    ensures |r| <= n && |r| <= |s|
    ensures r == s[..|r|]
    ensures |s| >= n ==> |r| == n
    ensures |s| <= n ==> r == s
  {
    if |s| <= n then s else s[..n]
  }

  /** `a` is `t` with some items deleted: the items of `a` occur in `t` in the same order. */
  predicate IsSubsequence(a: seq<Entry>, t: seq<Entry>)
    decreases |t|
  {
    a == [] || (t != [] && ((a[0] == t[0] && IsSubsequence(a[1..], t[1..])) || IsSubsequence(a, t[1..])))
  }

  /** `[x for x in s if keep(x)]`: exactly the items that satisfy `keep`, in their order in `s`. */
  function Filter(keep: Entry -> bool, s: seq<Entry>): (r: seq<Entry>)
    ensures |r| <= |s|
    ensures forall e :: e in r ==> e in s && keep(e)
    ensures forall e :: e in s && keep(e) ==> e in r
  {
    if s == [] then []
    else
      assert forall e :: e in s ==> e == s[0] || e in s[1..];
      (if keep(s[0]) then [s[0]] else []) + Filter(keep, s[1..])
  }

  /** The kept items keep their order: filtering only deletes. */
  lemma {:induction false} FilterSubsequence(keep: Entry -> bool, s: seq<Entry>)
    ensures IsSubsequence(Filter(keep, s), s)
    decreases |s|
  {
    if s != [] {
      FilterSubsequence(keep, s[1..]);
      var rest := Filter(keep, s[1..]);
      if keep(s[0]) {
        var r := [s[0]] + rest;
        assert r[0] == s[0] && r[1..] == rest;
      } else {
        assert Filter(keep, s) == rest;
      }
    }
  }

  lemma {:induction false} FilterAppend(keep: Entry -> bool, a: seq<Entry>, b: seq<Entry>)
    ensures Filter(keep, a + b) == Filter(keep, a) + Filter(keep, b)
    decreases |a|
  {
    if a != [] {
      assert (a + b)[1..] == a[1..] + b;
      FilterAppend(keep, a[1..], b);
    } else {
      assert a + b == b;
    }
  }

  /** Dropping items from a sequence that is ranked leaves it ranked. */
  lemma {:induction false} FilterSortedDesc(keep: Entry -> bool, s: seq<Entry>)
    requires SortedDesc(s)
    ensures SortedDesc(Filter(keep, s))
    decreases |s|
  {
    if s != [] {
      assert SortedDesc(s[1..]);
      FilterSortedDesc(keep, s[1..]);
      var rest := Filter(keep, s[1..]);
      forall e | e in rest ensures s[0].emissions >= e.emissions {
        var k :| 1 <= k < |s| && s[k] == e;
      }
    }
  }

  predicate IsPositive(e: Entry) {
    e.emissions > 0.0
  }

  lemma {:induction false} FilterNone(keep: Entry -> bool, s: seq<Entry>)
    requires forall e :: e in s ==> !keep(e)
    ensures Filter(keep, s) == []
    decreases |s|
  {
    if s != [] {
      FilterNone(keep, s[1..]);
    }
  }

  lemma {:induction false} FilterAll(keep: Entry -> bool, s: seq<Entry>)
    requires forall e :: e in s ==> keep(e)
    ensures Filter(keep, s) == s
    decreases |s|
  {
    if s != [] {
      FilterAll(keep, s[1..]);
      assert s == [s[0]] + s[1..];
    }
  }

  /** A comprehension filter keeps every copy of a kept item and no copy of any other. */
  lemma {:induction false} FilterCounts(keep: Entry -> bool, s: seq<Entry>)
    ensures forall e :: multiset(Filter(keep, s))[e] == if keep(e) then multiset(s)[e] else 0
    decreases |s|
  {
    if s != [] {
      FilterCounts(keep, s[1..]);
      assert s == [s[0]] + s[1..];
      assert multiset(s) == multiset{s[0]} + multiset(s[1..]);
    }
  }

  lemma TakeCons<T>(y: T, s: seq<T>, n: nat)
    ensures Take([y] + s, n + 1) == [y] + Take(s, n)
  {
  }

  lemma FilterCons(keep: Entry -> bool, y: Entry, s: seq<Entry>)
    ensures Filter(keep, [y] + s) == (if keep(y) then [y] else []) + Filter(keep, s)
  {
    assert ([y] + s)[1..] == s;
  }

  /** In a ranked sequence whose first item is not positive, no item is. */
  lemma RankedNonPositive(s: seq<Entry>)
    requires SortedDesc(s) && s != [] && !IsPositive(s[0])
    ensures forall e :: e in s ==> !IsPositive(e)
  {
    forall e | e in s ensures !IsPositive(e) {
      var k :| 0 <= k < |s| && s[k] == e;
    }
  }

  /**
    In a ranked sequence the positive items come first, so keeping the
    positive ones of the first `n` is the same as taking the first `n`
    positive ones.
   */
  lemma {:induction false} PositiveTakeCommute(s: seq<Entry>, n: nat)
    requires SortedDesc(s)
    ensures Filter(IsPositive, Take(s, n)) == Take(Filter(IsPositive, s), n)
    decreases |s|
  {
    if s == [] || n == 0 {
      TakeNothingCommute(s, n);
    } else if IsPositive(s[0]) {
      SortedTail(s);
      PositiveTakeCommute(s[1..], n - 1);
      PositiveHeadTake(s, n);
    } else {
      NonPositiveTake(s, n);
    }
  }

  /** The commutation when there is nothing to take from or nothing to take. */
  lemma TakeNothingCommute(s: seq<Entry>, n: nat)
    requires s == [] || n == 0
    ensures Filter(IsPositive, Take(s, n)) == Take(Filter(IsPositive, s), n)
  {
    if s == [] {
      assert Take(s, n) == [] && Filter(IsPositive, s) == [];
    } else {
      assert Take(s, 0) == [] && Take(Filter(IsPositive, s), 0) == [];
    }
  }

  /** The first `n` items of a non-empty sequence: its head and the first `n - 1` of its tail. */
  lemma TakeHead<T>(s: seq<T>, n: nat)
    requires s != [] && n > 0
    ensures Take(s, n) == [s[0]] + Take(s[1..], n - 1)
  {
    assert s == [s[0]] + s[1..];
    TakeCons(s[0], s[1..], n - 1);
  }

  /** The step of the commutation when the first item is positive. */
  lemma PositiveHeadTake(s: seq<Entry>, n: nat)
    requires s != [] && n > 0 && IsPositive(s[0])
    requires Filter(IsPositive, Take(s[1..], n - 1)) == Take(Filter(IsPositive, s[1..]), n - 1)
    ensures Filter(IsPositive, Take(s, n)) == Take(Filter(IsPositive, s), n)
  {
    var head, tail := s[0], s[1..];
    var front := Take(tail, n - 1);
    TakeHead(s, n);
    FilterCons(IsPositive, head, front);
    var kept := Filter(IsPositive, tail);
    assert Filter(IsPositive, s) == [head] + kept;
    TakeCons(head, kept, n - 1);
  }

  /** When the first item of a ranked sequence is not positive, both sides are empty. */
  lemma NonPositiveTake(s: seq<Entry>, n: nat)
    requires SortedDesc(s) && s != [] && !IsPositive(s[0])
    ensures Filter(IsPositive, Take(s, n)) == Take(Filter(IsPositive, s), n)
  {
    RankedNonPositive(s);
    FilterNone(IsPositive, s);
    var t := Take(s, n);
    forall e | e in t ensures !IsPositive(e) {
      var k :| 0 <= k < |t| && t[k] == e;
      assert e == s[k];
    }
    FilterNone(IsPositive, t);
  }

  /** Two filters that agree on every item of `s` keep the same items of `s`. */
  lemma {:induction false} FilterAgree(keep: Entry -> bool, keep': Entry -> bool, s: seq<Entry>)
    requires forall e :: e in s ==> keep(e) == keep'(e)
    ensures Filter(keep, s) == Filter(keep', s)
    decreases |s|
  {
    if s != [] {
      FilterAgree(keep, keep', s[1..]);
    }
  }
}
