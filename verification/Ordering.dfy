/** Sorting under a total order, removal of adjacent duplicates, and the fact
    that a strictly increasing list is determined by its elements. */
module Ordering {
  import opened Prelude

  ghost predicate TotalOrder<T(!new)>(le: (T, T) -> bool) {
    && (forall x, y :: le(x, y) || le(y, x))
    && (forall x, y :: le(x, y) && le(y, x) ==> x == y)
    && (forall x, y, z :: le(x, y) && le(y, z) ==> le(x, z))
  }

  ghost predicate StrictOrder<T(!new)>(lt: (T, T) -> bool) {
    && (forall x :: !lt(x, x))
    && (forall x, y, z :: lt(x, y) && lt(y, z) ==> lt(x, z))
  }

  ghost predicate Sorted<T(!new)>(le: (T, T) -> bool, s: seq<T>) {
    forall i, j | 0 <= i < j < |s| :: le(s[i], s[j])
  }

  function Insert<T>(le: (T, T) -> bool, x: T, s: seq<T>): seq<T> {
    if s == [] then [x]
    else if le(x, s[0]) then [x] + s
    else [s[0]] + Insert(le, x, s[1..])
  }

  function Sort<T>(le: (T, T) -> bool, s: seq<T>): seq<T> {
    if s == [] then [] else Insert(le, s[0], Sort(le, s[1..]))
  }

  lemma {:induction false} InsertMultiset<T>(le: (T, T) -> bool, x: T, s: seq<T>)
    ensures multiset(Insert(le, x, s)) == multiset(s) + multiset{x}
  {
    if s != [] && !le(x, s[0]) {
      InsertMultiset(le, x, s[1..]);
      assert s == [s[0]] + s[1..];
    }
  }

  lemma {:induction false} InsertSorted<T(!new)>(le: (T, T) -> bool, x: T, s: seq<T>)
    requires TotalOrder(le) && Sorted(le, s)
    ensures Sorted(le, Insert(le, x, s))
  {
    if s == [] {
    } else if le(x, s[0]) {
      forall j | 0 <= j < |s| ensures le(x, s[j]) {
        if j > 0 { assert le(s[0], s[j]); }
      }
    } else {
      InsertSorted(le, x, s[1..]);
      InsertMultiset(le, x, s[1..]);
      var t := Insert(le, x, s[1..]);
      forall j | 0 <= j < |t| ensures le(s[0], t[j]) {
        assert t[j] in multiset(t);
        if t[j] != x {
          assert t[j] in s[1..];
        }
      }
    }
  }

  lemma {:induction false} SortMultiset<T>(le: (T, T) -> bool, s: seq<T>)
    ensures multiset(Sort(le, s)) == multiset(s)
  {
    if s != [] {
      SortMultiset(le, s[1..]);
      InsertMultiset(le, s[0], Sort(le, s[1..]));
      assert s == [s[0]] + s[1..];
    }
  }

  lemma {:induction false} SortIsSorted<T(!new)>(le: (T, T) -> bool, s: seq<T>)
    requires TotalOrder(le)
    ensures Sorted(le, Sort(le, s))
  {
    if s != [] {
      SortIsSorted(le, s[1..]);
      InsertSorted(le, s[0], Sort(le, s[1..]));
    }
  }

  lemma SortSorted<T(!new)>(le: (T, T) -> bool, s: seq<T>)
    requires TotalOrder(le)
    ensures Sorted(le, Sort(le, s))
    ensures |Sort(le, s)| == |s|
    ensures forall x :: x in Sort(le, s) <==> x in s
  {
    SortIsSorted(le, s);
    SortMultiset(le, s);
    assert |multiset(Sort(le, s))| == |multiset(s)|;
    forall x ensures x in Sort(le, s) <==> x in s {
      assert x in multiset(Sort(le, s)) <==> x in multiset(s);
    }
  }

  /** Keeps the first of every run of adjacent elements that `same` identifies. */
  function Dedup<T>(same: (T, T) -> bool, s: seq<T>): seq<T> {
    if |s| <= 1 then s
    else
      var init := Dedup(same, s[..|s| - 1]);
      if init != [] && same(s[|s| - 1], init[|init| - 1]) then init else init + [s[|s| - 1]]
  }

  lemma {:induction false} DedupSubset<T(!new)>(same: (T, T) -> bool, s: seq<T>)
    ensures forall x :: x in Dedup(same, s) ==> x in s
    ensures s != [] ==> Dedup(same, s) != []
  {
    if |s| > 1 {
      DedupSubset(same, s[..|s| - 1]);
    }
  }

  /** `lt` orders the keys, `same` says two elements have one key, and `le`
      refines both: elements of one key are ordered among themselves too. */
  ghost predicate KeyOrder<T(!new)>(le: (T, T) -> bool, lt: (T, T) -> bool, same: (T, T) -> bool) {
    && TotalOrder(le)
    && StrictOrder(lt)
    && (forall x, y :: le(x, y) ==> lt(x, y) || same(x, y))
    && (forall x, y :: same(x, y) ==> same(y, x) && !lt(x, y))
    && (forall x, y, z :: same(x, y) && same(y, z) ==> same(x, z))
    && (forall x, y, z :: same(x, y) && lt(y, z) ==> lt(x, z))
    && (forall x, y, z :: lt(x, y) && same(y, z) ==> lt(x, z))
  }

  /** A key above the last one left is above them all. */
  lemma AppendAbove<T(!new)>(lt: (T, T) -> bool, d: seq<T>, z: T)
    requires StrictOrder(lt) && Sorted(lt, d) && d != [] && lt(d[|d| - 1], z)
    ensures Sorted(lt, d + [z])
  {
    forall i | 0 <= i < |d| ensures lt(d[i], z) {
      assert i < |d| - 1 ==> lt(d[i], d[|d| - 1]);
    }
  }

  lemma AboveLast<T(!new)>(le: (T, T) -> bool, lt: (T, T) -> bool, same: (T, T) -> bool, y: T, z: T, last: T)
    requires KeyOrder(le, lt, same) && le(y, z) && same(y, last) && !same(z, last)
    ensures lt(last, z)
  {
    assert same(last, y);
    assert same(y, z) ==> same(z, y) ==> same(z, last);
    assert lt(y, z);
  }

  /** On a sorted list the keys that are left strictly increase, and the last
      key is still there. */
  lemma {:induction false} DedupStrict<T(!new)>(
    le: (T, T) -> bool, lt: (T, T) -> bool, same: (T, T) -> bool, s: seq<T>)
    requires KeyOrder(le, lt, same) && Sorted(le, s)
    ensures Sorted(lt, Dedup(same, s))
    ensures s != [] ==> Dedup(same, s) != [] && same(s[|s| - 1], Dedup(same, s)[|Dedup(same, s)| - 1])
  {
    if s != [] { SameReflexive(le, lt, same, s[|s| - 1]); }
    if |s| > 1 {
      hide KeyOrder;
      var front, z := s[..|s| - 1], s[|s| - 1];
      DedupStrict(le, lt, same, front);
      var d := Dedup(same, front);
      var last := d[|d| - 1];
      if !same(z, last) {
        assert le(s[|s| - 2], s[|s| - 1]);
        AboveLast(le, lt, same, front[|front| - 1], z, last);
        KeyOrderStrict(le, lt, same);
        AppendAbove(lt, d, z);
      }
    }
  }

  lemma SameReflexive<T(!new)>(le: (T, T) -> bool, lt: (T, T) -> bool, same: (T, T) -> bool, x: T)
    requires KeyOrder(le, lt, same)
    ensures same(x, x)
  {
    assert le(x, x);
  }

  lemma KeyOrderStrict<T(!new)>(le: (T, T) -> bool, lt: (T, T) -> bool, same: (T, T) -> bool)
    requires KeyOrder(le, lt, same)
    ensures StrictOrder(lt)
  {
  }

  /** Every element of a sorted list has its key's first element left, and that is below it. */
  lemma {:induction false} DedupCovers<T(!new)>(le: (T, T) -> bool, same: (T, T) -> bool, s: seq<T>, x: T)
    requires Sorted(le, s) && x in s
    requires forall x :: le(x, x) && same(x, x)
    requires forall x, y :: same(x, y) ==> same(y, x)
    ensures exists m :: m in Dedup(same, s) && same(m, x) && le(m, x)
  {
    if |s| == 1 {
      assert x in Dedup(same, s) && same(x, x) && le(x, x);
    } else {
      var front, z := s[..|s| - 1], s[|s| - 1];
      assert s == front + [z];
      if x in front {
        DedupCovers(le, same, front, x);
        var m :| m in Dedup(same, front) && same(m, x) && le(m, x);
        assert m in Dedup(same, s);
      } else {
        LastCovered(le, same, s);
      }
    }
  }

  lemma LastCovered<T(!new)>(le: (T, T) -> bool, same: (T, T) -> bool, s: seq<T>)
    requires Sorted(le, s) && |s| > 1
    requires forall x :: le(x, x) && same(x, x)
    requires forall x, y :: same(x, y) ==> same(y, x)
    ensures exists m :: m in Dedup(same, s) && same(m, s[|s| - 1]) && le(m, s[|s| - 1])
  {
    var front, z := s[..|s| - 1], s[|s| - 1];
    DedupSubset(same, front);
    var d := Dedup(same, front);
    var last := d[|d| - 1];
    if same(z, last) {
      assert last in front;
      var i :| 0 <= i < |front| && front[i] == last;
      assert le(s[i], s[|s| - 1]);
      assert last in Dedup(same, s) && same(last, z) && le(last, z);
    } else {
      assert Dedup(same, s) == d + [z];
      assert z in Dedup(same, s) && same(z, z) && le(z, z);
    }
  }

  /** What is left of a sorted list is exactly the least element of every key. */
  lemma DedupLeast<T(!new)>(
    le: (T, T) -> bool, lt: (T, T) -> bool, same: (T, T) -> bool, s: seq<T>)
    requires KeyOrder(le, lt, same) && Sorted(le, s)
    ensures forall x :: x in Dedup(same, s) <==> x in s && forall y | y in s && same(y, x) :: le(x, y)
  {
    var d := Dedup(same, s);
    DedupSubset(same, s);
    DedupStrict(le, lt, same, s);
    forall x ensures same(x, x) {
      assert le(x, x);
    }
    forall x | x in d ensures forall y | y in s && same(y, x) :: le(x, y) {
      forall y | y in s && same(y, x) ensures le(x, y) {
        DedupCovers(le, same, s, y);
        var m :| m in d && same(m, y) && le(m, y);
        StrictSameKey(lt, same, d, m, x);
      }
    }
    forall x | x in s && forall y | y in s && same(y, x) :: le(x, y) ensures x in d {
      DedupCovers(le, same, s, x);
      var m :| m in d && same(m, x) && le(m, x);
      assert le(x, m);
    }
  }

  lemma StrictSameKey<T(!new)>(lt: (T, T) -> bool, same: (T, T) -> bool, d: seq<T>, x: T, y: T)
    requires Sorted(lt, d) && x in d && y in d
    requires forall x, y :: same(x, y) ==> !lt(x, y) && !lt(y, x)
    ensures same(x, y) ==> x == y
  {
    var i :| 0 <= i < |d| && d[i] == x;
    var j :| 0 <= j < |d| && d[j] == y;
    assert i < j ==> lt(x, y);
    assert j < i ==> lt(y, x);
  }

  /** Two strictly increasing lists with the same elements are the same list. */
  lemma {:induction false} StrictlySortedUnique<T(!new)>(lt: (T, T) -> bool, s: seq<T>, t: seq<T>)
    requires StrictOrder(lt) && Sorted(lt, s) && Sorted(lt, t)
    requires forall x :: x in s <==> x in t
    ensures s == t
  {
    assert t != [] ==> t[0] in s;
    assert s != [] ==> s[0] in t;
    if s != [] {
      assert s[0] in t && t[0] in s;
      assert s[0] == t[0];
      forall x ensures x in s[1..] <==> x in t[1..] {
        if x in s[1..] {
          assert lt(s[0], x);
          assert x in t;
        }
        if x in t[1..] {
          assert lt(t[0], x);
          assert x in s;
        }
      }
      StrictlySortedUnique(lt, s[1..], t[1..]);
    }
  }

  // ---------------------------------------------------------------- identifiers and strings

  predicate NatLe(a: nat, b: nat) { a <= b }
  predicate NatLt(a: nat, b: nat) { a < b }
  predicate NatSame(a: nat, b: nat) { a == b }

  function SortIds(ids: seq<nat>): seq<nat> {
    Sort(NatLe, ids)
  }

  /** Sorts identifiers and drops the repeated ones. */
  function DedupIds(ids: seq<nat>): seq<nat> {
    Dedup(NatSame, SortIds(ids))
  }

  lemma DedupIdsSet(ids: seq<nat>)
    ensures Sorted(NatLt, DedupIds(ids))
    ensures forall x :: x in DedupIds(ids) <==> x in ids
    ensures |DedupIds(ids)| <= |ids|
    ensures ids != [] ==> DedupIds(ids) != []
  {
    SortSorted(NatLe, ids);
    DedupStrict(NatLe, NatLt, NatSame, SortIds(ids));
    DedupLeast(NatLe, NatLt, NatSame, SortIds(ids));
    DedupLength(NatSame, SortIds(ids));
    if ids != [] {
      assert ids[0] in DedupIds(ids);
    }
  }

  lemma {:induction false} DedupLength<T>(same: (T, T) -> bool, s: seq<T>)
    ensures |Dedup(same, s)| <= |s|
  {
    if |s| > 1 { DedupLength(same, s[..|s| - 1]); }
  }

  /** Lexicographic order by code point. */
  predicate StrLt(a: string, b: string) {
    b != "" && (a == "" || a[0] < b[0] || (a[0] == b[0] && StrLt(a[1..], b[1..])))
  }

  predicate StrLe(a: string, b: string) {
    a == b || StrLt(a, b)
  }

  lemma {:induction false} StrTrichotomy(a: string, b: string)
    ensures StrLt(a, b) || a == b || StrLt(b, a)
    ensures !(StrLt(a, b) && StrLt(b, a))
    ensures !StrLt(a, a)
  {
    if a != "" {
      StrTrichotomy(a[1..], a[1..]);
      if b != "" {
        StrTrichotomy(a[1..], b[1..]);
        assert a[0] == b[0] && a[1..] == b[1..] ==> a == [a[0]] + a[1..] == b;
      }
    }
  }

  lemma {:induction false} StrTransitive(a: string, b: string, c: string)
    requires StrLt(a, b) && StrLt(b, c)
    ensures StrLt(a, c)
  {
    if a != "" && a[0] == b[0] == c[0] {
      StrTransitive(a[1..], b[1..], c[1..]);
    }
  }

  // ---------------------------------------------------------------- sets of identifiers

  lemma {:induction false} LeastExists(ids: set<nat>, m: nat)
    requires m in ids
    ensures exists k :: k in ids && forall x | x in ids :: k <= x
    decreases m
  {
    if x :| x in ids && x < m {
      LeastExists(ids, x);
    }
  }

  function Least(ids: set<nat>): (r: nat)
    requires ids != {}
    ensures r in ids && forall x | x in ids :: r <= x
  {
    LeastExists(ids, var some :| some in ids; some);
    var m :| m in ids && forall x | x in ids :: m <= x;
    m
  }

  /** The identifiers of a set in increasing order, as an ordered map iterates them. */
  function Ascending(ids: set<nat>): (r: seq<nat>)
    ensures forall x :: x in r <==> x in ids
    ensures |r| == |ids|
    decreases |ids|
  {
    if ids == {} then []
    else
      var least := Least(ids);
      [least] + Ascending(ids - {least})
  }

  lemma {:induction false} AscendingSorted(ids: set<nat>)
    ensures Sorted(NatLt, Ascending(ids))
    decreases |ids|
  {
    if ids != {} {
      var least := Least(ids);
      AscendingSorted(ids - {least});
      var rest := Ascending(ids - {least});
      forall j | 0 <= j < |rest| ensures least < rest[j] {
        assert rest[j] in ids - {least};
      }
    }
  }
}
