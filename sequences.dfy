/**
 * The query vocabulary the controllers use on tables: `Where` (Filter),
 * `OrderBy`/`OrderByDescending` (SortBy), key lookup (`FindAsync`, `AnyAsync`)
 * and the identity column that assigns a new row its ID.
 */
module Sequences {
  import opened Wrappers

  // ---------------------------------------------------------------- Where

  /** The elements of `s` that satisfy `p`, in their original order. */
  function Filter<T(!new)>(s: seq<T>, p: T -> bool): (r: seq<T>)
    ensures |r| <= |s|
    ensures forall x :: multiset(r)[x] == if p(x) then multiset(s)[x] else 0
    ensures forall i | 0 <= i < |r| :: p(r[i]) && r[i] in s
  {
    if s == [] then []
    else
      assert s == [s[0]] + s[1..];
      var rest := Filter(s[1..], p);
      if p(s[0]) then [s[0]] + rest else rest
  }

  /** One step of Filter: the head, if it passes, then the filtered tail. */
  lemma FilterCons<T(!new)>(s: seq<T>, p: T -> bool)
    requires s != []
    ensures Filter(s, p) == (if p(s[0]) then [s[0]] else []) + Filter(s[1..], p)
  {
  }

  /** `Any(p)`: some element satisfies `p`. */
  predicate Exists<T>(s: seq<T>, p: T -> bool) {
    exists i | 0 <= i < |s| :: p(s[i])
  }

  /** The filtered sequence is empty exactly when no element satisfies `p`. */
  lemma {:induction false} FilterEmpty<T(!new)>(s: seq<T>, p: T -> bool)
    ensures Filter(s, p) == [] <==> !Exists(s, p)
  {
    if s != [] {
      FilterEmpty(s[1..], p);
      if !p(s[0]) && Exists(s, p) {
        var i :| 0 <= i < |s| && p(s[i]);
        assert p(s[1..][i - 1]);
      }
    }
  }

  // ------------------------------------------------------ OrderBy / Descending

  datatype Direction = Ascending | Descending

  /**
   * The order SQL Server uses for a nullable column: NULL sorts below every
   * value.
   */
  predicate KeyLe(a: Option<int>, b: Option<int>) {
    a.None? || (b.Some? && a.value <= b.value)
  }

  /** `a` may stand before `b` in a sequence sorted in direction `d`. */
  predicate InOrder(a: Option<int>, b: Option<int>, d: Direction) {
    if d == Ascending then KeyLe(a, b) else KeyLe(b, a)
  }

  predicate SortedBy<T>(s: seq<T>, key: T -> Option<int>, d: Direction) {
    forall i, j | 0 <= i < j < |s| :: InOrder(key(s[i]), key(s[j]), d)
  }

  /** InOrder is transitive, and any two keys are in order one way or the other. */
  lemma InOrderFacts(a: Option<int>, b: Option<int>, c: Option<int>, d: Direction)
    ensures InOrder(a, b, d) && InOrder(b, c, d) ==> InOrder(a, c, d)
    ensures InOrder(a, b, d) || InOrder(b, a, d)
  {
  }

  /** Putting in front of a sorted sequence an element that may precede all of it keeps it sorted. */
  lemma SortedCons<T>(x: T, s: seq<T>, key: T -> Option<int>, d: Direction)
    requires SortedBy(s, key, d)
    requires forall y | y in s :: InOrder(key(x), key(y), d)
    ensures SortedBy([x] + s, key, d)
  {
    var r := [x] + s;
    forall i, j | 0 <= i < j < |r| ensures InOrder(key(r[i]), key(r[j]), d) {
      assert r[j] == s[j - 1];
      if i > 0 {
        assert r[i] == s[i - 1];
      }
    }
  }

  /** Inserts `x` before the first element it may precede. */
  function Insert<T(!new)>(x: T, s: seq<T>, key: T -> Option<int>, d: Direction): (r: seq<T>)
    requires SortedBy(s, key, d)
    ensures multiset(r) == multiset(s) + multiset{x}
    ensures forall y :: y in r <==> y in s || y == x
    ensures SortedBy(r, key, d)
  {
    if s == [] then [x]
    else if InOrder(key(x), key(s[0]), d) then
      assert forall y | y in s :: InOrder(key(x), key(y), d) by {
        forall y | y in s ensures InOrder(key(x), key(y), d) {
          InOrderFacts(key(x), key(s[0]), key(y), d);
        }
      }
      SortedCons(x, s, key, d);
      [x] + s
    else
      assert s == [s[0]] + s[1..];
      var rest := Insert(x, s[1..], key, d);
      assert forall y | y in rest :: InOrder(key(s[0]), key(y), d) by {
        InOrderFacts(key(x), key(s[0]), key(x), d);
      }
      SortedCons(s[0], rest, key, d);
      [s[0]] + rest
  }

  /** Insertion sort: a permutation of `s` sorted by `key` in direction `d`. */
  function SortBy<T(!new)>(s: seq<T>, key: T -> Option<int>, d: Direction): (r: seq<T>)
    ensures multiset(r) == multiset(s)
    ensures |r| == |s|
    ensures SortedBy(r, key, d)
  {
    if s == [] then []
    else
      assert s == [s[0]] + s[1..];
      Insert(s[0], SortBy(s[1..], key, d), key, d)
  }

  // --------------------------------------------------------------- Select

  /** `Select(f)`: `f` applied to every element, in order. */
  function Map<T, U>(s: seq<T>, f: T -> U): (r: seq<U>)
    ensures |r| == |s|
    ensures forall i | 0 <= i < |s| :: r[i] == f(s[i])
  {
    if s == [] then [] else [f(s[0])] + Map(s[1..], f)
  }

  // ------------------------------------------------- Where, then OrderBy

  /** `Where(p).OrderBy(key)`: the rows satisfying `p`, sorted; empty exactly when none does. */
  function Select<T(!new)>(s: seq<T>, p: T -> bool, key: T -> Option<int>, d: Direction): (r: seq<T>)
    ensures forall x :: multiset(r)[x] == if p(x) then multiset(s)[x] else 0
    ensures SortedBy(r, key, d)
    ensures r == [] <==> !Exists(s, p)
  {
    FilterEmpty(s, p);
    SortBy(Filter(s, p), key, d)
  }

  // ---------------------------------------------------------- keyed rows

  /** No two rows share a primary key. */
  predicate UniqueKeys<T, K(==)>(s: seq<T>, key: T -> K) {
    forall i, j | 0 <= i < j < |s| :: key(s[i]) != key(s[j])
  }

  predicate HasKey<T, K(==)>(s: seq<T>, key: T -> K, k: K) {
    exists i | 0 <= i < |s| :: key(s[i]) == k
  }

  /** `FindAsync(k)`: the position of the first row whose key is `k`, if any. */
  function IndexOfKey<T, K(==)>(s: seq<T>, key: T -> K, k: K): (r: Option<nat>)
    ensures r.Some? ==> r.value < |s| && key(s[r.value]) == k
    ensures r.Some? ==> forall j | 0 <= j < r.value :: key(s[j]) != k
    ensures r.None? <==> !HasKey(s, key, k)
  {
    if s == [] then None
    else if key(s[0]) == k then Some(0)
    else
      var rest := IndexOfKey(s[1..], key, k);
      if rest.None? then
        assert forall i | 1 <= i < |s| :: key(s[i]) == key(s[1..][i - 1]);
        None
      else Some(rest.value + 1)
  }

  /** `FindAsync(k)` as the row itself. */
  function FindByKey<T, K(==)>(s: seq<T>, key: T -> K, k: K): (r: Option<T>)
    ensures r.Some? ==> r.value in s && key(r.value) == k
    ensures r.None? <==> !HasKey(s, key, k)
  {
    var i := IndexOfKey(s, key, k);
    if i.None? then None else Some(s[i.value])
  }

  /** In a table with unique keys the row found is the only one with that key. */
  lemma FoundIsOnly<T, K>(s: seq<T>, key: T -> K, k: K, j: nat)
    requires UniqueKeys(s, key)
    requires j < |s| && key(s[j]) == k
    ensures IndexOfKey(s, key, k) == Some(j)
  {
  }

  /**
   * The value an identity column gives a new row: one more than the largest
   * key, and at least 1, so it is different from every key in the table.
   */
  function FreshKey<T>(s: seq<T>, key: T -> int): (r: int)
    ensures r >= 1
    ensures forall i | 0 <= i < |s| :: key(s[i]) < r
  {
    if s == [] then 1
    else
      var rest := FreshKey(s[1..], key);
      assert forall i | 1 <= i < |s| :: s[i] == s[1..][i - 1];
      if key(s[0]) >= rest then key(s[0]) + 1 else rest
  }

  /** Appending a row whose key no row has keeps the keys unique. */
  lemma AppendUnique<T, K>(s: seq<T>, key: T -> K, x: T)
    requires UniqueKeys(s, key)
    requires forall i | 0 <= i < |s| :: key(s[i]) != key(x)
    ensures UniqueKeys(s + [x], key)
  {
  }

  /** Replacing a row by one with the same key keeps the keys unique. */
  lemma UpdateUnique<T, K>(s: seq<T>, key: T -> K, i: nat, x: T)
    requires UniqueKeys(s, key)
    requires i < |s| && key(x) == key(s[i])
    ensures UniqueKeys(s[i := x], key)
  {
  }

  /** Removing the row at `i` keeps the keys unique. */
  lemma RemoveAtUnique<T, K>(s: seq<T>, key: T -> K, i: nat)
    requires UniqueKeys(s, key)
    requires i < |s|
    ensures UniqueKeys(s[..i] + s[i + 1..], key)
  {
    var r := s[..i] + s[i + 1..];
    forall a, b | 0 <= a < b < |r| ensures key(r[a]) != key(r[b]) {
      var a' := if a < i then a else a + 1;
      var b' := if b < i then b else b + 1;
      assert r[a] == s[a'] && r[b] == s[b'];
    }
  }

  /** Keeping only some rows keeps the keys unique. */
  lemma {:induction false} FilterUnique<T(!new), K>(s: seq<T>, key: T -> K, p: T -> bool)
    requires UniqueKeys(s, key)
    ensures UniqueKeys(Filter(s, p), key)
  {
    if s != [] {
      assert UniqueKeys(s[1..], key);
      FilterUnique(s[1..], key, p);
      var rest := Filter(s[1..], p);
      if p(s[0]) {
        forall j | 0 <= j < |rest| ensures key(s[0]) != key(rest[j]) {
          assert rest[j] in s[1..];
          var k :| 0 <= k < |s[1..]| && s[1..][k] == rest[j];
          assert s[k + 1] == rest[j];
        }
        assert Filter(s, p) == [s[0]] + rest;
      }
    }
  }

  /** The test "the key is not `k`", which removing a row by its key keeps. */
  function KeyIsNot<T, K(==)>(key: T -> K, k: K): T -> bool {
    (x: T) => key(x) != k
  }

  /** Filtering with a test every element passes changes nothing. */
  lemma {:induction false} FilterAll<T(!new)>(s: seq<T>, p: T -> bool)
    requires forall i | 0 <= i < |s| :: p(s[i])
    ensures Filter(s, p) == s
  {
    if s != [] {
      FilterAll(s[1..], p);
    }
  }

  /** Cutting out a position after the head keeps the head in front. */
  lemma CutAfterHead<T>(s: seq<T>, i: nat)
    requires 0 < i < |s|
    ensures s[..i] + s[i + 1..] == [s[0]] + (s[1..][..i - 1] + s[1..][i..])
  {
    assert s[..i] == [s[0]] + s[1..][..i - 1];
    assert s[i + 1..] == s[1..][i..];
  }

  /** With unique keys, dropping the head keeps exactly the rows whose key differs from its key. */
  lemma RemoveHeadIsFilter<T(!new), K>(s: seq<T>, key: T -> K)
    requires UniqueKeys(s, key)
    requires 0 < |s|
    ensures s[1..] == Filter(s, KeyIsNot(key, key(s[0])))
  {
    var p := KeyIsNot(key, key(s[0]));
    var t := s[1..];
    assert s == [s[0]] + t;
    assert forall j | 0 <= j < |t| :: p(t[j]) by {
      forall j | 0 <= j < |t| ensures p(t[j]) {
        assert t[j] == s[j + 1];
      }
    }
    FilterAll(t, p);
  }

  /**
   * In a table with unique keys, cutting out the row at `i` is the same as
   * keeping every row whose key differs from its key, in the same order.
   */
  lemma {:induction false} RemoveAtIsFilter<T(!new), K>(s: seq<T>, key: T -> K, i: nat)
    requires UniqueKeys(s, key)
    requires i < |s|
    ensures s[..i] + s[i + 1..] == Filter(s, KeyIsNot(key, key(s[i])))
  {
    if i == 0 {
      assert s[..0] + s[1..] == s[1..];
      RemoveHeadIsFilter(s, key);
    } else {
      var p := KeyIsNot(key, key(s[i]));
      var t := s[1..];
      assert s == [s[0]] + t;
      assert t[i - 1] == s[i];
      assert p(s[0]);
      FilterCons(s, p);
      RemoveAtIsFilter(t, key, i - 1);
      CutAfterHead(s, i);
    }
  }
}
