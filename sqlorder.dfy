/**
 * The order an ORDER BY over nullable text columns produces, assuming a
 * binary collation (characters compare by code point) and NULLs sorting
 * before every value, as MariaDB does for ascending order.
 */
module SqlOrder {
  import opened Wrappers
  import opened Relational

  /** Lexicographic order on strings. */
  predicate StrLe(a: string, b: string) {
    a == [] || (b != [] && (a[0] < b[0] || (a[0] == b[0] && StrLe(a[1..], b[1..]))))
  }

  lemma {:induction false} StrLeTotal(a: string, b: string)
    ensures StrLe(a, b) || StrLe(b, a)
  {
    if a != [] && b != [] && a[0] == b[0] {
      StrLeTotal(a[1..], b[1..]);
    }
  }

  lemma {:induction false} StrLeTransitive(a: string, b: string, c: string)
    requires StrLe(a, b) && StrLe(b, c)
    ensures StrLe(a, c)
  {
    if a != [] && a[0] == b[0] && b[0] == c[0] {
      StrLeTransitive(a[1..], b[1..], c[1..]);
    }
  }

  lemma {:induction false} StrLeAntisymmetric(a: string, b: string)
    requires StrLe(a, b) && StrLe(b, a)
    ensures a == b
  {
    if a != [] {
      StrLeAntisymmetric(a[1..], b[1..]);
      assert a == [a[0]] + a[1..] && b == [b[0]] + b[1..];
    }
  }

  /** One sort-key component: NULL first, then values in string order. */
  predicate OptLe(a: Option<string>, b: Option<string>) {
    a.None? || (b.Some? && StrLe(a.value, b.value))
  }

  lemma OptLeTotal(a: Option<string>, b: Option<string>)
    ensures OptLe(a, b) || OptLe(b, a)
  {
    if a.Some? && b.Some? {
      StrLeTotal(a.value, b.value);
    }
  }

  lemma OptLeTransitive(a: Option<string>, b: Option<string>, c: Option<string>)
    requires OptLe(a, b) && OptLe(b, c)
    ensures OptLe(a, c)
  {
    if a.Some? {
      StrLeTransitive(a.value, b.value, c.value);
    }
  }

  lemma OptLeAntisymmetric(a: Option<string>, b: Option<string>)
    requires OptLe(a, b) && OptLe(b, a)
    ensures a == b
  {
    if a.Some? {
      StrLeAntisymmetric(a.value, b.value);
    }
  }

  /** A sort key: the ORDER BY columns of one row, compared left to right. */
  type Key = seq<Option<string>>

  predicate KeyLe(a: Key, b: Key) {
    a == [] || (b != [] && ((OptLe(a[0], b[0]) && a[0] != b[0]) || (a[0] == b[0] && KeyLe(a[1..], b[1..]))))
  }

  lemma {:induction false} KeyLeTotal(a: Key, b: Key)
    ensures KeyLe(a, b) || KeyLe(b, a)
  {
    if a != [] && b != [] {
      OptLeTotal(a[0], b[0]);
      if a[0] == b[0] {
        KeyLeTotal(a[1..], b[1..]);
      }
    }
  }

  lemma {:induction false} KeyLeTransitive(a: Key, b: Key, c: Key)
    requires KeyLe(a, b) && KeyLe(b, c)
    ensures KeyLe(a, c)
  {
    if a != [] {
      if a[0] == b[0] && b[0] == c[0] {
        KeyLeTransitive(a[1..], b[1..], c[1..]);
      } else if a[0] != b[0] && b[0] != c[0] {
        OptLeTransitive(a[0], b[0], c[0]);
        if a[0] == c[0] {
          OptLeAntisymmetric(a[0], b[0]);
        }
      }
    }
  }

  lemma {:induction false} KeyLeAntisymmetric(a: Key, b: Key)
    requires |a| == |b|
    requires KeyLe(a, b) && KeyLe(b, a)
    ensures a == b
  {
    if a != [] {
      if a[0] == b[0] {
        KeyLeAntisymmetric(a[1..], b[1..]);
        assert a == [a[0]] + a[1..] && b == [b[0]] + b[1..];
      } else {
        OptLeAntisymmetric(a[0], b[0]);
      }
    }
  }

  ghost predicate SortedBy<T>(s: seq<T>, key: T -> Key) {
    forall i, j :: 0 <= i < j < |s| ==> KeyLe(key(s[i]), key(s[j]))
  }

  /** Insertion of x before the first element whose key is greater, so after every element it ties with. */
  function Insert<T>(x: T, s: seq<T>, key: T -> Key): (r: seq<T>)
    ensures multiset(r) == multiset(s) + multiset{x}
    ensures |r| == |s| + 1
  {
    if s == [] then [x]
    else if !KeyLe(key(s[0]), key(x)) then [x] + s
    else
      assert s == [s[0]] + s[1..];
      [s[0]] + Insert(x, s[1..], key)
  }

  lemma {:induction false} InsertMember<T>(x: T, s: seq<T>, key: T -> Key, y: T)
    ensures y in Insert(x, s, key) <==> y == x || y in s
  {
    if s != [] && KeyLe(key(s[0]), key(x)) {
      InsertMember(x, s[1..], key, y);
      assert s == [s[0]] + s[1..];
    }
  }

  /** A sorted sequence stays sorted with an element in front that is not above any of its elements. */
  lemma ConsSorted<T>(h: T, tail: seq<T>, key: T -> Key)
    requires SortedBy(tail, key)
    requires forall y :: y in tail ==> KeyLe(key(h), key(y))
    ensures SortedBy([h] + tail, key)
  {
    var r := [h] + tail;
    forall i, j | 0 <= i < j < |r| ensures KeyLe(key(r[i]), key(r[j])) {
      if i == 0 {
        assert r[j] == tail[j - 1] && tail[j - 1] in tail;
      } else {
        assert r[i] == tail[i - 1] && r[j] == tail[j - 1];
      }
    }
  }

  lemma {:induction false} InsertSorted<T>(x: T, s: seq<T>, key: T -> Key)
    requires SortedBy(s, key)
    ensures SortedBy(Insert(x, s, key), key)
  {
    if s != [] && KeyLe(key(s[0]), key(x)) {
      var tail := Insert(x, s[1..], key);
      InsertSorted(x, s[1..], key);
      forall y | y in tail ensures KeyLe(key(s[0]), key(y)) {
        InsertMember(x, s[1..], key, y);
        if y != x {
          var k :| 0 <= k < |s[1..]| && s[1..][k] == y;
          assert s[k + 1] == y;
        }
      }
      ConsSorted(s[0], tail, key);
    } else if s != [] {
      KeyLeTotal(key(x), key(s[0]));
      forall y | y in s ensures KeyLe(key(x), key(y)) {
        var k :| 0 <= k < |s| && s[k] == y;
        if k > 0 {
          KeyLeTransitive(key(x), key(s[0]), key(y));
        }
      }
      ConsSorted(x, s, key);
    }
  }

  /** ORDER BY key: an insertion sort that keeps tied elements in input order. */
  function SortBy<T>(s: seq<T>, key: T -> Key): (r: seq<T>)
    ensures multiset(r) == multiset(s)
    ensures |r| == |s|
  {
    if s == [] then []
    else
      assert s == s[..|s| - 1] + [s[|s| - 1]];
      Insert(s[|s| - 1], SortBy(s[..|s| - 1], key), key)
  }

  lemma {:induction false} SortBySorted<T>(s: seq<T>, key: T -> Key)
    ensures SortedBy(SortBy(s, key), key)
  {
    if s != [] {
      SortBySorted(s[..|s| - 1], key);
      InsertSorted(s[|s| - 1], SortBy(s[..|s| - 1], key), key);
    }
  }

  /** An element not below anything in s goes to the end. */
  lemma {:induction false} InsertAfterAll<T>(x: T, s: seq<T>, key: T -> Key)
    requires forall y :: y in s ==> KeyLe(key(y), key(x))
    ensures Insert(x, s, key) == s + [x]
  {
    if s != [] {
      assert s == [s[0]] + s[1..];
      assert s[0] in s;
      assert Insert(x, s, key) == [s[0]] + Insert(x, s[1..], key);
      forall y | y in s[1..] ensures KeyLe(key(y), key(x)) {
        assert y in s;
      }
      InsertAfterAll(x, s[1..], key);
    }
  }

  /** Dropping the last element of a sorted sequence leaves it sorted, and that element is not below any other. */
  lemma SortedInit<T>(s: seq<T>, key: T -> Key)
    requires s != [] && SortedBy(s, key)
    ensures SortedBy(s[..|s| - 1], key)
    ensures forall y :: y in s[..|s| - 1] ==> KeyLe(key(y), key(s[|s| - 1]))
  {
    var init := s[..|s| - 1];
    forall i, j | 0 <= i < j < |init| ensures KeyLe(key(init[i]), key(init[j])) {
      assert init[i] == s[i] && init[j] == s[j];
    }
    forall y | y in init ensures KeyLe(key(y), key(s[|s| - 1])) {
      var i :| 0 <= i < |init| && init[i] == y;
      assert s[i] == y;
    }
  }

  lemma SortBySnocAfter<T>(init: seq<T>, x: T, key: T -> Key)
    requires SortBy(init, key) == init
    requires forall y :: y in init ==> KeyLe(key(y), key(x))
    ensures SortBy(init + [x], key) == init + [x]
  {
    var s := init + [x];
    assert s[..|s| - 1] == init && s[|s| - 1] == x;
    InsertAfterAll(x, init, key);
  }

  /** The sort is stable: input that is already in key order, ties included, comes back unchanged. */
  lemma {:induction false} SortByKeepsSorted<T>(s: seq<T>, key: T -> Key)
    requires SortedBy(s, key)
    ensures SortBy(s, key) == s
  {
    if s != [] {
      var init, x := s[..|s| - 1], s[|s| - 1];
      SortedInit(s, key);
      SortByKeepsSorted(init, key);
      assert s == init + [x];
      SortBySnocAfter(init, x, key);
    }
  }

  /** Two rows with equal keys keep their input order. */
  lemma SortByTieOrder<T>(a: T, b: T, key: T -> Key)
    requires key(a) == key(b)
    ensures SortBy([a, b], key) == [a, b]
  {
    KeyLeTotal(key(a), key(a));
    SortByKeepsSorted([a, b], key);
  }

  lemma {:induction false} InsertFilterCount<T>(x: T, s: seq<T>, key: T -> Key, p: T -> bool)
    ensures |Filter(Insert(x, s, key), p)| == |Filter(s, p)| + (if p(x) then 1 else 0)
  {
    if s != [] && KeyLe(key(s[0]), key(x)) {
      InsertFilterCount(x, s[1..], key, p);
      assert Insert(x, s, key)[1..] == Insert(x, s[1..], key);
    }
  }

  /** Sorting does not change how many rows satisfy a condition. */
  lemma {:induction false} SortByFilterCount<T>(s: seq<T>, key: T -> Key, p: T -> bool)
    ensures |Filter(SortBy(s, key), p)| == |Filter(s, p)|
  {
    if s != [] {
      var init, x := s[..|s| - 1], s[|s| - 1];
      assert s == init + [x];
      assert SortBy(s, key) == Insert(x, SortBy(init, key), key);
      SortByFilterCount(init, key, p);
      InsertFilterCount(x, SortBy(init, key), key, p);
      FilterSnoc(init, x, p);
    }
  }

  /** SELECT DISTINCT … ORDER BY key: each value once, sorted. */
  function SortedDistinct<T(==,!new)>(s: seq<T>, key: T -> Key): (r: seq<T>)
    ensures NoDup(r)
    ensures forall x :: x in r <==> x in s
  {
    var d := Dedup(s);
    var r := SortBy(d, key);
    assert forall x :: x in r <==> x in d by {
      forall x ensures x in r <==> x in d {
        assert x in r <==> x in multiset(r);
      }
    }
    NoDupPermutation(d, r);
    r
  }

  lemma SortedDistinctSorted<T(!new)>(s: seq<T>, key: T -> Key)
    ensures SortedBy(SortedDistinct(s, key), key)
  {
    SortBySorted(Dedup(s), key);
  }

  lemma NoDupPermutation<T>(a: seq<T>, b: seq<T>)
    requires NoDup(a) && multiset(a) == multiset(b)
    ensures NoDup(b)
  {
    forall i, j | 0 <= i < j < |b| ensures b[i] != b[j] {
      if b[i] == b[j] {
        MultisetAtLeastTwo(b, i, j);
        NoDupMultiset(a, b[i]);
      }
    }
  }

  lemma MultisetAtLeastTwo<T>(s: seq<T>, i: nat, j: nat)
    requires i < j < |s| && s[i] == s[j]
    ensures multiset(s)[s[i]] >= 2
  {
    assert s == s[..i] + [s[i]] + s[i + 1..j] + [s[j]] + s[j + 1..];
  }

  lemma {:induction false} NoDupMultiset<T>(s: seq<T>, x: T)
    requires NoDup(s)
    ensures multiset(s)[x] <= 1
  {
    if s != [] {
      assert s == [s[0]] + s[1..];
      NoDupMultiset(s[1..], x);
      if s[0] == x {
        assert x !in s[1..];
      }
    }
  }
}
