/**
 * Sequence operations that give relational (SQL) operators their meaning on
 * in-memory tables: a table is a sequence of rows and the surrogate id of a
 * row is its 1-based position.
 */
module Relational {
  import opened Wrappers

  /** No value occurs twice. */
  predicate NoDup<T(==)>(s: seq<T>) {
    forall i, j :: 0 <= i < j < |s| ==> s[i] != s[j]
  }

  /** SELECT DISTINCT: the first occurrence of every value, in order. */
  function Dedup<T(==,!new)>(s: seq<T>): (r: seq<T>)
    ensures NoDup(r)
    ensures forall x :: x in r <==> x in s
    ensures |r| <= |s|
  {
    if s == [] then []
    else
      var r := Dedup(s[..|s| - 1]);
      assert forall x :: x in s <==> x in s[..|s| - 1] || x == s[|s| - 1];
      if s[|s| - 1] in r then r else r + [s[|s| - 1]]
  }

  function MapSeq<A, B>(s: seq<A>, f: A -> B): (r: seq<B>)
    ensures |r| == |s|
    ensures forall i :: 0 <= i < |s| ==> r[i] == f(s[i])
  {
    seq(|s|, i requires 0 <= i < |s| => f(s[i]))
  }

  /** Concatenation of f(a) for every a of s, in order (a join's row fan-out). */
  function FlatMap<A, B>(s: seq<A>, f: A -> seq<B>): seq<B> {
    if s == [] then [] else f(s[0]) + FlatMap(s[1..], f)
  }

  lemma {:induction false} FlatMapMember<A, B>(s: seq<A>, f: A -> seq<B>, y: B)
    ensures y in FlatMap(s, f) <==> exists a :: a in s && y in f(a)
  {
    if s != [] {
      FlatMapMember(s[1..], f, y);
      assert forall a :: a in s <==> a == s[0] || a in s[1..];
    }
  }

  lemma {:induction false} FlatMapAppend<A, B>(s: seq<A>, t: seq<A>, f: A -> seq<B>)
    ensures FlatMap(s + t, f) == FlatMap(s, f) + FlatMap(t, f)
  {
    if s == [] {
      assert s + t == t;
    } else {
      assert (s + t)[1..] == s[1..] + t;
      FlatMapAppend(s[1..], t, f);
    }
  }

  lemma FlatMapSplit<A, B>(s: seq<A>, f: A -> seq<B>, n: nat)
    requires n <= |s|
    ensures FlatMap(s, f) == FlatMap(s[..n], f) + FlatMap(s[n..], f)
  {
    assert s == s[..n] + s[n..];
    FlatMapAppend(s[..n], s[n..], f);
  }

  lemma FlatMapSnoc<A, B>(s: seq<A>, f: A -> seq<B>, i: nat)
    requires i < |s|
    ensures FlatMap(s[..i + 1], f) == FlatMap(s[..i], f) + f(s[i])
  {
    assert s[..i + 1] == s[..i] + [s[i]];
    FlatMapAppend(s[..i], [s[i]], f);
    assert FlatMap([s[i]], f) == f(s[i]) + FlatMap([s[i]][1..], f);
  }

  /** c(s[0]) + … + c(s[n - 1]). */
  function PrefixSum<A>(s: seq<A>, c: A -> int, n: nat): int
    requires n <= |s|
  {
    if n == 0 then 0 else PrefixSum(s, c, n - 1) + c(s[n - 1])
  }

  lemma {:induction false} PrefixSumPointwise<A>(s: seq<A>, c1: A -> int, c2: A -> int, n: nat)
    requires n <= |s|
    requires forall i :: 0 <= i < |s| ==> c1(s[i]) == c2(s[i])
    ensures PrefixSum(s, c1, n) == PrefixSum(s, c2, n)
  {
    if n > 0 {
      PrefixSumPointwise(s, c1, c2, n - 1);
    }
  }

  lemma {:induction false} FlatMapPrefixSum<A, B>(s: seq<A>, f: A -> seq<B>, c: A -> int, n: nat)
    requires n <= |s|
    requires forall a :: c(a) == |f(a)|
    ensures |FlatMap(s[..n], f)| == PrefixSum(s, c, n)
  {
    if n > 0 {
      FlatMapPrefixSum(s, f, c, n - 1);
      FlatMapSnoc(s, f, n - 1);
    }
  }

  /** The multiset union of f(a) over the elements a of s: FlatMap without its order. */
  function BagSum<A, B>(s: seq<A>, f: A -> seq<B>): multiset<B> {
    if s == [] then multiset{} else multiset(f(s[0])) + BagSum(s[1..], f)
  }

  lemma {:induction false} FlatMapBag<A, B>(s: seq<A>, f: A -> seq<B>)
    ensures multiset(FlatMap(s, f)) == BagSum(s, f)
  {
    if s != [] {
      FlatMapBag(s[1..], f);
    }
  }

  /** Sum of the lengths of f(a) for every a of s. */
  function SumLengths<A, B>(s: seq<A>, f: A -> seq<B>): nat {
    if s == [] then 0 else |f(s[0])| + SumLengths(s[1..], f)
  }

  lemma {:induction false} FlatMapLength<A, B>(s: seq<A>, f: A -> seq<B>)
    ensures |FlatMap(s, f)| == SumLengths(s, f)
  {
    if s != [] {
      FlatMapLength(s[1..], f);
    }
  }

  /** A WHERE clause: the rows that satisfy p, in order. */
  function Filter<T>(s: seq<T>, p: T -> bool): seq<T> {
    if s == [] then [] else (if p(s[0]) then [s[0]] else []) + Filter(s[1..], p)
  }

  lemma {:induction false} FilterMultiset<T>(s: seq<T>, p: T -> bool)
    ensures forall x :: multiset(Filter(s, p))[x] == if p(x) then multiset(s)[x] else 0
  {
    if s != [] {
      FilterMultiset(s[1..], p);
      assert s == [s[0]] + s[1..];
      assert multiset(s) == multiset{s[0]} + multiset(s[1..]);
    }
  }

  lemma {:induction false} FilterSnoc<T>(s: seq<T>, x: T, p: T -> bool)
    ensures Filter(s + [x], p) == Filter(s, p) + (if p(x) then [x] else [])
  {
    var last := if p(x) then [x] else [];
    if s == [] {
      assert s + [x] == [x];
      assert Filter([x], p) == last + Filter([], p);
    } else {
      var t := s + [x];
      var head := if p(s[0]) then [s[0]] else [];
      assert t[0] == s[0] && t[1..] == s[1..] + [x];
      FilterSnoc(s[1..], x, p);
      assert Filter(t, p) == head + (Filter(s[1..], p) + last);
      assert head + (Filter(s[1..], p) + last) == (head + Filter(s[1..], p)) + last;
    }
  }

  lemma MultisetCons<T>(s: seq<T>, v: T)
    requires s != []
    ensures multiset(s)[v] == (if s[0] == v then 1 else 0) + multiset(s[1..])[v]
  {
    assert s == [s[0]] + s[1..];
  }

  lemma FilterMember<T>(s: seq<T>, p: T -> bool, x: T)
    ensures x in Filter(s, p) <==> x in s && p(x)
  {
    FilterMultiset(s, p);
    assert x in Filter(s, p) <==> multiset(Filter(s, p))[x] > 0;
  }

  /**
   * Cartesian product: every way of choosing one element from each of the
   * candidate lists, in order.
   */
  function Product<T>(cands: seq<seq<T>>): seq<seq<T>>
    decreases |cands|
  {
    if cands == [] then [[]]
    else
      var rest := Product(cands[1..]);
      FlatMap(cands[0], (c: T) => MapSeq(rest, (k: seq<T>) => [c] + k))
  }

  /** A choice of one element from each candidate list. */
  ghost predicate IsChoice<T>(k: seq<T>, cands: seq<seq<T>>) {
    |k| == |cands| && forall i :: 0 <= i < |k| ==> k[i] in cands[i]
  }

  lemma ProductMember<T>(cands: seq<seq<T>>, k: seq<T>)
    ensures k in Product(cands) <==> IsChoice(k, cands)
  {
    if k in Product(cands) { ProductSound(cands, k); }
    if IsChoice(k, cands) { ProductComplete(cands, k); }
  }

  /** Every row of the product picks one element from each candidate list. */
  lemma {:induction false} ProductSound<T>(cands: seq<seq<T>>, k: seq<T>)
    requires k in Product(cands)
    ensures IsChoice(k, cands)
    decreases |cands|
  {
    if cands != [] {
      var rest := Product(cands[1..]);
      var f := (c: T) => MapSeq(rest, (k': seq<T>) => [c] + k');
      assert Product(cands) == FlatMap(cands[0], f);
      FlatMapMember(cands[0], f, k);
      var c :| c in cands[0] && k in f(c);
      var i :| 0 <= i < |rest| && k == [c] + rest[i];
      ProductSound(cands[1..], rest[i]);
      assert k[0] == c && k[1..] == rest[i];
    }
  }

  /** Every choice of one element from each candidate list is a row of the product. */
  lemma {:induction false} ProductComplete<T>(cands: seq<seq<T>>, k: seq<T>)
    requires IsChoice(k, cands)
    ensures k in Product(cands)
    decreases |cands|
  {
    if cands != [] {
      var rest := Product(cands[1..]);
      var f := (c: T) => MapSeq(rest, (k': seq<T>) => [c] + k');
      assert Product(cands) == FlatMap(cands[0], f);
      assert IsChoice(k[1..], cands[1..]) by {
        forall i | 0 <= i < |k[1..]| ensures k[1..][i] in cands[1..][i] {
          assert k[1..][i] == k[i + 1];
        }
      }
      ProductComplete(cands[1..], k[1..]);
      var i :| 0 <= i < |rest| && rest[i] == k[1..];
      assert k == [k[0]] + k[1..];
      assert k in f(k[0]);
      FlatMapMember(cands[0], f, k);
    }
  }

  function ProductOfLengths<T>(cands: seq<seq<T>>): nat {
    if cands == [] then 1 else |cands[0]| * ProductOfLengths(cands[1..])
  }

  lemma {:induction false} ProductLength<T>(cands: seq<seq<T>>)
    ensures |Product(cands)| == ProductOfLengths(cands)
    decreases |cands|
  {
    if cands != [] {
      ProductLength(cands[1..]);
      var rest := Product(cands[1..]);
      var f := (c: T) => MapSeq(rest, (k': seq<T>) => [c] + k');
      FlatMapLength(cands[0], f);
      SumLengthsConst(cands[0], f, |rest|);
    }
  }

  lemma {:induction false} ProductOfLengthsPositive<T>(cands: seq<seq<T>>)
    requires forall i :: 0 <= i < |cands| ==> |cands[i]| >= 1
    ensures ProductOfLengths(cands) >= 1
    decreases |cands|
  {
    if cands != [] {
      ProductOfLengthsPositive(cands[1..]);
    }
  }

  lemma {:induction false} ProductOfLengthsOnes<T>(cands: seq<seq<T>>)
    requires forall i :: 0 <= i < |cands| ==> |cands[i]| == 1
    ensures ProductOfLengths(cands) == 1
    decreases |cands|
  {
    if cands != [] {
      ProductOfLengthsOnes(cands[1..]);
    }
  }

  lemma {:induction false} SumLengthsAtLeast<A, B>(s: seq<A>, f: A -> seq<B>)
    requires forall a :: a in s ==> |f(a)| >= 1
    ensures SumLengths(s, f) >= |s|
  {
    if s != [] {
      SumLengthsAtLeast(s[1..], f);
    }
  }

  lemma {:induction false} SumLengthsConst<A, B>(s: seq<A>, f: A -> seq<B>, n: nat)
    requires forall a :: a in s ==> |f(a)| == n
    ensures SumLengths(s, f) == |s| * n
  {
    if s != [] {
      SumLengthsConst(s[1..], f, n);
    }
  }

  /** The 1-based ids of the rows of table that satisfy p, in increasing order. */
  function IdsWhere<T>(table: seq<T>, p: T -> bool): (ids: seq<nat>)
    ensures forall id :: id in ids <==> 1 <= id <= |table| && p(table[id - 1])
    ensures NoDup(ids)
    ensures forall i :: 0 <= i < |ids| ==> 1 <= ids[i] <= |table|
    ensures (forall i :: 0 <= i < |table| ==> !p(table[i])) ==> ids == []
  {
    if table == [] then []
    else
      var n := |table|;
      var ids := IdsWhere(table[..n - 1], p);
      ids + (if p(table[n - 1]) then [n] else [])
  }

  /**
   * LEFT JOIN of one row against table ON p: the id of every matching row,
   * or a single NULL when nothing matches. The row is never dropped.
   */
  function LeftJoin<T>(table: seq<T>, p: T -> bool): (r: seq<Option<nat>>)
    ensures |r| >= 1
    ensures r == [None] <==> forall i :: 0 <= i < |table| ==> !p(table[i])
    ensures None in r ==> r == [None]
    ensures forall id :: Some(id) in r <==> 1 <= id <= |table| && p(table[id - 1])
    ensures NoDup(r)
  {
    var ids := IdsWhere(table, p);
    if ids == [] then
      assert forall i :: 0 <= i < |table| ==> !p(table[i]) by {
        forall i | 0 <= i < |table| ensures !p(table[i]) {
          assert i + 1 !in ids;
        }
      }
      [None]
    else
      var r := MapSeq(ids, (id: nat) => Some(id));
      assert ids[0] in ids;
      assert forall id :: Some(id) in r <==> id in ids by {
        forall id ensures Some(id) in r <==> id in ids {
          if id in ids {
            var i :| 0 <= i < |ids| && ids[i] == id;
            assert r[i] == Some(id);
          }
        }
      }
      r
  }

  /** On a table where exactly one row satisfies p, the left join yields that row's id alone. */
  lemma LeftJoinSingle<T>(table: seq<T>, p: T -> bool, i: nat)
    requires i < |table| && p(table[i])
    requires forall j :: 0 <= j < |table| && j != i ==> !p(table[j])
    ensures LeftJoin(table, p) == [Some(i + 1)]
  {
    IdsWhereSingle(table, p, i);
  }

  lemma {:induction false} IdsWhereSingle<T>(table: seq<T>, p: T -> bool, i: nat)
    requires i < |table| && p(table[i])
    requires forall j :: 0 <= j < |table| && j != i ==> !p(table[j])
    ensures IdsWhere(table, p) == [i + 1]
  {
    var n := |table|;
    var prefix := table[..n - 1];
    if i < n - 1 {
      IdsWhereSingle(prefix, p, i);
    }
  }
}
