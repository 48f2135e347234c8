/**
 What a `SELECT` does to a sequence of rows: `WHERE` keeps a subsequence, `ORDER BY` is a stable
 sort, `OFFSET`/`LIMIT` cut out a window.  The eager loaders rely on one law of these: a filter
 can be moved across an ordering, so that filtering one batch per node gives each node the rows
 that its own query would have returned, in the same order.
 */
module Rows {
  import opened Wrappers

  /** The rows that `keep` accepts, in their order. */
  function Filter<T>(xs: seq<T>, keep: T -> bool): (r: seq<T>)
    ensures |r| <= |xs|
  {
    if xs == [] then []
    else
      var rest := Filter(xs[..|xs| - 1], keep);
      var last := xs[|xs| - 1];
      if keep(last) then rest + [last] else rest
  }

  /** Every predicate of a builder accepts the row. */
  predicate Passes<T>(ps: seq<T -> bool>, x: T) {
    forall i | 0 <= i < |ps| :: ps[i](x)
  }

  /** The rows left by all predicates of a builder. */
  function FilterAll<T>(xs: seq<T>, ps: seq<T -> bool>): seq<T> {
    Filter(xs, x => Passes(ps, x))
  }

  lemma {:induction false} FilterMember<T>(xs: seq<T>, keep: T -> bool, x: T)
    ensures x in Filter(xs, keep) <==> x in xs && keep(x)
  {
    if xs != [] {
      var init, last := xs[..|xs| - 1], xs[|xs| - 1];
      assert xs == init + [last];
      FilterMember(init, keep, x);
    }
  }

  /** The rows that one filter keeps and those that it drops are all rows. */
  lemma {:induction false} FilterPartition<T>(xs: seq<T>, keep: T -> bool, drop: T -> bool)
    requires forall x | x in xs :: keep(x) != drop(x)
    ensures multiset(Filter(xs, keep) + Filter(xs, drop)) == multiset(xs)
  {
    if xs != [] {
      var init, last := xs[..|xs| - 1], xs[|xs| - 1];
      assert xs == init + [last];
      FilterPartition(init, keep, drop);
    }
  }

  /** Two filters that agree on the rows at hand leave the same rows. */
  lemma {:induction false} FilterCongruence<T>(xs: seq<T>, f: T -> bool, g: T -> bool)
    requires forall x | x in xs :: f(x) == g(x)
    ensures Filter(xs, f) == Filter(xs, g)
  {
    if xs != [] {
      FilterCongruence(xs[..|xs| - 1], f, g);
    }
  }

  /** Filtering twice is filtering by the conjunction. */
  lemma {:induction false} FilterFilter<T>(xs: seq<T>, f: T -> bool, g: T -> bool, both: T -> bool)
    requires forall x | x in xs :: both(x) == (f(x) && g(x))
    ensures Filter(Filter(xs, f), g) == Filter(xs, both)
  {
    if xs != [] {
      FilterFilter(xs[..|xs| - 1], f, g, both);
    }
  }

  /** Appending a predicate to a builder filters what it selected before. */
  lemma FilterAllAppend<T>(xs: seq<T>, ps: seq<T -> bool>, p: T -> bool)
    ensures FilterAll(xs, ps + [p]) == Filter(FilterAll(xs, ps), p)
  {
    forall x | x in xs
      ensures Passes(ps + [p], x) == (Passes(ps, x) && p(x))
    {
      if Passes(ps + [p], x) {
        assert (ps + [p])[|ps|](x);
        forall i | 0 <= i < |ps| ensures ps[i](x) {
          assert (ps + [p])[i](x);
        }
      }
    }
    FilterFilter(xs, x => Passes(ps, x), p, x => Passes(ps + [p], x));
  }

  // ---------------------------------------------------------------- ORDER BY

  /** Inserts `x` behind every row whose key is not larger. */
  function Insert<T>(xs: seq<T>, x: T, key: T -> int): seq<T> {
    if xs == [] || key(xs[|xs| - 1]) <= key(x) then xs + [x]
    else Insert(xs[..|xs| - 1], x, key) + [xs[|xs| - 1]]
  }

  /** Ascending stable sort by one key. */
  function SortBy<T>(xs: seq<T>, key: T -> int): seq<T> {
    if xs == [] then [] else Insert(SortBy(xs[..|xs| - 1], key), xs[|xs| - 1], key)
  }

  /** `ORDER BY keys[0], keys[1], …`; ties are left in table order. */
  function OrderBy<T>(xs: seq<T>, keys: seq<T -> int>): seq<T> {
    if keys == [] then xs else SortBy(OrderBy(xs, keys[1..]), keys[0])
  }

  ghost predicate Sorted<T>(xs: seq<T>, key: T -> int) {
    forall i, j | 0 <= i < j < |xs| :: key(xs[i]) <= key(xs[j])
  }

  lemma {:induction false} InsertPermutes<T>(xs: seq<T>, x: T, key: T -> int)
    ensures multiset(Insert(xs, x, key)) == multiset(xs) + multiset{x}
  {
    if xs == [] || key(xs[|xs| - 1]) <= key(x) {
    } else {
      assert xs == xs[..|xs| - 1] + [xs[|xs| - 1]];
      InsertPermutes(xs[..|xs| - 1], x, key);
    }
  }

  lemma {:induction false} InsertSorted<T>(xs: seq<T>, x: T, key: T -> int)
    requires Sorted(xs, key)
    ensures Sorted(Insert(xs, x, key), key)
    ensures forall y | y in Insert(xs, x, key) :: y == x || y in xs
  {
    if xs == [] || key(xs[|xs| - 1]) <= key(x) {
    } else {
      var init, last := xs[..|xs| - 1], xs[|xs| - 1];
      InsertSorted(init, x, key);
      var r := Insert(init, x, key);
      forall i | 0 <= i < |r| ensures key(r[i]) <= key(last) {
        assert r[i] in r;
      }
    }
  }

  /** Sorting yields an ordered permutation. */
  lemma {:induction false} SortByProperties<T>(xs: seq<T>, key: T -> int)
    ensures Sorted(SortBy(xs, key), key)
    ensures multiset(SortBy(xs, key)) == multiset(xs)
  {
    if xs != [] {
      var init, last := xs[..|xs| - 1], xs[|xs| - 1];
      assert xs == init + [last];
      SortByProperties(init, key);
      InsertPermutes(SortBy(init, key), last, key);
      InsertSorted(SortBy(init, key), last, key);
    }
  }

  lemma FilterSnoc<T>(xs: seq<T>, x: T, keep: T -> bool)
    ensures Filter(xs + [x], keep) == if keep(x) then Filter(xs, keep) + [x] else Filter(xs, keep)
  {
    assert (xs + [x])[..|xs + [x]| - 1] == xs;
  }

  lemma InsertSnoc<T>(xs: seq<T>, last: T, x: T, key: T -> int)
    ensures Insert(xs + [last], x, key)
         == if key(last) <= key(x) then xs + [last] + [x] else Insert(xs, x, key) + [last]
  {
    assert (xs + [last])[..|xs + [last]| - 1] == xs;
  }

  lemma {:induction false} FilterInsert<T>(xs: seq<T>, x: T, key: T -> int, keep: T -> bool)
    requires Sorted(xs, key)
    ensures Filter(Insert(xs, x, key), keep)
         == if keep(x) then Insert(Filter(xs, keep), x, key) else Filter(xs, keep)
  {
    if xs == [] {
      FilterSnoc([], x, keep);
    } else {
      var init, last := xs[..|xs| - 1], xs[|xs| - 1];
      assert xs == init + [last];
      if key(last) <= key(x) {
        FilterInsertLast(init, last, x, key, keep);
      } else {
        FilterInsert(init, x, key, keep);
        FilterInsertBefore(init, last, x, key, keep);
      }
    }
  }

  /** The inserted row goes behind the last one. */
  lemma FilterInsertLast<T>(init: seq<T>, last: T, x: T, key: T -> int, keep: T -> bool)
    requires Sorted(init + [last], key) && key(last) <= key(x)
    ensures Filter(Insert(init + [last], x, key), keep)
         == if keep(x) then Insert(Filter(init + [last], keep), x, key) else Filter(init + [last], keep)
  {
    var xs := init + [last];
    var kept := Filter(xs, keep);
    if kept != [] {
      var y := kept[|kept| - 1];
      FilterMember(xs, keep, y);
      var i :| 0 <= i < |xs| && xs[i] == y;
      assert key(y) <= key(last) by {
        assert xs[|xs| - 1] == last;
      }
    }
    assert Insert(kept, x, key) == kept + [x];
    hide Filter, Insert, Sorted;
    FilterSnoc(xs, x, keep);
    InsertSnoc(init, last, x, key);
  }

  /** The inserted row goes before the last one. */
  lemma FilterInsertBefore<T>(init: seq<T>, last: T, x: T, key: T -> int, keep: T -> bool)
    requires key(last) > key(x)
    requires Filter(Insert(init, x, key), keep) == if keep(x) then Insert(Filter(init, keep), x, key) else Filter(init, keep)
    ensures Filter(Insert(init + [last], x, key), keep)
         == if keep(x) then Insert(Filter(init + [last], keep), x, key) else Filter(init + [last], keep)
  {
    hide Filter, Insert;
    InsertSnoc(init, last, x, key);
    FilterSnoc(init, last, keep);
    FilterSnoc(Insert(init, x, key), last, keep);
    InsertSnoc(Filter(init, keep), last, x, key);
  }

  lemma {:induction false} FilterSortBy<T>(xs: seq<T>, key: T -> int, keep: T -> bool)
    ensures Filter(SortBy(xs, key), keep) == SortBy(Filter(xs, keep), key)
  {
    if xs != [] {
      var init, last := xs[..|xs| - 1], xs[|xs| - 1];
      FilterSortBy(init, key, keep);
      SortByProperties(init, key);
      FilterInsert(SortBy(init, key), last, key, keep);
      if keep(last) {
        var kept := Filter(init, keep);
        assert (kept + [last])[..|kept + [last]| - 1] == kept;
      }
    }
  }

  /** A filter can be moved across `ORDER BY`. */
  lemma {:induction false} FilterOrderBy<T>(xs: seq<T>, keys: seq<T -> int>, keep: T -> bool)
    ensures Filter(OrderBy(xs, keys), keep) == OrderBy(Filter(xs, keep), keys)
  {
    if keys != [] {
      FilterOrderBy(xs, keys[1..], keep);
      FilterSortBy(OrderBy(xs, keys[1..]), keys[0], keep);
    }
  }

  lemma {:induction false} OrderByPermutes<T>(xs: seq<T>, keys: seq<T -> int>)
    ensures multiset(OrderBy(xs, keys)) == multiset(xs)
    ensures |OrderBy(xs, keys)| == |xs|
  {
    if keys != [] {
      OrderByPermutes(xs, keys[1..]);
      SortByProperties(OrderBy(xs, keys[1..]), keys[0]);
    }
    assert |multiset(OrderBy(xs, keys))| == |multiset(xs)|;
  }

  // ----------------------------------------------------- LIMIT and OFFSET

  /** The default limit of a query that has an offset only (`math.MaxInt32`). */
  const MAX_INT32 := 2147483647

  function AtMost<T>(xs: seq<T>, n: nat): seq<T> {
    if |xs| <= n then xs else xs[..n]
  }

  /** The rows behind the offset. */
  function Skip<T>(xs: seq<T>, offset: Option<nat>): seq<T> {
    if offset.None? || offset.value == 0 then xs
    else if |xs| <= offset.value then [] else xs[offset.value..]
  }

  /** `OFFSET` first, then `LIMIT`; a limit or offset of zero is no clause at all. */
  function Window<T>(xs: seq<T>, offset: Option<nat>, limit: Option<nat>): seq<T> {
    if limit.Some? && limit.value != 0 then AtMost(Skip(xs, offset), limit.value)
    else if offset.Some? && offset.value != 0 then AtMost(Skip(xs, offset), MAX_INT32)
    else xs
  }

  // --------------------------------------------------------------- DISTINCT

  predicate ShownIn<T, K(==)>(xs: seq<T>, shown: T -> K, k: K) {
    exists i | 0 <= i < |xs| :: shown(xs[i]) == k
  }

  /** `DISTINCT`: the first of all rows that show the same. */
  function MergeEqual<T, K(==)>(xs: seq<T>, shown: T -> K): seq<T> {
    if xs == [] then []
    else
      var rest := MergeEqual(xs[..|xs| - 1], shown);
      var last := xs[|xs| - 1];
      if ShownIn(rest, shown, shown(last)) then rest else rest + [last]
  }

  lemma ShownInMore<T, K>(xs: seq<T>, shown: T -> K, x: T)
    ensures forall k :: ShownIn(xs + [x], shown, k) <==> ShownIn(xs, shown, k) || shown(x) == k
  {
    forall k ensures ShownIn(xs + [x], shown, k) <==> ShownIn(xs, shown, k) || shown(x) == k {
      if i :| 0 <= i < |xs| && shown(xs[i]) == k {
        assert (xs + [x])[i] == xs[i];
      } else {
        assert (xs + [x])[|xs|] == x;
      }
    }
  }

  /** What some row shows is shown, and once. */
  lemma {:induction false} MergeKeepsOne<T, K>(xs: seq<T>, shown: T -> K)
    ensures UniqueBy(MergeEqual(xs, shown), shown)
    ensures forall k :: ShownIn(MergeEqual(xs, shown), shown, k) <==> ShownIn(xs, shown, k)
  {
    if xs != [] {
      var init, last := xs[..|xs| - 1], xs[|xs| - 1];
      assert xs == init + [last];
      MergeKeepsOne(init, shown);
      var rest := MergeEqual(init, shown);
      ShownInMore(init, shown, last);
      ShownInMore(rest, shown, last);
      if !ShownIn(rest, shown, shown(last)) {
        UniqueMore(rest, shown, last);
      }
      hide ShownIn, UniqueBy;
    }
  }

  lemma UniqueMore<T, K>(xs: seq<T>, shown: T -> K, x: T)
    requires UniqueBy(xs, shown) && !ShownIn(xs, shown, shown(x))
    ensures UniqueBy(xs + [x], shown)
  {
  }

  /** Rows that all show something else are left as they are. */
  lemma {:induction false} MergeNothing<T, K>(xs: seq<T>, shown: T -> K)
    requires UniqueBy(xs, shown)
    ensures MergeEqual(xs, shown) == xs
  {
    if xs != [] {
      MergeNothing(xs[..|xs| - 1], shown);
      assert xs == xs[..|xs| - 1] + [xs[|xs| - 1]];
    }
  }

  // ------------------------------------------------------- keys and positions

  /** Positions of the rows whose key is `k`, ascending. */
  function Positions(keys: seq<Option<int>>, k: int): (r: seq<nat>)
    ensures forall i | 0 <= i < |r| :: r[i] < |keys| && keys[r[i]] == Some(k)
    ensures forall i, j | 0 <= i < j < |r| :: r[i] < r[j]
  {
    if keys == [] then []
    else
      var n := |keys| - 1;
      var init := Positions(keys[..n], k);
      if keys[n] == Some(k) then init + [n] else init
  }

  lemma {:induction false} PositionsComplete(keys: seq<Option<int>>, k: int, i: nat)
    requires i < |keys| && keys[i] == Some(k)
    ensures i in Positions(keys, k)
  {
    var n := |keys| - 1;
    if i != n {
      PositionsComplete(keys[..n], k, i);
    }
  }

  /** The elements at the given positions. */
  function Pick<T>(xs: seq<T>, at: seq<nat>): (r: seq<T>)
    requires forall i | 0 <= i < |at| :: at[i] < |xs|
    ensures |r| == |at|
    ensures forall i | 0 <= i < |at| :: r[i] == xs[at[i]]
  {
    seq(|at|, i requires 0 <= i < |at| => xs[at[i]])
  }

  function Keys<T>(xs: seq<T>, key: T -> Option<int>): (r: seq<Option<int>>)
    ensures |r| == |xs|
    ensures forall i | 0 <= i < |xs| :: r[i] == key(xs[i])
  {
    seq(|xs|, i requires 0 <= i < |xs| => key(xs[i]))
  }

  /** Filtering by a key is picking the positions that carry it. */
  lemma {:induction false} FilterIsPick<T>(xs: seq<T>, key: T -> Option<int>, k: int, keep: T -> bool)
    requires forall x | x in xs :: keep(x) == (key(x) == Some(k))
    ensures Filter(xs, keep) == Pick(xs, Positions(Keys(xs, key), k))
  {
    if xs != [] {
      var init := xs[..|xs| - 1];
      FilterIsPick(init, key, k, keep);
      assert Keys(xs, key)[..|xs| - 1] == Keys(init, key);
    }
  }

  /** The distinct keys in order of first appearance: the `ids` slice of a many-to-one loader. */
  function DistinctKeys(keys: seq<Option<int>>): (r: seq<int>)
    ensures forall i, j | 0 <= i < j < |r| :: r[i] != r[j]
    ensures forall k :: k in r <==> Some(k) in keys
  {
    if keys == [] then []
    else
      var n := |keys| - 1;
      assert keys == keys[..n] + [keys[n]];
      var init := DistinctKeys(keys[..n]);
      if keys[n].None? || keys[n].value in init then init else init + [keys[n].value]
  }

  /** `xs` has no two rows with the same key. */
  ghost predicate UniqueBy<T, K>(xs: seq<T>, id: T -> K) {
    forall i, j | 0 <= i < j < |xs| :: id(xs[i]) != id(xs[j])
  }

  /** A permutation of rows with unique keys has unique keys. */
  lemma UniquePermutes<T, K>(xs: seq<T>, ys: seq<T>, id: T -> K)
    requires UniqueBy(xs, id) && multiset(xs) == multiset(ys)
    ensures UniqueBy(ys, id)
  {
    forall i, j | 0 <= i < j < |ys| ensures id(ys[i]) != id(ys[j]) {
      assert ys == ys[..i] + [ys[i]] + ys[i + 1..j] + [ys[j]] + ys[j + 1..];
      assert ys[i] in multiset(xs) && ys[j] in multiset(xs);
      if ys[i] == ys[j] {
        assert multiset(xs)[ys[i]] >= 2;
        UniqueCountsOne(xs, id, ys[i]);
      }
    }
  }

  lemma {:induction false} UniqueCountsOne<T, K>(xs: seq<T>, id: T -> K, x: T)
    requires UniqueBy(xs, id)
    ensures multiset(xs)[x] <= 1
  {
    if xs != [] {
      var init, last := xs[..|xs| - 1], xs[|xs| - 1];
      assert xs == init + [last];
      UniqueCountsOne(init, id, x);
      if last == x {
        assert x !in init;
        assert x !in multiset(init);
      }
    }
  }

  lemma {:induction false} UniqueFilter<T, K>(xs: seq<T>, id: T -> K, keep: T -> bool)
    requires UniqueBy(xs, id)
    ensures UniqueBy(Filter(xs, keep), id)
  {
    if xs != [] {
      var init, last := xs[..|xs| - 1], xs[|xs| - 1];
      UniqueFilter(init, id, keep);
      var kept := Filter(init, keep);
      forall i | 0 <= i < |kept| ensures id(kept[i]) != id(last) {
        assert kept[i] in kept;
        FilterMember(init, keep, kept[i]);
      }
    }
  }

  /** A key that is unique occurs at one position at most. */
  lemma {:induction false} UniquePositions<T>(xs: seq<T>, id: T -> int, key: T -> Option<int>, k: int)
    requires UniqueBy(xs, id)
    requires forall x | x in xs :: key(x) == Some(id(x))
    ensures |Positions(Keys(xs, key), k)| <= 1
  {
    if xs != [] {
      var init, last := xs[..|xs| - 1], xs[|xs| - 1];
      UniquePositions(init, id, key, k);
      assert Keys(xs, key)[..|xs| - 1] == Keys(init, key);
      var at := Positions(Keys(init, key), k);
      if at != [] {
        assert id(init[at[0]]) == k && id(last) != k;
      }
    }
  }

  /** The last of the first `j` positions that carries the key `fk`: what a many-to-one edge ends as. */
  function LastWith(ids: seq<Option<int>>, fk: Option<int>, j: nat): (r: Option<nat>)
    requires j <= |ids|
    ensures r.Some? ==> r.value < j && fk.Some? && ids[r.value] == fk
  {
    if j == 0 then None else if fk.Some? && ids[j - 1] == fk then Some(j - 1) else LastWith(ids, fk, j - 1)
  }

  lemma {:induction false} LastWithIsLast(ids: seq<Option<int>>, fk: Option<int>, j: nat)
    requires j <= |ids|
    ensures var r := LastWith(ids, fk, j);
            if r.Some? then forall k | r.value < k < j :: ids[k] != fk else fk.None? || forall k | 0 <= k < j :: ids[k] != fk
  {
    if j > 0 {
      LastWithIsLast(ids, fk, j - 1);
    }
  }

  lemma NoPosition(fks: seq<Option<int>>, k: int)
    requires Some(k) !in fks
    ensures Positions(fks, k) == []
  {
  }
}
