/**
 What the answer to a query is, without saying how it is computed: which rows of the table it has, in
 which order, and which part of them is left by offset and limit.  `SelectedAnswers` shows that the
 functions of `Rows` compute such answers, and `OneAnswer` that there is only one.
 */
module Answers {
  import opened Wrappers
  import opened Rows
  import opened QueryPlans

  /**
   The row at position `i` of the table comes before the row at position `j`: at the first term of the
   order that tells them apart it has the smaller value; if no term does, it comes first in the table.
   */
  ghost predicate Precedes<T(!new)>(table: seq<T>, order: seq<T -> int>, i: nat, j: nat)
    requires i < |table| && j < |table|
  {
    exists m | 0 <= m <= |order| :: TiesUpTo(table, order, i, j, m) && if m == |order| then i < j else order[m](table[i]) < order[m](table[j])
  }

  ghost predicate TiesUpTo<T(!new)>(table: seq<T>, order: seq<T -> int>, i: nat, j: nat, m: nat)
    requires i < |table| && j < |table| && m <= |order|
  {
    forall l | 0 <= l < m :: order[l](table[i]) == order[l](table[j])
  }

  /** The positions `at` are those that `wanted` accepts, in order. */
  ghost predicate Listed<T(!new)>(table: seq<T>, wanted: T -> bool, order: seq<T -> int>, at: seq<nat>) {
    && (forall k | 0 <= k < |at| :: at[k] < |table| && wanted(table[at[k]]))
    && (forall i: nat | i < |table| && wanted(table[i]) :: i in at)
    && forall k, l | 0 <= k < l < |at| :: Precedes(table, order, at[k], at[l])
  }

  /** The wanted rows of the table, each once, in order. */
  ghost predicate InOrder<T(!new)>(table: seq<T>, wanted: T -> bool, order: seq<T -> int>, rows: seq<T>) {
    exists at: seq<nat> :: Listed(table, wanted, order, at) && |rows| == |at| && forall k | 0 <= k < |at| :: rows[k] == table[at[k]]
  }

  /** Every predicate accepts the row. */
  ghost predicate Accepted<T(!new)>(filters: seq<T -> bool>, row: T) {
    forall f | 0 <= f < |filters| :: filters[f](row)
  }

  ghost function AcceptedBy<T(!new)>(filters: seq<T -> bool>): T -> bool {
    x => Accepted(filters, x)
  }

  /** `rows` is the part of `all` behind the first `offset` rows, and of that the first `limit` rows. */
  ghost predicate Cut<T>(all: seq<T>, offset: Option<nat>, limit: Option<nat>, rows: seq<T>) {
    var from := if offset.None? then 0 else offset.value;
    var rest := if from <= |all| then |all| - from else 0;
    var most := if limit.Some? && limit.value > 0 then limit.value else if from > 0 then 0x7FFF_FFFF else rest;
    && |rows| == (if rest <= most then rest else most)
    && forall k | 0 <= k < |rows| :: rows[k] == all[from + k]
  }

  /** The answer to a query with these predicates, order, offset and limit. */
  ghost predicate Answer<T(!new)>(table: seq<T>, filters: seq<T -> bool>, order: seq<T -> int>, offset: Option<nat>, limit: Option<nat>, rows: seq<T>) {
    exists all: seq<T> :: InOrder(table, AcceptedBy(filters), order, all) && Cut(all, offset, limit, rows)
  }

  // --------------------------------------------------- rows and positions

  /** A predicate and a term of an order, on positions. */
  function At<T>(table: seq<T>, wanted: T -> bool): nat -> bool {
    (i: nat) => i < |table| && wanted(table[i])
  }

  function KeyAt<T>(table: seq<T>, key: T -> int): nat -> int {
    (i: nat) => if i < |table| then key(table[i]) else 0
  }

  function KeysAt<T>(table: seq<T>, order: seq<T -> int>): (r: seq<nat -> int>)
    ensures |r| == |order| && forall l | 0 <= l < |r| :: r[l] == KeyAt(table, order[l])
  {
    seq(|order|, l requires 0 <= l < |order| => KeyAt(table, order[l]))
  }

  function Upto(n: nat): (r: seq<nat>)
    ensures |r| == n && forall i | 0 <= i < n :: r[i] == i
  {
    seq(n, i => i)
  }

  predicate Positioned<T>(table: seq<T>, at: seq<nat>) {
    forall k | 0 <= k < |at| :: at[k] < |table|
  }

  lemma {:induction false} FilterPicked<T>(table: seq<T>, at: seq<nat>, keep: T -> bool)
    requires Positioned(table, at)
    ensures Positioned(table, Filter(at, At(table, keep)))
    ensures Filter(Pick(table, at), keep) == Pick(table, Filter(at, At(table, keep)))
  {
    if at != [] {
      var init := at[..|at| - 1];
      FilterPicked(table, init, keep);
      assert Pick(table, at)[..|at| - 1] == Pick(table, init);
    }
  }

  lemma {:induction false} InsertPicked<T>(table: seq<T>, at: seq<nat>, i: nat, key: T -> int)
    requires Positioned(table, at) && i < |table|
    ensures Positioned(table, Insert(at, i, KeyAt(table, key)))
    ensures Insert(Pick(table, at), table[i], key) == Pick(table, Insert(at, i, KeyAt(table, key)))
  {
    if at != [] {
      var init := at[..|at| - 1];
      InsertPicked(table, init, i, key);
      assert Pick(table, at)[..|at| - 1] == Pick(table, init);
    }
  }

  lemma {:induction false} SortByPicked<T>(table: seq<T>, at: seq<nat>, key: T -> int)
    requires Positioned(table, at)
    ensures Positioned(table, SortBy(at, KeyAt(table, key)))
    ensures SortBy(Pick(table, at), key) == Pick(table, SortBy(at, KeyAt(table, key)))
  {
    if at != [] {
      var init := at[..|at| - 1];
      SortByPicked(table, init, key);
      assert Pick(table, at)[..|at| - 1] == Pick(table, init);
      InsertPicked(table, SortBy(init, KeyAt(table, key)), at[|at| - 1], key);
    }
  }

  lemma {:induction false} OrderByPicked<T>(table: seq<T>, at: seq<nat>, order: seq<T -> int>)
    requires Positioned(table, at)
    ensures Positioned(table, OrderBy(at, KeysAt(table, order)))
    ensures OrderBy(Pick(table, at), order) == Pick(table, OrderBy(at, KeysAt(table, order)))
  {
    if order != [] {
      OrderByPicked(table, at, order[1..]);
      assert KeysAt(table, order)[1..] == KeysAt(table, order[1..]);
      SortByPicked(table, OrderBy(at, KeysAt(table, order[1..])), order[0]);
    }
  }

  // ------------------------------------------------------ stable sorting

  /** Each element is related to every later one. */
  ghost predicate Chain(at: seq<nat>, before: (nat, nat) -> bool) {
    forall k, l | 0 <= k < l < |at| :: before(at[k], at[l])
  }

  /** First by the key, then by the relation. */
  ghost function Refined(key: nat -> int, before: (nat, nat) -> bool): (nat, nat) -> bool {
    (a: nat, b: nat) => key(a) < key(b) || (key(a) == key(b) && before(a, b))
  }

  lemma {:induction false} InsertChain(at: seq<nat>, i: nat, key: nat -> int, before: (nat, nat) -> bool)
    requires Chain(at, Refined(key, before)) && forall a | a in at :: before(a, i)
    ensures Chain(Insert(at, i, key), Refined(key, before))
  {
    if at == [] || key(at[|at| - 1]) <= key(i) {
      forall k | 0 <= k < |at| ensures key(at[k]) <= key(i) && before(at[k], i) {
        assert k < |at| - 1 ==> Refined(key, before)(at[k], at[|at| - 1]);
      }
    } else {
      var init, last := at[..|at| - 1], at[|at| - 1];
      InsertChain(init, i, key, before);
      InsertMembers(init, i, key);
      var r := Insert(init, i, key);
      forall k | 0 <= k < |r| ensures Refined(key, before)(r[k], last) {
        assert r[k] in r;
        if r[k] != i {
          var j :| 0 <= j < |init| && init[j] == r[k];
          assert Refined(key, before)(at[j], at[|at| - 1]);
        }
      }
    }
  }

  lemma InsertMembers(at: seq<nat>, i: nat, key: nat -> int)
    ensures forall a :: a in Insert(at, i, key) <==> a in at || a == i
  {
    InsertPermutes(at, i, key);
    forall a ensures a in Insert(at, i, key) <==> a in at || a == i {
      assert a in Insert(at, i, key) <==> a in multiset(Insert(at, i, key));
    }
  }

  lemma {:induction false} SortByChain(at: seq<nat>, key: nat -> int, before: (nat, nat) -> bool)
    requires Chain(at, before)
    ensures Chain(SortBy(at, key), Refined(key, before))
    ensures forall a :: a in SortBy(at, key) <==> a in at
  {
    if at != [] {
      var init, last := at[..|at| - 1], at[|at| - 1];
      SortByChain(init, key, before);
      forall a | a in SortBy(init, key) ensures before(a, last) {
        var k :| 0 <= k < |init| && init[k] == a;
        assert before(at[k], at[|at| - 1]);
      }
      InsertChain(SortBy(init, key), last, key, before);
      InsertMembers(SortBy(init, key), last, key);
      assert at == init + [last];
    }
  }

  /** By the first key that tells the positions apart, and by the positions themselves if none does. */
  ghost predicate KeysPrecede(keys: seq<nat -> int>, a: nat, b: nat) {
    if keys == [] then a < b
    else keys[0](a) < keys[0](b) || (keys[0](a) == keys[0](b) && KeysPrecede(keys[1..], a, b))
  }

  ghost function Before(keys: seq<nat -> int>): (nat, nat) -> bool {
    (a: nat, b: nat) => KeysPrecede(keys, a, b)
  }

  lemma {:induction false} OrderByChain(at: seq<nat>, keys: seq<nat -> int>)
    requires Chain(at, Before([]))
    ensures Chain(OrderBy(at, keys), Before(keys))
    ensures forall a :: a in OrderBy(at, keys) <==> a in at
  {
    if keys != [] {
      OrderByChain(at, keys[1..]);
      var r := OrderBy(at, keys[1..]);
      SortByChain(r, keys[0], Before(keys[1..]));
      var sorted := SortBy(r, keys[0]);
      forall k, l | 0 <= k < l < |sorted| ensures Before(keys)(sorted[k], sorted[l]) {
        assert Refined(keys[0], Before(keys[1..]))(sorted[k], sorted[l]);
      }
    }
  }

  lemma {:induction false} KeysPrecedeIsPrecedes<T(!new)>(table: seq<T>, order: seq<T -> int>, i: nat, j: nat)
    requires i < |table| && j < |table|
    ensures KeysPrecede(KeysAt(table, order), i, j) <==> Precedes(table, order, i, j)
  {
    if order == [] {
      assert TiesUpTo(table, order, i, j, 0);
    } else {
      var rest := order[1..];
      KeysPrecedeIsPrecedes(table, rest, i, j);
      assert KeysAt(table, order)[1..] == KeysAt(table, rest);
      if order[0](table[i]) < order[0](table[j]) {
        assert TiesUpTo(table, order, i, j, 0);
      }
      if order[0](table[i]) == order[0](table[j]) && Precedes(table, rest, i, j) {
        var m :| 0 <= m <= |rest| && TiesUpTo(table, rest, i, j, m) && if m == |rest| then i < j else rest[m](table[i]) < rest[m](table[j]);
        var n := m + 1;
        forall l | 0 <= l < n ensures order[l](table[i]) == order[l](table[j]) {
          assert l > 0 ==> order[l] == rest[l - 1];
        }
        assert TiesUpTo(table, order, i, j, n);
      }
      if Precedes(table, order, i, j) {
        var m :| 0 <= m <= |order| && TiesUpTo(table, order, i, j, m) && if m == |order| then i < j else order[m](table[i]) < order[m](table[j]);
        if m > 0 {
          assert order[0](table[i]) == order[0](table[j]);
          var n := m - 1;
          forall l | 0 <= l < n ensures rest[l](table[i]) == rest[l](table[j]) {
            assert rest[l] == order[l + 1];
          }
          assert TiesUpTo(table, rest, i, j, n);
        }
      }
    }
  }

  /** The rows that a filter and an order select are the wanted rows in order. */
  lemma FilterOrderInOrder<T(!new)>(table: seq<T>, wanted: T -> bool, order: seq<T -> int>)
    ensures InOrder(table, wanted, order, OrderBy(Filter(table, wanted), order))
  {
    var all := Upto(|table|);
    assert Pick(table, all) == table;
    FilterPicked(table, all, wanted);
    var kept := Filter(all, At(table, wanted));
    OrderByPicked(table, kept, order);
    var at := OrderBy(kept, KeysAt(table, order));
    FilterAscends(all, At(table, wanted));
    OrderByChain(kept, KeysAt(table, order));
    forall a: nat ensures a in at <==> a < |table| && wanted(table[a]) {
      FilterMember(all, At(table, wanted), a);
      assert a < |table| ==> all[a] == a;
    }
    forall k | 0 <= k < |at| ensures at[k] < |table| && wanted(table[at[k]]) {
      assert at[k] in at;
    }
    forall k, l | 0 <= k < l < |at| ensures Precedes(table, order, at[k], at[l]) {
      assert Before(KeysAt(table, order))(at[k], at[l]);
      KeysPrecedeIsPrecedes(table, order, at[k], at[l]);
    }
    assert Listed(table, wanted, order, at);
  }

  lemma {:induction false} FilterAscends(at: seq<nat>, keep: nat -> bool)
    requires Chain(at, Before([]))
    ensures Chain(Filter(at, keep), Before([]))
  {
    if at != [] {
      var init, last := at[..|at| - 1], at[|at| - 1];
      FilterAscends(init, keep);
      var kept := Filter(init, keep);
      forall k | 0 <= k < |kept| ensures Before([])(kept[k], last) {
        assert kept[k] in kept;
        FilterMember(init, keep, kept[k]);
        var j :| 0 <= j < |init| && init[j] == kept[k];
        assert Before([])(at[j], at[|at| - 1]);
      }
    }
  }

  lemma WindowCuts<T>(all: seq<T>, offset: Option<nat>, limit: Option<nat>)
    ensures Cut(all, offset, limit, Window(all, offset, limit))
  {
  }

  lemma SelectedInOrder<T(!new)>(table: seq<T>, filters: seq<T -> bool>, order: seq<T -> int>)
    ensures InOrder(table, AcceptedBy(filters), order, Selected(table, filters, order))
  {
    hide InOrder;
    FilterOrderInOrder(table, AcceptedBy(filters), order);
    FilterCongruence(table, AcceptedBy(filters), x => Passes(filters, x));
  }

  /** The rows of a query are its answer. */
  lemma SelectedAnswers<T(!new)>(table: seq<T>, filters: seq<T -> bool>, order: seq<T -> int>, offset: Option<nat>, limit: Option<nat>)
    ensures Answer(table, filters, order, offset, limit, Window(Selected(table, filters, order), offset, limit))
  {
    hide InOrder, Cut, Window, Selected;
    SelectedInOrder(table, filters, order);
    WindowCuts(Selected(table, filters, order), offset, limit);
  }

  // ------------------------------------------------------------ one answer

  lemma PrecedesOnce<T(!new)>(table: seq<T>, order: seq<T -> int>, i: nat, j: nat)
    requires i < |table| && j < |table| && Precedes(table, order, i, j)
    ensures i != j && !Precedes(table, order, j, i)
  {
    var m :| 0 <= m <= |order| && TiesUpTo(table, order, i, j, m) && if m == |order| then i < j else order[m](table[i]) < order[m](table[j]);
    if Precedes(table, order, j, i) {
      var n :| 0 <= n <= |order| && TiesUpTo(table, order, j, i, n) && if n == |order| then j < i else order[n](table[j]) < order[n](table[i]);
      assert false;
    }
  }

  lemma NoMembers(at: seq<nat>)
    ensures (forall a :: a !in at) ==> at == []
  {
    if at != [] {
      assert at[0] in at;
    }
  }

  /** The same positions in order are the same list. */
  lemma {:induction false} OneListing<T(!new)>(table: seq<T>, order: seq<T -> int>, at: seq<nat>, bt: seq<nat>)
    requires Positioned(table, at) && Positioned(table, bt) && forall a :: a in at <==> a in bt
    requires forall k, l | 0 <= k < l < |at| :: Precedes(table, order, at[k], at[l])
    requires forall k, l | 0 <= k < l < |bt| :: Precedes(table, order, bt[k], bt[l])
    ensures at == bt
  {
    hide Precedes;
    if at == [] {
      NoMembers(bt);
    } else {
      assert at[0] in bt;
      assert bt[0] in at;
      if at[0] != bt[0] {
        PrecedesOnce(table, order, at[0], bt[0]);
        assert false;
      }
      forall a ensures a in at[1..] <==> a in bt[1..] {
        TailMembers(table, order, at, a);
        TailMembers(table, order, bt, a);
      }
      OneListing(table, order, at[1..], bt[1..]);
    }
  }

  lemma TailMembers<T(!new)>(table: seq<T>, order: seq<T -> int>, at: seq<nat>, a: nat)
    requires at != [] && Positioned(table, at) && forall k, l | 0 <= k < l < |at| :: Precedes(table, order, at[k], at[l])
    ensures a in at[1..] <==> a in at && a != at[0]
  {
    hide Precedes;
    assert at == [at[0]] + at[1..];
    if a in at[1..] {
      var k :| 0 <= k < |at| - 1 && at[1..][k] == a;
      var l := k + 1;
      assert Precedes(table, order, at[0], at[l]);
      PrecedesOnce(table, order, at[0], at[l]);
    }
  }

  lemma OneOrder<T(!new)>(table: seq<T>, wanted: T -> bool, order: seq<T -> int>, rows: seq<T>, others: seq<T>)
    requires InOrder(table, wanted, order, rows) && InOrder(table, wanted, order, others)
    ensures rows == others
  {
    hide Precedes;
    var at: seq<nat> :| Listed(table, wanted, order, at) && |rows| == |at| && forall k | 0 <= k < |at| :: rows[k] == table[at[k]];
    var bt: seq<nat> :| Listed(table, wanted, order, bt) && |others| == |bt| && forall k | 0 <= k < |bt| :: others[k] == table[bt[k]];
    SameListed(table, wanted, order, at, bt);
    SameListed(table, wanted, order, bt, at);
    OneListing(table, order, at, bt);
  }

  lemma SameListed<T(!new)>(table: seq<T>, wanted: T -> bool, order: seq<T -> int>, at: seq<nat>, bt: seq<nat>)
    requires Listed(table, wanted, order, at) && Listed(table, wanted, order, bt)
    ensures forall a :: a in at ==> a in bt
  {
    hide Precedes;
    forall a | a in at ensures a in bt {
      var k :| 0 <= k < |at| && at[k] == a;
      assert wanted(table[at[k]]);
    }
  }

  /** A query has one answer. */
  lemma OneAnswer<T(!new)>(table: seq<T>, filters: seq<T -> bool>, order: seq<T -> int>, offset: Option<nat>, limit: Option<nat>,
                           rows: seq<T>, others: seq<T>)
    requires Answer(table, filters, order, offset, limit, rows) && Answer(table, filters, order, offset, limit, others)
    ensures rows == others
  {
    hide InOrder;
    var wanted := AcceptedBy(filters);
    var r :| InOrder(table, wanted, order, r) && Cut(r, offset, limit, rows);
    var s :| InOrder(table, wanted, order, s) && Cut(s, offset, limit, others);
    OneOrder(table, wanted, order, r, s);
  }
}
