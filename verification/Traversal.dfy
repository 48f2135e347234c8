/**
 Hop traversal: `QueryParent` and `QueryChildren` start a new builder at the far end of an edge of
 the old one.  The new builder keeps a reference to the old one and compiles it when it runs, as
 the rows to join with.
 */
module Traversal {
  import opened Wrappers
  import opened Rows
  import opened AccountCodec
  import opened QueryPlans

  datatype Hop = ToParent | ToChildren

  /** What a chain of traversals says. */
  datatype Chain = Table(filters: seq<Account -> bool>) | Via(prev: Chain, edge: Hop, filters: seq<Account -> bool>)

  /** `a` is at the far end of an edge of `b`. */
  predicate Adjacent(edge: Hop, b: Account, a: Account) {
    match edge
    case ToParent => b.numbers.parentAccountID == Some(a.id)
    case ToChildren => a.numbers.parentAccountID == Some(b.id)
  }

  /** Account `a` belongs to the composed relational image. */
  ghost predicate Member(db: Database, chain: Chain, a: Account)
    decreases chain
  {
    && a in db.accounts && Passes(chain.filters, a)
    && (chain.Via? ==> exists b :: b in db.accounts && Member(db, chain.prev, b) && Adjacent(chain.edge, b, a))
  }

  // ------------------------------------------------------------ relations

  /** The key that the join compares on the side of the old builder. */
  function NearKey(edge: Hop, b: Account): Option<int> {
    match edge
    case ToParent => b.numbers.parentAccountID
    case ToChildren => Some(b.id)
  }

  /** The key that the join compares on the side of the new builder. */
  function FarKey(edge: Hop, a: Account): Option<int> {
    match edge
    case ToParent => Some(a.id)
    case ToChildren => a.numbers.parentAccountID
  }

  lemma AdjacentByKeys(edge: Hop, b: Account, a: Account)
    ensures Adjacent(edge, b, a) <==> NearKey(edge, b).Some? && NearKey(edge, b) == FarKey(edge, a)
  {
  }

  /** One copy of the row for every key that matches. */
  function Copies(a: Account, key: Option<int>, keys: seq<Option<int>>): seq<Account> {
    if keys == [] then []
    else
      var init := Copies(a, key, keys[..|keys| - 1]);
      if key.Some? && keys[|keys| - 1] == key then init + [a] else init
  }

  /** `SetNeighbors`: the table joined with the keys; a row comes once for each key it matches. */
  function JoinedWith(rows: seq<Account>, edge: Hop, keys: seq<Option<int>>): seq<Account> {
    if rows == [] then []
    else
      var a := rows[|rows| - 1];
      JoinedWith(rows[..|rows| - 1], edge, keys) + Copies(a, FarKey(edge, a), keys)
  }

  lemma {:induction false} CopiesMember(a: Account, key: Option<int>, keys: seq<Option<int>>, x: Account)
    ensures x in Copies(a, key, keys) <==> x == a && key.Some? && key in keys
  {
    if keys != [] {
      var n := |keys| - 1;
      assert keys == keys[..n] + [keys[n]];
      CopiesMember(a, key, keys[..n], x);
    }
  }

  lemma {:induction false} JoinedMember(rows: seq<Account>, edge: Hop, keys: seq<Option<int>>, x: Account)
    ensures x in JoinedWith(rows, edge, keys) <==> x in rows && FarKey(edge, x).Some? && FarKey(edge, x) in keys
  {
    if rows != [] {
      var n := |rows| - 1;
      assert rows == rows[..n] + [rows[n]];
      JoinedMember(rows[..n], edge, keys, x);
      CopiesMember(rows[n], FarKey(edge, rows[n]), keys, x);
    }
  }

  /** `DISTINCT`: the first of equal rows stays. */
  function Deduped<T(==,!new)>(xs: seq<T>): (r: seq<T>)
    ensures forall i, j | 0 <= i < j < |r| :: r[i] != r[j]
    ensures forall x :: x in r <==> x in xs
  {
    if xs == [] then []
    else
      assert xs == xs[..|xs| - 1] + [xs[|xs| - 1]];
      var init := Deduped(xs[..|xs| - 1]);
      if xs[|xs| - 1] in init then init else init + [xs[|xs| - 1]]
  }

  function NearKeys(edge: Hop, rows: seq<Account>): (r: seq<Option<int>>)
    ensures |r| == |rows| && forall i | 0 <= i < |rows| :: r[i] == NearKey(edge, rows[i])
  {
    seq(|rows|, i requires 0 <= i < |rows| => NearKey(edge, rows[i]))
  }

  /** The rows that are in `rows` are the members of the chain. */
  ghost predicate AreMembers(db: Database, chain: Chain, rows: seq<Account>) {
    forall a :: a in rows <==> Member(db, chain, a)
  }

  /** Joining the near keys of the members and filtering gives the members of the longer chain. */
  lemma JoinedIsImage(db: Database, chain: Chain, near: seq<Account>, keys: seq<Option<int>>)
    requires chain.Via? && AreMembers(db, chain.prev, near)
    requires forall k :: k in keys <==> k in NearKeys(chain.edge, near)
    ensures AreMembers(db, chain, FilterAll(JoinedWith(db.accounts, chain.edge, keys), chain.filters))
  {
    var joined := JoinedWith(db.accounts, chain.edge, keys);
    forall a ensures a in FilterAll(joined, chain.filters) <==> Member(db, chain, a) {
      FilterMember(joined, x => Passes(chain.filters, x), a);
      JoinedMember(db.accounts, chain.edge, keys, a);
      var far := FarKey(chain.edge, a);
      if far.Some? && far in NearKeys(chain.edge, near) {
        var i :| 0 <= i < |near| && NearKeys(chain.edge, near)[i] == far;
        assert near[i] in near;
        AdjacentByKeys(chain.edge, near[i], a);
      }
      if b :| b in db.accounts && Member(db, chain.prev, b) && Adjacent(chain.edge, b, a) {
        AdjacentByKeys(chain.edge, b, a);
        var i :| 0 <= i < |near| && near[i] == b;
        assert NearKeys(chain.edge, near)[i] == far;
      }
    }
  }

  lemma TableIsImage(db: Database, chain: Chain)
    requires chain.Table?
    ensures AreMembers(db, chain, FilterAll(db.accounts, chain.filters))
  {
    forall a ensures a in FilterAll(db.accounts, chain.filters) <==> Member(db, chain, a) {
      FilterMember(db.accounts, x => Passes(chain.filters, x), a);
    }
  }

  /** Deduped rows of a table with unique ids have distinct ids. */
  lemma DistinctIds(db: Database, chain: Chain, rows: seq<Account>)
    requires ValidDatabase(db) && AreMembers(db, chain, rows)
    requires forall i, j | 0 <= i < j < |rows| :: rows[i] != rows[j]
    ensures UniqueBy(rows, AccountId)
  {
    forall i, j | 0 <= i < j < |rows| ensures AccountId(rows[i]) != AccountId(rows[j]) {
      assert rows[i] in rows && rows[j] in rows;
      var k :| 0 <= k < |db.accounts| && db.accounts[k] == rows[i];
      var l :| 0 <= l < |db.accounts| && db.accounts[l] == rows[j];
      if k < l {
        assert AccountId(db.accounts[k]) != AccountId(db.accounts[l]);
      } else {
        assert AccountId(db.accounts[l]) != AccountId(db.accounts[k]);
      }
    }
  }

  lemma IdsOfRows(db: Database, chain: Chain, rows: seq<Account>)
    requires AreMembers(db, chain, rows)
    ensures forall id :: id in RowIds(rows) <==> exists a :: Member(db, chain, a) && a.id == id
  {
    forall id ensures id in RowIds(rows) <==> exists a :: Member(db, chain, a) && a.id == id {
      if id in RowIds(rows) {
        var i :| 0 <= i < |rows| && RowIds(rows)[i] == id;
        assert rows[i] in rows;
      }
      if a :| Member(db, chain, a) && a.id == id {
        var i :| 0 <= i < |rows| && rows[i] == a;
        assert RowIds(rows)[i] == id;
      }
    }
  }

  lemma IdIsValid(fields: seq<Column>)
    ensures AccountFieldsValid(fields + [ID]) <==> AccountFieldsValid(fields)
  {
    assert ALL_COLUMNS[0] == ID;
    forall i | 0 <= i < |fields| ensures (fields + [ID])[i] == fields[i] { }
  }

  // ------------------------------------------------------------ the builder

  datatype TraversalError = InvalidField | TooManyColumns(columns: nat)

  /** The caller has switched off `DISTINCT`. */
  predicate Repeats(unique: Option<bool>) {
    unique.Some? && !unique.value
  }

  class AccountTraversal {
    /** The builder that this one was reached from, and the edge; none for a builder of the table. */
    const prev: AccountTraversal?
    const edge: Hop
    /** This builder and all that it was reached from. */
    ghost const objects: set<AccountTraversal>
    var fields: seq<Column>
    var unique: Option<bool>
    var inters: seq<Account -> bool>
    var predicates: seq<Account -> bool>
    /** The rows to select from, once the path has been compiled. */
    var sql: Option<seq<Account>>

    constructor (inters: seq<Account -> bool>)
      ensures Valid() && objects == {this} && Denote() == Table(inters) && prev == null && Consistent()
      ensures fields == [] && unique == None && predicates == [] && this.inters == inters
    {
      prev, edge, objects := null, ToParent, {this};
      fields, unique, predicates, sql := [], None, [], None;
      this.inters := inters;
    }

    /** A new builder at the far end of an edge; `path` is the reference to the old builder. */
    constructor Through(from: AccountTraversal, edge: Hop, inters: seq<Account -> bool>)
      requires from.Valid() && from.Consistent()
      ensures Valid() && Consistent() && objects == {this} + from.objects && Denote() == Via(from.Denote(), edge, inters) && prev == from && this.edge == edge
      ensures fields == [] && unique == None && predicates == [] && this.inters == inters
    {
      prev, this.edge, objects := from, edge, {this} + from.objects;
      fields, unique, predicates, sql := [], None, [], None;
      this.inters := inters;
    }

    /** A duplicate; the reference to the old builder is copied, so the old builder is shared. */
    constructor CloneOf(q: AccountTraversal)
      requires q.Valid() && q.Consistent()
      ensures Valid() && Consistent() && prev == q.prev && edge == q.edge && Denote() == q.Denote()
      ensures objects == {this} + if q.prev == null then {} else q.prev.objects
      ensures fields == q.fields && unique == q.unique && inters == q.inters && predicates == q.predicates && sql == q.sql
    {
      prev, edge, objects := q.prev, q.edge, {this} + if q.prev == null then {} else q.prev.objects;
      fields, unique, predicates, sql, inters := q.fields, q.unique, q.predicates, q.sql, q.inters;
    }

    /** The references lead to older and older builders. */
    ghost predicate Valid()
      decreases objects
    {
      && this in objects
      && (prev == null ==> objects == {this})
      && (prev != null ==> objects == {this} + prev.objects && this !in prev.objects && prev.Valid())
    }

    ghost function Denote(): Chain
      requires Valid()
      reads objects
      decreases objects
    {
      if prev == null then Table(predicates + inters) else Via(prev.Denote(), edge, predicates + inters)
    }

    /** The rows of the builder's statement before `DISTINCT`: one copy for every row behind the path that leads to it. */
    ghost function Yields(db: Database): seq<Account>
      requires Valid()
      reads objects
      decreases objects, 1
    {
      FilterAll(if prev == null then db.accounts else JoinedWith(db.accounts, edge, prev.Keys(db, edge)), predicates + inters)
    }

    /** The keys of these rows, as the next builder joins them. */
    ghost function Keys(db: Database, edge: Hop): seq<Option<int>>
      requires Valid()
      reads objects
      decreases objects, 2
    {
      var keys := NearKeys(edge, Yields(db));
      if unique == Some(true) then Deduped(keys) else keys
    }

    /** A builder of the table has no path. */
    ghost predicate Consistent()
      requires Valid()
      reads objects
      decreases objects
    {
      if prev == null then sql == None else prev.Consistent()
    }

    /** Every builder of the chain selects known columns only. */
    ghost predicate FieldsValid()
      requires Valid()
      reads objects
      decreases objects
    {
      AccountFieldsValid(fields) && (prev != null ==> prev.FieldsValid())
    }

    method QueryParent(inters: seq<Account -> bool>) returns (q: AccountTraversal)
      requires Valid() && Consistent()
      ensures fresh(q) && q.Valid() && q.Consistent() && q.objects == {q} + objects
      ensures q.Denote() == Via(Denote(), ToParent, inters) && q.unique == None && q.fields == [] && q.prev == this
    {
      q := new AccountTraversal.Through(this, ToParent, inters);
    }

    method QueryChildren(inters: seq<Account -> bool>) returns (q: AccountTraversal)
      requires Valid() && Consistent()
      ensures fresh(q) && q.Valid() && q.Consistent() && q.objects == {q} + objects
      ensures q.Denote() == Via(Denote(), ToChildren, inters) && q.unique == None && q.fields == [] && q.prev == this
    {
      q := new AccountTraversal.Through(this, ToChildren, inters);
    }

    /** The copy says the same; exactly the builders behind the path belong to both. */
    method Clone() returns (c: AccountTraversal)
      requires Valid() && Consistent()
      ensures fresh(c) && c.Valid() && c.Consistent() && c.Denote() == Denote() && c.prev == prev && c.edge == edge
      ensures c.fields == fields && c.unique == unique && c.predicates == predicates && c.inters == inters && c.sql == sql
      ensures c.objects * objects == if prev == null then {} else prev.objects
    {
      c := new AccountTraversal.CloneOf(this);
    }

    /**
     What a clone shares: a filter on the clone leaves what the original says, but a filter on the builder
     behind the path changes what both of them say.
     */
    method CloneAndFilter(onClone: Account -> bool, behind: Account -> bool) returns (c: AccountTraversal)
      requires Valid() && Consistent() && prev != null
      modifies prev`predicates
      ensures fresh(c) && c.Valid() && Valid() && prev.Valid()
      ensures prev.predicates == old(prev.predicates) + [behind]
      ensures Denote() == Via(prev.Denote(), edge, old(predicates) + inters)
      ensures c.Denote() == Via(prev.Denote(), edge, old(predicates) + [onClone] + inters)
    {
      c := Clone();
      c.Where(onClone);
      prev.Where(behind);
    }

    method Where(p: Account -> bool)
      modifies this`predicates
      ensures predicates == old(predicates) + [p]
    {
      predicates := predicates + [p];
    }

    /** The rows that the statement selects from: the joined rows, or the table. */
    function Source(db: Database): seq<Account>
      reads this`sql
    {
      if sql.Some? then sql.value else db.accounts
    }

    /** The builder is ready to run as `chain`: its rows are the members of the chain. */
    ghost predicate Prepared(db: Database, chain: Chain)
      reads this`sql, this`predicates
    {
      AreMembers(db, chain, FilterAll(Source(db), predicates))
    }

    /** `prepareQuery`: the traversers, the field check, and the path of the old builder, compiled now. */
    method PrepareQuery(db: Database) returns (err: Option<TraversalError>)
      requires Valid() && Consistent()
      modifies objects`predicates, objects`sql
      decreases objects, 1
      ensures Consistent() && (err.None? <==> old(FieldsValid()))
      ensures err.None? || err == Some(InvalidField)
      ensures predicates == old(predicates) + inters
      ensures err.None? ==> Prepared(db, old(Denote())) && FilterAll(Source(db), predicates) == old(Yields(db))
    {
      ghost var chain := Denote();
      predicates := predicates + inters;
      var known := FieldsKnown();
      if !known {
        return Some(InvalidField);
      }
      if prev == null {
        TableIsImage(db, chain);
        return None;
      }
      err := CompilePath(db, chain);
    }

    /** The field loop of `prepareQuery`. */
    method FieldsKnown() returns (known: bool)
      ensures known <==> AccountFieldsValid(fields)
    {
      for i := 0 to |fields|
        invariant forall k | 0 <= k < i :: fields[k] in ALL_COLUMNS
      {
        if fields[i] !in ALL_COLUMNS {
          return false;
        }
      }
      return true;
    }

    /** The path: the old builder is prepared, and its keys are joined with the table. */
    method CompilePath(db: Database, ghost chain: Chain) returns (err: Option<TraversalError>)
      requires Valid() && Consistent() && prev != null
      requires chain == Via(prev.Denote(), edge, predicates)
      modifies prev.objects`predicates, prev.objects`sql, this`sql
      decreases objects, 0
      ensures Consistent() && (err.None? <==> old(prev.FieldsValid()))
      ensures err.None? || err == Some(InvalidField)
      ensures predicates == old(predicates)
      ensures err.None? ==> Prepared(db, chain) && sql == Some(JoinedWith(db.accounts, edge, old(prev.Keys(db, edge))))
    {
      hide AreMembers, FieldsValid;
      err := prev.PrepareQuery(db);
      if err.Some? {
        return;
      }
      var keys := prev.SqlKeys(db, edge);
      sql := Some(JoinedWith(db.accounts, edge, keys));
      JoinedIsImage(db, chain, FilterAll(prev.Source(db), prev.predicates), keys);
    }

    /** `sqlQuery` with the join key as its column: the keys of the selected rows. */
    method SqlKeys(db: Database, edge: Hop) returns (keys: seq<Option<int>>)
      ensures forall k :: k in keys <==> k in NearKeys(edge, FilterAll(Source(db), predicates))
      ensures var all := NearKeys(edge, FilterAll(Source(db), predicates)); keys == if unique == Some(true) then Deduped(all) else all
    {
      keys := NearKeys(edge, FilterAll(Source(db), predicates));
      if unique.Some? && unique.value {
        keys := Deduped(keys);
      }
    }

    /** `All`: along a path the rows are made distinct unless the caller has said otherwise. */
    method All(db: Database) returns (err: Option<TraversalError>, rows: seq<Account>)
      requires Valid() && Consistent()
      modifies objects`predicates, objects`sql
      ensures Consistent() && (err.None? <==> old(FieldsValid()))
      ensures err.None? ==> AreMembers(db, old(Denote()), rows)
      ensures err.None? && ValidDatabase(db) && !Repeats(unique) ==> UniqueBy(rows, AccountId)
      ensures err.None? && Repeats(unique) && prev == null ==>
                forall a :: multiset(rows)[a] == if Passes(old(predicates + inters), a) then multiset(db.accounts)[a] else 0
      ensures err.None? && Repeats(unique) && prev != null ==>
                forall a :: multiset(rows)[a] ==
                  if Passes(old(predicates + inters), a) && FarKey(edge, a).Some?
                  then multiset(db.accounts)[a] * multiset(old(prev.Keys(db, edge)))[FarKey(edge, a)] else 0
    {
      rows := [];
      ghost var ps := predicates + inters;
      ghost var keys := if prev == null then [] else prev.Keys(db, edge);
      err := PrepareQuery(db);
      if err.Some? {
        return;
      }
      var distinct := if unique.Some? then unique.value else prev != null;
      rows := FilterAll(Source(db), predicates);
      if distinct {
        rows := Deduped(rows);
      }
      if ValidDatabase(db) && !Repeats(unique) {
        if distinct {
          DistinctIds(db, old(Denote()), rows);
        } else {
          UniqueFilter(db.accounts, AccountId, x => Passes(ps, x));
        }
      }
      if Repeats(unique) {
        FilteredTimes(if prev == null then db.accounts else JoinedWith(db.accounts, edge, keys), ps);
        forall x {
          JoinedTimes(db.accounts, edge, keys, x);
        }
      }
    }

    /** `IDs`: along a path the ids are made distinct unless the caller has said otherwise. */
    method IDs(db: Database) returns (err: Option<TraversalError>, ids: seq<int>)
      requires Valid() && Consistent()
      modifies objects`predicates, objects`sql, this`fields, this`unique
      ensures Consistent()
      ensures fields == old(fields) + [ID] && unique == if old(unique).None? && prev != null then Some(true) else old(unique)
      ensures err.None? <==> old(FieldsValid()) && old(fields) == []
      ensures err.None? ==> forall id :: id in ids <==> exists a :: Member(db, old(Denote()), a) && a.id == id
      ensures err.None? && ValidDatabase(db) && !Repeats(old(unique)) ==> forall i, j | 0 <= i < j < |ids| :: ids[i] != ids[j]
    {
      ids := [];
      ghost var chain := Denote();
      if unique.None? && prev != null {
        unique := Some(true);
      }
      fields := fields + [ID];
      IdIsValid(old(fields));
      err := PrepareQuery(db);
      if err.Some? {
        return;
      }
      if |fields| > 1 {
        return Some(TooManyColumns(|fields|)), ids;
      }
      var rows := FilterAll(Source(db), predicates);
      ids := RowIds(rows);
      IdsOfRows(db, chain, rows);
      if unique.Some? && unique.value {
        ids := Deduped(ids);
      } else if ValidDatabase(db) && !Repeats(old(unique)) {
        assert prev == null && sql == None;
        ghost var ps := predicates;
        UniqueFilter(db.accounts, AccountId, x => Passes(ps, x));
        assert rows == FilterAll(db.accounts, ps) == Filter(db.accounts, x => Passes(ps, x));
        forall i, j | 0 <= i < j < |ids| ensures ids[i] != ids[j] {
          assert AccountId(rows[i]) != AccountId(rows[j]);
        }
      }
    }
  }

  // ------------------------------------------------------------- theorems

  /** `IDs` and `All` agree: the same ids, each once, although one compiles a statement for ids only. */
  lemma IdsAreThoseOfAll(db: Database, chain: Chain, rows: seq<Account>, ids: seq<int>)
    requires AreMembers(db, chain, rows) && UniqueBy(rows, AccountId)
    requires forall id :: id in ids <==> exists a :: Member(db, chain, a) && a.id == id
    requires forall i, j | 0 <= i < j < |ids| :: ids[i] != ids[j]
    ensures multiset(ids) == multiset(RowIds(rows)) && |ids| == |rows|
  {
    var all := RowIds(rows);
    IdsOfRows(db, chain, rows);
    forall i, j | 0 <= i < j < |all| ensures all[i] != all[j] {
      assert AccountId(rows[i]) != AccountId(rows[j]);
    }
    forall id ensures multiset(ids)[id] == multiset(all)[id] {
      OncePerId(ids, id);
      OncePerId(all, id);
    }
    assert multiset(ids) == multiset(all);
    assert |multiset(ids)| == |multiset(all)|;
  }

  lemma {:induction false} OncePerId(ids: seq<int>, id: int)
    requires forall i, j | 0 <= i < j < |ids| :: ids[i] != ids[j]
    ensures multiset(ids)[id] == if id in ids then 1 else 0
  {
    if ids != [] {
      var n := |ids| - 1;
      assert ids == ids[..n] + [ids[n]];
      OncePerId(ids[..n], id);
    }
  }

  /** The parents of the children of a set are exactly its members that have a child. */
  lemma ParentsOfChildren(db: Database, start: Chain, a: Account)
    requires ValidDatabase(db)
    ensures Member(db, Via(Via(start, ToChildren, []), ToParent, []), a)
       <==> Member(db, start, a) && exists c :: c in db.accounts && c.numbers.parentAccountID == Some(a.id)
  {
    var children := Via(start, ToChildren, []);
    if Member(db, Via(children, ToParent, []), a) {
      var c :| c in db.accounts && Member(db, children, c) && Adjacent(ToParent, c, a);
      var b :| b in db.accounts && Member(db, start, b) && Adjacent(ToChildren, b, c);
      SameId(db, a, b);
    }
    if Member(db, start, a) {
      if c :| c in db.accounts && c.numbers.parentAccountID == Some(a.id) {
        assert Adjacent(ToChildren, a, c) && Member(db, children, c) && Adjacent(ToParent, c, a);
      }
    }
  }

  lemma SameId(db: Database, a: Account, b: Account)
    requires ValidDatabase(db) && a in db.accounts && b in db.accounts && a.id == b.id
    ensures a == b
  {
    var k :| 0 <= k < |db.accounts| && db.accounts[k] == a;
    var l :| 0 <= l < |db.accounts| && db.accounts[l] == b;
  }

  lemma {:induction false} CopiesTimes(a: Account, key: Option<int>, keys: seq<Option<int>>, x: Account)
    ensures multiset(Copies(a, key, keys))[x] == if x == a && key.Some? then multiset(keys)[key] else 0
  {
    if keys != [] {
      var n := |keys| - 1;
      assert keys == keys[..n] + [keys[n]];
      CopiesTimes(a, key, keys[..n], x);
    }
  }

  /** A joined row comes as often as the table has it, times the number of keys that lead to it. */
  lemma {:induction false} JoinedTimes(rows: seq<Account>, edge: Hop, keys: seq<Option<int>>, x: Account)
    ensures multiset(JoinedWith(rows, edge, keys))[x] ==
              if FarKey(edge, x).Some? then multiset(rows)[x] * multiset(keys)[FarKey(edge, x)] else 0
  {
    hide FarKey, Copies;
    if rows != [] {
      var n := |rows| - 1;
      var a := rows[n];
      assert rows == rows[..n] + [a];
      JoinedTimes(rows[..n], edge, keys, x);
      CopiesTimes(a, FarKey(edge, a), keys, x);
      OneMore(multiset(rows[..n])[x], if x == a then 1 else 0, multiset(keys)[FarKey(edge, x)]);
    }
  }

  lemma OneMore(m: nat, d: nat, k: nat)
    requires d <= 1
    ensures (m + d) * k == m * k + if d == 1 then k else 0
  {
  }

  lemma {:induction false} FilteredTimes(rows: seq<Account>, ps: seq<Account -> bool>)
    ensures forall x :: multiset(FilterAll(rows, ps))[x] == if Passes(ps, x) then multiset(rows)[x] else 0
  {
    hide Passes;
    if rows != [] {
      var n := |rows| - 1;
      assert rows == rows[..n] + [rows[n]];
      FilteredTimes(rows[..n], ps);
    }
  }

  /** Repeated keys, as an inner builder without `DISTINCT` yields them, do not change the members. */
  lemma RepeatedKeysDoNotMatter(rows: seq<Account>, edge: Hop, keys: seq<Option<int>>, x: Account)
    ensures x in JoinedWith(rows, edge, keys) <==> x in JoinedWith(rows, edge, Deduped(keys))
  {
    JoinedMember(rows, edge, keys, x);
    JoinedMember(rows, edge, Deduped(keys), x);
  }
}
