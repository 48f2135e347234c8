/**
 A run leaves its sub-builders narrower than it found them: each has one more `IN` filter, and a
 foreign key may have joined its selected fields.  This module says when the narrowed plan still
 answers a set of rows as before, so that the builder can be run again.  It does for every plan
 whose edges follow foreign keys; a many-to-many edge keeps its join clause and is excluded.
 */
module RepeatedRuns {
  import opened Wrappers
  import opened Rows
  import opened AccountCodec
  import opened QueryPlans

  /** No builder of the plan loads the many-to-many edge. */
  predicate ForeignKeysOnly(p: AccountPlan) {
    && p.groups.None? && KeysOnlyOption(p.parent) && KeysOnlyOption(p.children)
    && KeysOnlyJoin(p.accountGroups)
  }

  predicate KeysOnlyOption(p: Option<AccountPlan>) {
    p.Some? ==> ForeignKeysOnly(p.value)
  }

  predicate KeysOnlyJoin(p: Option<AccountGroupPlan>) {
    p.Some? ==> KeysOnlyOption(p.value.account)
  }

  /** Both plans build the same tree for each of the rows. */
  ghost predicate SameTreesFor(db: Database, p: AccountPlan, q: AccountPlan, rows: seq<Account>) {
    forall fields, i | 0 <= i < |rows| :: JoinAccount(db, q, fields, rows[i]) == JoinAccount(db, p, fields, rows[i])
  }

  /** Plan `q`, left behind by a run of `p`, can be run again and answers `rows` like `p`. */
  ghost predicate Reruns(db: Database, p: AccountPlan, q: AccountPlan, rows: seq<Account>) {
    ForeignKeysOnly(p) ==>
      && ForeignKeysOnly(q) && EdgesLoadable(q) && (PlanFieldsValid(p) ==> PlanFieldsValid(q))
      && q.ctx == p.ctx && SelectedAccounts(db, q) == SelectedAccounts(db, p)
      && SameTreesFor(db, p, q, rows)
  }

  ghost predicate SameJoinTreesFor(db: Database, p: AccountGroupPlan, q: AccountGroupPlan, rows: seq<AccountGroup>) {
    forall fields, i | 0 <= i < |rows| :: JoinAccountGroup(db, q, fields, rows[i]) == JoinAccountGroup(db, p, fields, rows[i])
  }

  ghost predicate JoinReruns(db: Database, p: AccountGroupPlan, q: AccountGroupPlan, rows: seq<AccountGroup>) {
    KeysOnlyOption(p.account) ==>
      && KeysOnlyOption(q.account) && JoinEdgesLoadable(q) && (JoinPlanFieldsValid(p) ==> JoinPlanFieldsValid(q))
      && q.ctx == p.ctx && q.account.Some? == p.account.Some? && q.group.Some? == p.group.Some?
      && SelectedJoins(db, q) == SelectedJoins(db, p)
      && SameJoinTreesFor(db, p, q, rows)
  }

  // ------------------------------------------------------- one edge, re-run

  /** The sub-plan `q` answers each key like `p`. */
  ghost predicate SameByKey(db: Database, p: AccountPlan, q: AccountPlan, fks: seq<Option<int>>) {
    ForeignKeysOnly(p) ==>
      && ForeignKeysOnly(q) && EdgesLoadable(q) && (PlanFieldsValid(p) ==> PlanFieldsValid(q))
      && (Unwindowed(p.ctx) ==> Unwindowed(q.ctx))
      && forall i | 0 <= i < |fks| :: JoinByKey(db, q, fks[i]) == JoinByKey(db, p, fks[i])
  }

  ghost predicate SameChildren(db: Database, p: AccountPlan, q: AccountPlan, ids: seq<int>) {
    ForeignKeysOnly(p) ==>
      && ForeignKeysOnly(q) && EdgesLoadable(q) && (PlanFieldsValid(p) ==> PlanFieldsValid(q))
      && (Unwindowed(p.ctx) ==> Unwindowed(q.ctx))
      && forall i | 0 <= i < |ids| :: JoinChildren(db, q, ids[i]) == JoinChildren(db, p, ids[i])
  }

  ghost predicate SameJoins(db: Database, p: AccountGroupPlan, q: AccountGroupPlan, ids: seq<int>) {
    KeysOnlyOption(p.account) ==>
      && KeysOnlyOption(q.account) && JoinEdgesLoadable(q) && (JoinPlanFieldsValid(p) ==> JoinPlanFieldsValid(q))
      && (Whole(p) ==> Whole(q))
      && forall i | 0 <= i < |ids| :: JoinJoins(db, q, ids[i]) == JoinJoins(db, p, ids[i])
  }

  /** A leaf builder keeps its window and its join clauses, and valid fields stay valid. */
  predicate LeafKept(p: LeafPlan, q: LeafPlan) {
    && q.joins == p.joins && (Unwindowed(p.ctx) ==> Unwindowed(q.ctx))
    && (LeafFieldsValid(p) ==> LeafFieldsValid(q))
  }

  ghost predicate SameLeaves(db: Database, p: LeafPlan, q: LeafPlan, fks: seq<Option<int>>) {
    LeafKept(p, q) && forall i | 0 <= i < |fks| :: JoinLeaf(db, q, fks[i]) == JoinLeaf(db, p, fks[i])
  }

  ghost predicate SameLogs(db: Database, p: LeafPlan, q: LeafPlan, ids: seq<int>) {
    LeafKept(p, q) && forall i | 0 <= i < |ids| :: JoinLogs(db, q, ids[i]) == JoinLogs(db, p, ids[i])
  }

  // The same for an edge that may not be requested.

  ghost predicate ParentReruns(db: Database, p: Option<AccountPlan>, q: Option<AccountPlan>, fks: seq<Option<int>>) {
    p.Some? == q.Some? && (p.Some? ==> SameByKey(db, p.value, q.value, fks))
  }

  ghost predicate ChildrenRerun(db: Database, p: Option<AccountPlan>, q: Option<AccountPlan>, ids: seq<int>) {
    p.Some? == q.Some? && (p.Some? ==> SameChildren(db, p.value, q.value, ids))
  }

  ghost predicate JoinsRerun(db: Database, p: Option<AccountGroupPlan>, q: Option<AccountGroupPlan>, ids: seq<int>) {
    p.Some? == q.Some? && (p.Some? ==> SameJoins(db, p.value, q.value, ids))
  }

  ghost predicate LeafReruns(db: Database, p: Option<LeafPlan>, q: Option<LeafPlan>, fks: seq<Option<int>>) {
    p.Some? == q.Some? && (p.Some? ==> SameLeaves(db, p.value, q.value, fks))
  }

  ghost predicate LogsRerun(db: Database, p: Option<LeafPlan>, q: Option<LeafPlan>, ids: seq<int>) {
    p.Some? == q.Some? && (p.Some? ==> SameLogs(db, p.value, q.value, ids))
  }

  // --------------------------------------------------- narrowing by a batch

  /** Filtering the batch by one of its keys is filtering the whole selection. */
  lemma KeyInBatch<T(!new)>(rows: seq<T>, filters: seq<T -> bool>, order: seq<T -> int>, inBatch: T -> bool, isK: T -> bool)
    requires forall x :: isK(x) ==> inBatch(x)
    ensures Filter(Selected(rows, filters + [inBatch], order), isK) == Filter(Selected(rows, filters, order), isK)
  {
    BatchIsFilter(rows, filters, order, inBatch);
    FilterFilter(Selected(rows, filters, order), inBatch, isK, isK);
  }

  /** `q` is `p` narrowed to the ids, and `r` is what a run of `q` leaves. */
  lemma ByKeyReruns(db: Database, p: AccountPlan, q: AccountPlan, r: AccountPlan, ids: seq<int>, fks: seq<Option<int>>)
    requires q == p.(filters := q.filters) && SelectedAccounts(db, q) == Selected(db.accounts, p.filters + [IdIn(ids)], p.order)
    requires Reruns(db, q, r, SelectedAccounts(db, q))
    requires forall i | 0 <= i < |fks| && fks[i].Some? :: fks[i].value in ids
    ensures SameByKey(db, p, r, fks)
  {
    if ForeignKeysOnly(p) {
      forall i | 0 <= i < |fks| ensures JoinByKey(db, r, fks[i]) == JoinByKey(db, p, fks[i]) {
        if fks[i].Some? {
          var k: int := fks[i].value;
          KeyInBatch(db.accounts, p.filters, p.order, IdIn(ids), IdIs(k));
          var hits := Filter(SelectedAccounts(db, q), IdIs(k));
          if hits != [] {
            SameTreeForMember(db, p, q, r, p.ctx.fields, hits[0], IdIs(k));
          }
        }
      }
    }
  }

  /** A row that a filter leaves is one of the rows, so both plans build one tree for it. */
  lemma SameTreeForMember(db: Database, p: AccountPlan, q: AccountPlan, r: AccountPlan, fields: seq<Column>,
                          row: Account, keep: Account -> bool)
    requires q == p.(ctx := q.ctx, filters := q.filters)
    requires SameTreesFor(db, q, r, SelectedAccounts(db, q)) && row in Filter(SelectedAccounts(db, q), keep)
    ensures JoinAccount(db, r, fields, row) == JoinAccount(db, p, fields, row)
  {
    var rows := SelectedAccounts(db, q);
    FilterMember(rows, keep, row);
    var i :| 0 <= i < |rows| && rows[i] == row;
    assert JoinAccount(db, r, fields, rows[i]) == JoinAccount(db, q, fields, rows[i]);
    JoinIgnoresFilters(db, p, q, fields, row);
  }

  lemma ChildrenRerunBatch(db: Database, p: AccountPlan, q: AccountPlan, r: AccountPlan, ids: seq<int>)
    requires q == p.(ctx := q.ctx, filters := q.filters) && SelectedAccounts(db, q) == Selected(db.accounts, p.filters + [ParentIn(ids)], p.order)
    requires q.ctx == p.ctx.(fields := WithForeignKey(p.ctx.fields, ParentAccountID))
    requires PlanFieldsValid(p) ==> PlanFieldsValid(q)
    requires Reruns(db, q, r, SelectedAccounts(db, q))
    ensures SameChildren(db, p, r, ids)
  {
    if ForeignKeysOnly(p) {
      forall i | 0 <= i < |ids| ensures JoinChildren(db, r, ids[i]) == JoinChildren(db, p, ids[i]) {
        KeyInBatch(db.accounts, p.filters, p.order, ParentIn(ids), ParentIs(ids[i]));
        var rows := ChildRows(db, p, ids[i]);
        assert ChildRows(db, r, ids[i]) == rows;
        forall k | 0 <= k < |rows|
          ensures JoinChildren(db, r, ids[i])[k] == JoinChildren(db, p, ids[i])[k]
        {
          SameTreeForMember(db, p, q, r, WithForeignKey(p.ctx.fields, ParentAccountID), rows[k], ParentIs(ids[i]));
        }
      }
    }
  }

  lemma SameJoinTreeForMember(db: Database, p: AccountGroupPlan, q: AccountGroupPlan, r: AccountGroupPlan,
                              fields: seq<JoinColumn>, row: AccountGroup, keep: AccountGroup -> bool)
    requires q == p.(ctx := q.ctx, filters := q.filters)
    requires SameJoinTreesFor(db, q, r, SelectedJoins(db, q)) && row in Filter(SelectedJoins(db, q), keep)
    ensures JoinAccountGroup(db, r, fields, row) == JoinAccountGroup(db, p, fields, row)
  {
    var rows := SelectedJoins(db, q);
    FilterMember(rows, keep, row);
    var i :| 0 <= i < |rows| && rows[i] == row;
    assert JoinAccountGroup(db, r, fields, rows[i]) == JoinAccountGroup(db, q, fields, rows[i]);
    JoinGroupIgnoresFilters(db, p, q, fields, row);
  }

  lemma JoinsRerunBatch(db: Database, p: AccountGroupPlan, q: AccountGroupPlan, r: AccountGroupPlan, ids: seq<int>)
    requires q == p.(ctx := q.ctx, filters := q.filters) && SelectedJoins(db, q) == Selected(db.accountGroups, p.filters + [JoinAccountIn(ids)], p.order)
    requires q.ctx == p.ctx.(fields := WithForeignKey(p.ctx.fields, AccountID))
    requires JoinPlanFieldsValid(p) ==> JoinPlanFieldsValid(q)
    requires JoinReruns(db, q, r, SelectedJoins(db, q))
    ensures SameJoins(db, p, r, ids)
  {
    if KeysOnlyOption(p.account) {
      if Whole(p) {
        StaysWhole(p, q);
      }
      forall i | 0 <= i < |ids| ensures JoinJoins(db, r, ids[i]) == JoinJoins(db, p, ids[i]) {
        KeyInBatch(db.accountGroups, p.filters, p.order, JoinAccountIn(ids), JoinAccountIs(ids[i]));
        var rows := JoinRowsOf(db, p, ids[i]);
        assert JoinRowsOf(db, r, ids[i]) == rows;
        forall k | 0 <= k < |rows|
          ensures JoinJoins(db, r, ids[i])[k] == JoinJoins(db, p, ids[i])[k]
        {
          SameJoinTreeForMember(db, p, q, r, WithForeignKey(p.ctx.fields, AccountID), rows[k], JoinAccountIs(ids[i]));
        }
      }
    }
  }

  /** `q` is the leaf plan `p` narrowed to the ids. */
  lemma LeavesRerun(db: Database, p: LeafPlan, q: LeafPlan, ids: seq<int>, fks: seq<Option<int>>)
    requires q == p.(filters := q.filters)
    requires SelectedLeaves(db, q) == Selected(LeafRows(db, p.table), p.filters + [LeafIdIn(ids)], p.order)
    requires forall i | 0 <= i < |fks| && fks[i].Some? :: fks[i].value in ids
    ensures SameLeaves(db, p, q, fks)
  {
    forall i | 0 <= i < |fks| ensures JoinLeaf(db, q, fks[i]) == JoinLeaf(db, p, fks[i]) {
      if fks[i].Some? {
        var k: int := fks[i].value;
        KeyInBatch(LeafRows(db, p.table), p.filters, p.order, LeafIdIn(ids), LeafIdIs(k));
      }
    }
  }

  lemma LogsRerunBatch(db: Database, p: LeafPlan, q: LeafPlan, ids: seq<int>)
    requires q == p.(ctx := p.ctx.(fields := WithForeignKey(p.ctx.fields, "account_id")), filters := q.filters)
    requires SelectedLeaves(db, q) == Selected(LeafRows(db, p.table), p.filters + [OwnerIn(ids)], p.order)
    requires "account_id" in p.columns
    ensures SameLogs(db, p, q, ids)
  {
    forall i | 0 <= i < |ids| ensures JoinLogs(db, q, ids[i]) == JoinLogs(db, p, ids[i]) {
      KeyInBatch(LeafRows(db, p.table), p.filters, p.order, OwnerIn(ids), OwnerIs(ids[i]));
    }
  }

  // ---------------------------------------------------- all edges of a plan

  /** Every edge that follows a foreign key can be loaded again. */
  lemma EdgesStayLoadable(db: Database, p: AccountPlan, q: AccountPlan, rows: seq<Account>)
    requires ForeignKeysOnly(p) && EdgesLoadable(p) && q.ctx == p.ctx && q.groups.None?
    requires LeafReruns(db, p.proxy, q.proxy, Keys(rows, ProxyKey))
    requires ParentReruns(db, p.parent, q.parent, Keys(rows, ParentKey))
    requires ChildrenRerun(db, p.children, q.children, RowIds(rows))
    requires LogsRerun(db, p.usageLogs, q.usageLogs, RowIds(rows))
    requires JoinsRerun(db, p.accountGroups, q.accountGroups, RowIds(rows))
    ensures ForeignKeysOnly(q) && EdgesLoadable(q) && (PlanFieldsValid(p) ==> PlanFieldsValid(q))
  {
    hide JoinByKey, JoinChildren, JoinJoins, JoinLeaf, JoinLogs;
    assert KeysOnlyOption(p.parent) && KeysOnlyOption(p.children) && KeysOnlyJoin(p.accountGroups);
    assert KeysOnlyOption(q.parent) && KeysOnlyOption(q.children) && KeysOnlyJoin(q.accountGroups);
    assert AccountLoadable(q.parent) && AccountLoadable(q.children) && JoinLoadable(q.accountGroups);
    if PlanFieldsValid(p) {
      assert AccountOptionValid(p.parent) && AccountOptionValid(p.children) && JoinOptionValid(p.accountGroups);
      assert AccountOptionValid(q.parent) && AccountOptionValid(q.children) && JoinOptionValid(q.accountGroups);
    }
  }

  /** Edge by edge the same answers: the whole plan can be run again. */
  lemma EdgesRerun(db: Database, p: AccountPlan, q: AccountPlan, rows: seq<Account>)
    requires EdgesLoadable(p) && q.ctx == p.ctx && SelectedAccounts(db, q) == SelectedAccounts(db, p)
    requires p.groups.None? ==> q.groups.None?
    requires LeafReruns(db, p.proxy, q.proxy, Keys(rows, ProxyKey))
    requires ParentReruns(db, p.parent, q.parent, Keys(rows, ParentKey))
    requires ChildrenRerun(db, p.children, q.children, RowIds(rows))
    requires LogsRerun(db, p.usageLogs, q.usageLogs, RowIds(rows))
    requires JoinsRerun(db, p.accountGroups, q.accountGroups, RowIds(rows))
    ensures Reruns(db, p, q, rows)
  {
    if ForeignKeysOnly(p) {
      EdgesStayLoadable(db, p, q, rows);
      forall fields, i | 0 <= i < |rows|
        ensures JoinAccount(db, q, fields, rows[i]) == JoinAccount(db, p, fields, rows[i])
      {
        SameTree(db, p, q, fields, rows, i);
      }
    }
  }

  lemma SameTree(db: Database, p: AccountPlan, q: AccountPlan, fields: seq<Column>, rows: seq<Account>, i: nat)
    requires ForeignKeysOnly(p) && q.groups.None? && i < |rows|
    requires LeafReruns(db, p.proxy, q.proxy, Keys(rows, ProxyKey))
    requires ParentReruns(db, p.parent, q.parent, Keys(rows, ParentKey))
    requires ChildrenRerun(db, p.children, q.children, RowIds(rows))
    requires LogsRerun(db, p.usageLogs, q.usageLogs, RowIds(rows))
    requires JoinsRerun(db, p.accountGroups, q.accountGroups, RowIds(rows))
    ensures JoinAccount(db, q, fields, rows[i]) == JoinAccount(db, p, fields, rows[i])
  {
    hide EdgesLoadable, JoinEdgesLoadable, PlanFieldsValid, JoinPlanFieldsValid, LeafKept;
    assert KeysOnlyOption(p.parent) && KeysOnlyOption(p.children) && KeysOnlyJoin(p.accountGroups);
    assert Keys(rows, ProxyKey)[i] == rows[i].numbers.proxyID && Keys(rows, ParentKey)[i] == rows[i].numbers.parentAccountID;
    assert RowIds(rows)[i] == rows[i].id;
  }

  lemma JoinEdgesRerun(db: Database, p: AccountGroupPlan, q: AccountGroupPlan, rows: seq<AccountGroup>)
    requires JoinEdgesLoadable(p) && q.ctx == p.ctx && SelectedJoins(db, q) == SelectedJoins(db, p)
    requires ParentReruns(db, p.account, q.account, Keys(rows, JoinKey))
    requires LeafReruns(db, p.group, q.group, Keys(rows, JoinedGroupKey))
    ensures JoinReruns(db, p, q, rows)
  {
    if KeysOnlyOption(p.account) {
      forall fields, i | 0 <= i < |rows|
        ensures JoinAccountGroup(db, q, fields, rows[i]) == JoinAccountGroup(db, p, fields, rows[i])
      {
        assert Keys(rows, JoinKey)[i] == Some(rows[i].accountID) && Keys(rows, JoinedGroupKey)[i] == Some(rows[i].groupID);
      }
      assert AccountLoadable(q.account) && JoinEdgesLoadable(q);
      if JoinPlanFieldsValid(p) && p.account.Some? {
        assert AccountOptionValid(p.account) && PlanFieldsValid(p.account.value);
      }
    }
  }

  /** Running once more after a run is again a run of the first plan. */
  lemma RerunsCompose(db: Database, p: AccountPlan, q: AccountPlan, r: AccountPlan, rows: seq<Account>)
    requires Reruns(db, p, q, rows) && Reruns(db, q, r, rows)
    ensures Reruns(db, p, r, rows)
  {
  }

  /** A plan that is left as it was. */
  lemma RerunsSelf(db: Database, p: AccountPlan, rows: seq<Account>)
    requires EdgesLoadable(p)
    ensures Reruns(db, p, p, rows)
  {
  }

  /** The traversers' predicates, added once more by every run, change nothing. */
  lemma RerunsFrom(db: Database, p: AccountPlan, q: AccountPlan, r: AccountPlan, rows: seq<Account>)
    requires q == p.(filters := q.filters) && SelectedAccounts(db, q) == SelectedAccounts(db, p)
    requires Reruns(db, q, r, rows)
    ensures Reruns(db, p, r, rows)
  {
    if ForeignKeysOnly(p) {
      forall fields, i | 0 <= i < |rows|
        ensures JoinAccount(db, r, fields, rows[i]) == JoinAccount(db, p, fields, rows[i])
      {
        JoinIgnoresFilters(db, p, q, fields, rows[i]);
      }
    }
  }

  lemma JoinRerunsSelf(db: Database, p: AccountGroupPlan, rows: seq<AccountGroup>)
    requires JoinEdgesLoadable(p)
    ensures JoinReruns(db, p, p, rows)
  {
  }

  lemma JoinRerunsFrom(db: Database, p: AccountGroupPlan, q: AccountGroupPlan, r: AccountGroupPlan, rows: seq<AccountGroup>)
    requires q == p.(filters := q.filters) && SelectedJoins(db, q) == SelectedJoins(db, p)
    requires JoinReruns(db, q, r, rows)
    ensures JoinReruns(db, p, r, rows)
  {
    if KeysOnlyOption(p.account) {
      forall fields, i | 0 <= i < |rows|
        ensures JoinAccountGroup(db, r, fields, rows[i]) == JoinAccountGroup(db, p, fields, rows[i])
      {
        JoinGroupIgnoresFilters(db, p, q, fields, rows[i]);
      }
    }
  }
}
