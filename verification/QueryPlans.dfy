/**
 The meaning of an eager-loading query, without builders, batches or pointers.

 A *plan* is what a query builder says: which fields, order and filters, and a sub-plan for every
 edge to load.  `JoinAccount` answers a plan for one row the naive way, with one look-up per row
 and edge; the result is a tree of values.  The batched loaders are proved to build this tree.
 */
module QueryPlans {
  import opened Wrappers
  import opened Rows
  import opened AccountCodec

  // ------------------------------------------------------------------ tables

  /** A row of `groups`, `proxies` or `usage_logs`; `accountID` is the foreign key of a usage log. */
  datatype LeafRow = LeafRow(id: int, accountID: int, cells: map<string, string>)

  datatype JoinColumn = AccountID | GroupID | JoinPriority | JoinCreatedAt | OtherJoinColumn(column: string)

  /** A row of `account_groups`, keyed by account and group. */
  datatype AccountGroup = AccountGroup(accountID: int, groupID: int, priority: int, createdAt: Time)

  const ALL_JOIN_COLUMNS: seq<JoinColumn> := [AccountID, GroupID, JoinPriority, JoinCreatedAt]

  datatype Database = Database(
    accounts: seq<Account>, accountGroups: seq<AccountGroup>,
    groups: seq<LeafRow>, proxies: seq<LeafRow>, usageLogs: seq<LeafRow>)

  datatype LeafTable = Groups | Proxies | UsageLogs

  function LeafRows(db: Database, table: LeafTable): seq<LeafRow> {
    match table
    case Groups => db.groups
    case Proxies => db.proxies
    case UsageLogs => db.usageLogs
  }

  function AccountId(r: Account): int { r.id }
  function LeafId(r: LeafRow): int { r.id }
  function JoinPair(r: AccountGroup): (int, int) { (r.accountID, r.groupID) }

  /** Primary keys are unique. */
  ghost predicate ValidDatabase(db: Database) {
    && UniqueBy(db.accounts, AccountId) && UniqueBy(db.accountGroups, JoinPair)
    && forall t: LeafTable :: UniqueBy(LeafRows(db, t), LeafId)
  }

  // ------------------------------------------------------------------- plans

  datatype Context<C> = Context(fields: seq<C>, limit: Option<nat>, offset: Option<nat>, unique: Option<bool>)

  datatype LeafPlan = LeafPlan(
    table: LeafTable, columns: seq<string>, ctx: Context<string>,
    order: seq<LeafRow -> int>, filters: seq<LeafRow -> bool>, joins: seq<seq<int>>)

  datatype AccountPlan = AccountPlan(
    ctx: Context<Column>, order: seq<Account -> int>, filters: seq<Account -> bool>,
    groups: Option<LeafPlan>, proxy: Option<LeafPlan>,
    parent: Option<AccountPlan>, children: Option<AccountPlan>,
    usageLogs: Option<LeafPlan>, accountGroups: Option<AccountGroupPlan>)

  datatype AccountGroupPlan = AccountGroupPlan(
    ctx: Context<JoinColumn>, order: seq<AccountGroup -> int>, filters: seq<AccountGroup -> bool>,
    account: Option<AccountPlan>, group: Option<LeafPlan>)

  predicate Unwindowed<C>(c: Context<C>) {
    c.limit.None? && c.offset.None?
  }

  predicate LeafLoadable(p: Option<LeafPlan>) {
    p.Some? ==> Unwindowed(p.value.ctx) && p.value.joins == []
  }

  /**
   Builders below the root that mean the same for a batch as for one node: no limit or offset,
   which would cut the batch and not each node's list, and no join clause left by an earlier run.
   */
  predicate EdgesLoadable(p: AccountPlan) {
    && LeafLoadable(p.groups) && LeafLoadable(p.proxy) && LeafLoadable(p.usageLogs)
    && AccountLoadable(p.parent) && AccountLoadable(p.children) && JoinLoadable(p.accountGroups)
  }

  predicate AccountLoadable(p: Option<AccountPlan>) {
    p.Some? ==> Unwindowed(p.value.ctx) && EdgesLoadable(p.value)
  }

  predicate JoinLoadable(p: Option<AccountGroupPlan>) {
    p.Some? ==> Whole(p.value) && JoinEdgesLoadable(p.value)
  }

  /** The query drops and merges no rows: besides, `DISTINCT` is asked for only on a selection with the key. */
  predicate Whole(p: AccountGroupPlan) {
    Unwindowed(p.ctx) && (p.ctx.unique == Some(true) ==> SelectsKey(p))
  }

  predicate JoinEdgesLoadable(p: AccountGroupPlan) {
    AccountLoadable(p.account) && LeafLoadable(p.group)
  }

  /** Both columns of the composite key are among the columns of the query. */
  predicate SelectsKey(p: AccountGroupPlan) {
    p.ctx.fields == [] || ((AccountID in p.ctx.fields || p.account.Some?) && (GroupID in p.ctx.fields || p.group.Some?))
  }

  predicate LeafFieldsValid(p: LeafPlan) {
    forall i | 0 <= i < |p.ctx.fields| :: p.ctx.fields[i] in p.columns
  }

  predicate AccountFieldsValid(fields: seq<Column>) {
    forall i | 0 <= i < |fields| :: fields[i] in ALL_COLUMNS
  }

  predicate JoinFieldsValid(fields: seq<JoinColumn>) {
    forall i | 0 <= i < |fields| :: fields[i] in ALL_JOIN_COLUMNS
  }

  predicate LeafOptionValid(p: Option<LeafPlan>) {
    p.Some? ==> LeafFieldsValid(p.value)
  }

  /** Every builder of the plan selects columns of its own table only. */
  predicate PlanFieldsValid(p: AccountPlan) {
    && AccountFieldsValid(p.ctx.fields)
    && LeafOptionValid(p.groups) && LeafOptionValid(p.proxy) && LeafOptionValid(p.usageLogs)
    && AccountOptionValid(p.parent) && AccountOptionValid(p.children) && JoinOptionValid(p.accountGroups)
  }

  predicate AccountOptionValid(p: Option<AccountPlan>) {
    p.Some? ==> PlanFieldsValid(p.value)
  }

  predicate JoinOptionValid(p: Option<AccountGroupPlan>) {
    p.Some? ==> JoinPlanFieldsValid(p.value)
  }

  predicate JoinPlanFieldsValid(p: AccountGroupPlan) {
    && JoinFieldsValid(p.ctx.fields)
    && AccountOptionValid(p.account) && LeafOptionValid(p.group)
  }

  // ----------------------------------------------------------------- columns

  /** `AddColumnOnce`. */
  function AddOnce<C(==)>(columns: seq<C>, c: C): seq<C> {
    if c in columns then columns else columns + [c]
  }

  /** A loader adds the foreign key it needs when the sub-query selects fields at all. */
  function WithForeignKey<C(==)>(fields: seq<C>, fk: C): seq<C> {
    if |fields| > 0 then AddOnce(fields, fk) else fields
  }

  /** The fields of `fields` other than the id, in order. */
  function WithoutId<C(==)>(fields: seq<C>, id: C): seq<C> {
    if fields == [] then []
    else
      var n := |fields| - 1;
      if fields[n] != id then WithoutId(fields[..n], id) + [fields[n]] else WithoutId(fields[..n], id)
  }

  lemma {:induction false} WithoutIdKeepsOthers<C>(fields: seq<C>, id: C, c: C)
    ensures c in WithoutId(fields, id) <==> c in fields && c != id
  {
    if fields != [] {
      assert fields == fields[..|fields| - 1] + [fields[|fields| - 1]];
      WithoutIdKeepsOthers(fields[..|fields| - 1], id, c);
    }
  }

  /** The columns that `AccountQuery.querySpec` selects. */
  function AccountColumns(fields: seq<Column>, withProxy: bool, withParent: bool): seq<Column> {
    if |fields| == 0 then ALL_COLUMNS
    else
      var c0 := [ID] + WithoutId(fields, ID);
      var c1 := if withProxy then AddOnce(c0, ProxyID) else c0;
      if withParent then AddOnce(c1, ParentAccountID) else c1
  }

  /** The columns that `AccountGroupQuery.querySpec` selects: no id is forced, the key is composite. */
  function JoinColumns(fields: seq<JoinColumn>, withAccount: bool, withGroup: bool): seq<JoinColumn> {
    if |fields| == 0 then ALL_JOIN_COLUMNS
    else
      var c0 := if withAccount then AddOnce(fields, AccountID) else fields;
      if withGroup then AddOnce(c0, GroupID) else c0
  }

  /** The columns that the query of a leaf table selects; `columns` lists all of them, the id first. */
  function LeafColumns(columns: seq<string>, fields: seq<string>): seq<string> {
    if |fields| == 0 then columns else ["id"] + WithoutId(fields, "id")
  }

  lemma KeyColumns()
    ensures ID in ALL_COLUMNS && ProxyID in ALL_COLUMNS && ParentAccountID in ALL_COLUMNS
  {
    assert ALL_COLUMNS[0] == ID && ALL_COLUMNS[10] == ProxyID && ALL_COLUMNS[30] == ParentAccountID;
  }

  lemma AddOnceMember<C>(columns: seq<C>, c: C, d: C)
    ensures d in AddOnce(columns, c) <==> d in columns || d == c
  {
  }

  /** The columns of a selection: the id, what is selected, and the foreign keys of the requested edges. */
  lemma SelectedColumns(fields: seq<Column>, withProxy: bool, withParent: bool, c: Column)
    requires |fields| > 0
    ensures c in AccountColumns(fields, withProxy, withParent)
       <==> c == ID || c in fields || (withProxy && c == ProxyID) || (withParent && c == ParentAccountID)
  {
    hide AddOnce, WithoutId;
    WithoutIdKeepsOthers(fields, ID, c);
    var c0 := [ID] + WithoutId(fields, ID);
    AddOnceMember(c0, ProxyID, c);
    AddOnceMember(if withProxy then AddOnce(c0, ProxyID) else c0, ParentAccountID, c);
  }

  /** Whatever is selected, the columns the loaders read are there. */
  lemma ForcedColumns(fields: seq<Column>, withProxy: bool, withParent: bool, c: Column)
    ensures ID in AccountColumns(fields, withProxy, withParent)
    ensures withProxy ==> ProxyID in AccountColumns(fields, withProxy, withParent)
    ensures withParent ==> ParentAccountID in AccountColumns(fields, withProxy, withParent)
    ensures (|fields| == 0 && c in ALL_COLUMNS) || c in fields ==> c in AccountColumns(fields, withProxy, withParent)
  {
    if |fields| == 0 {
      KeyColumns();
      assert AccountColumns(fields, withProxy, withParent) == ALL_COLUMNS;
    } else {
      hide AccountColumns;
      SelectedColumns(fields, withProxy, withParent, ID);
      SelectedColumns(fields, withProxy, withParent, ProxyID);
      SelectedColumns(fields, withProxy, withParent, ParentAccountID);
      SelectedColumns(fields, withProxy, withParent, c);
    }
  }

  /** Nothing else is selected. */
  lemma NoOtherColumns(fields: seq<Column>, withProxy: bool, withParent: bool, c: Column)
    requires |fields| > 0 && c in AccountColumns(fields, withProxy, withParent)
    ensures c == ID || c in fields || (withProxy && c == ProxyID) || (withParent && c == ParentAccountID)
  {
    SelectedColumns(fields, withProxy, withParent, c);
  }

  function DecodeJoin(r: AccountGroup, columns: seq<JoinColumn>): AccountGroup {
    AccountGroup(
      if AccountID in columns then r.accountID else 0,
      if GroupID in columns then r.groupID else 0,
      if JoinPriority in columns then r.priority else 0,
      if JoinCreatedAt in columns then r.createdAt else 0)
  }

  function DecodeLeaf(r: LeafRow, columns: seq<string>): LeafRow {
    LeafRow(
      if "id" in columns then r.id else 0,
      if "account_id" in columns then r.accountID else 0,
      map k | k in r.cells && k in columns :: r.cells[k])
  }

  // ------------------------------------------------------------ selected rows

  function Selected<T>(rows: seq<T>, filters: seq<T -> bool>, order: seq<T -> int>): seq<T> {
    OrderBy(FilterAll(rows, filters), order)
  }

  function SelectedAccounts(db: Database, p: AccountPlan): seq<Account> {
    Selected(db.accounts, p.filters, p.order)
  }

  function SelectedJoins(db: Database, p: AccountGroupPlan): seq<AccountGroup> {
    Selected(db.accountGroups, p.filters, p.order)
  }

  function SelectedLeaves(db: Database, p: LeafPlan): seq<LeafRow> {
    Selected(LeafRows(db, p.table), p.filters, p.order)
  }

  /** The rows of a query with its offset and limit. */
  function AccountRows(db: Database, p: AccountPlan): seq<Account> {
    Window(SelectedAccounts(db, p), p.ctx.offset, p.ctx.limit)
  }

  /** The columns of a join row that a query shows. */
  function ShownJoin(columns: seq<JoinColumn>): AccountGroup -> AccountGroup {
    (r: AccountGroup) => DecodeJoin(r, columns)
  }

  function RowsOfJoinQuery(db: Database, ctx: Context<JoinColumn>, filters: seq<AccountGroup -> bool>, order: seq<AccountGroup -> int>,
                         withAccount: bool, withGroup: bool): seq<AccountGroup> {
    var rows := Selected(db.accountGroups, filters, order);
    Window(if ctx.unique == Some(true) then MergeEqual(rows, ShownJoin(JoinColumns(ctx.fields, withAccount, withGroup))) else rows,
           ctx.offset, ctx.limit)
  }

  /** The rows of a query for join rows, with `DISTINCT`, offset and limit. */
  function AccountGroupRows(db: Database, p: AccountGroupPlan): seq<AccountGroup> {
    RowsOfJoinQuery(db, p.ctx, p.filters, p.order, p.account.Some?, p.group.Some?)
  }

  /** A whole query yields all selected rows: rows with different keys are not merged. */
  lemma WholeRows(db: Database, p: AccountGroupPlan)
    requires ValidDatabase(db) && Whole(p)
    ensures AccountGroupRows(db, p) == SelectedJoins(db, p)
  {
    if p.ctx.unique == Some(true) {
      var rows := SelectedJoins(db, p);
      var columns := JoinColumns(p.ctx.fields, p.account.Some?, p.group.Some?);
      SelectedUnique(db.accountGroups, p.filters, p.order, JoinPair);
      assert AccountID in columns && GroupID in columns by {
        KeyIsShown(p);
      }
      forall i, j | 0 <= i < j < |rows| ensures DecodeJoin(rows[i], columns) != DecodeJoin(rows[j], columns) {
        assert JoinPair(rows[i]) != JoinPair(rows[j]);
      }
      MergeNothing(rows, ShownJoin(columns));
    }
  }

  lemma KeyIsShown(p: AccountGroupPlan)
    requires SelectsKey(p)
    ensures var columns := JoinColumns(p.ctx.fields, p.account.Some?, p.group.Some?);
            AccountID in columns && GroupID in columns
  {
    assert ALL_JOIN_COLUMNS[0] == AccountID && ALL_JOIN_COLUMNS[1] == GroupID;
  }

  /** The foreign key that a loader adds does not take the key away. */
  lemma StaysWhole(p: AccountGroupPlan, q: AccountGroupPlan)
    requires Whole(p) && q.ctx == p.ctx.(fields := WithForeignKey(p.ctx.fields, AccountID))
    requires q.account.Some? == p.account.Some? && q.group.Some? == p.group.Some?
    ensures Whole(q)
  {
  }

  // -------------------------------------------------------------------- keys

  function IdIs(k: int): Account -> bool { (r: Account) => r.id == k }
  function IdIn(ids: seq<int>): Account -> bool { (r: Account) => r.id in ids }
  function ParentIs(k: int): Account -> bool { (r: Account) => r.numbers.parentAccountID == Some(k) }
  function ParentIn(ids: seq<int>): Account -> bool {
    (r: Account) => r.numbers.parentAccountID.Some? && r.numbers.parentAccountID.value in ids
  }
  function LeafIdIs(k: int): LeafRow -> bool { (r: LeafRow) => r.id == k }
  function LeafIdIn(ids: seq<int>): LeafRow -> bool { (r: LeafRow) => r.id in ids }
  function OwnerIs(k: int): LeafRow -> bool { (r: LeafRow) => r.accountID == k }
  function OwnerIn(ids: seq<int>): LeafRow -> bool { (r: LeafRow) => r.accountID in ids }
  function JoinAccountIs(k: int): AccountGroup -> bool { (r: AccountGroup) => r.accountID == k }
  function JoinAccountIn(ids: seq<int>): AccountGroup -> bool { (r: AccountGroup) => r.accountID in ids }

  function AccountKey(r: Account): Option<int> { Some(r.id) }
  function ParentKey(r: Account): Option<int> { r.numbers.parentAccountID }
  function ProxyKey(r: Account): Option<int> { r.numbers.proxyID }
  function LeafKey(r: LeafRow): Option<int> { Some(r.id) }
  function OwnerKey(r: LeafRow): Option<int> { Some(r.accountID) }
  function JoinKey(r: AccountGroup): Option<int> { Some(r.accountID) }
  function JoinedGroupKey(r: AccountGroup): Option<int> { Some(r.groupID) }

  function RowIds(rows: seq<Account>): (r: seq<int>)
    ensures |r| == |rows| && forall i | 0 <= i < |rows| :: r[i] == rows[i].id
  {
    seq(|rows|, i requires 0 <= i < |rows| => rows[i].id)
  }

  /** Account `a` is joined to group `g` by some row of `account_groups`. */
  predicate JoinedTo(joins: seq<AccountGroup>, a: int, g: int) {
    exists i | 0 <= i < |joins| :: joins[i].accountID == a && joins[i].groupID == g
  }

  function InGroupOf(joins: seq<AccountGroup>, a: int): LeafRow -> bool {
    (g: LeafRow) => JoinedTo(joins, a, g.id)
  }

  // --------------------------------------------------------- the naive answer

  /** An account: its row, the columns selected from it, and its edges. */
  datatype AccountTree = AccountTree(
    row: Account, columns: seq<Column>,
    groups: Option<seq<LeafRow>>, proxy: Option<Option<LeafRow>>,
    parent: Option<Option<AccountTree>>, children: AccountTrees,
    usageLogs: Option<seq<LeafRow>>, accountGroups: AccountGroupTrees)

  /** A list-valued edge that was not asked for, or its list. */
  datatype AccountTrees = NoChildren | Children(list: seq<AccountTree>)

  datatype AccountGroupTrees = NoJoins | Joins(list: seq<AccountGroupTree>)

  datatype AccountGroupTree = AccountGroupTree(
    fields: AccountGroup, account: Option<Option<AccountTree>>, group: Option<Option<LeafRow>>)

  function DecodeLeaves(rows: seq<LeafRow>, columns: seq<string>): (r: seq<LeafRow>)
    ensures |r| == |rows|
    ensures forall i | 0 <= i < |rows| :: r[i] == DecodeLeaf(rows[i], columns)
  {
    seq(|rows|, i requires 0 <= i < |rows| => DecodeLeaf(rows[i], columns))
  }

  /** The row with key `fk`, if the plan selects it. */
  function JoinLeaf(db: Database, p: LeafPlan, fk: Option<int>): Option<LeafRow> {
    if fk.None? then None
    else
      var hits := Filter(SelectedLeaves(db, p), LeafIdIs(fk.value));
      if hits == [] then None else Some(DecodeLeaf(hits[0], LeafColumns(p.columns, p.ctx.fields)))
  }

  function JoinLogs(db: Database, p: LeafPlan, id: int): seq<LeafRow> {
    DecodeLeaves(Filter(SelectedLeaves(db, p), OwnerIs(id)),
                 LeafColumns(p.columns, WithForeignKey(p.ctx.fields, "account_id")))
  }

  function JoinGroups(db: Database, p: LeafPlan, id: int): seq<LeafRow> {
    DecodeLeaves(Filter(SelectedLeaves(db, p), InGroupOf(db.accountGroups, id)), LeafColumns(p.columns, p.ctx.fields))
  }

  /** The tree of one account row. */
  function JoinAccount(db: Database, p: AccountPlan, fields: seq<Column>, r: Account): AccountTree
    decreases p, 0
  {
    AccountTree(
      r, AccountColumns(fields, p.proxy.Some?, p.parent.Some?),
      if p.groups.None? then None else Some(JoinGroups(db, p.groups.value, r.id)),
      if p.proxy.None? then None else Some(JoinLeaf(db, p.proxy.value, r.numbers.proxyID)),
      if p.parent.None? then None else Some(JoinByKey(db, p.parent.value, r.numbers.parentAccountID)),
      if p.children.None? then NoChildren else Children(JoinChildren(db, p.children.value, r.id)),
      if p.usageLogs.None? then None else Some(JoinLogs(db, p.usageLogs.value, r.id)),
      if p.accountGroups.None? then NoJoins else Joins(JoinJoins(db, p.accountGroups.value, r.id)))
  }

  /** The tree of the account with key `fk`, if the plan selects it. */
  function JoinByKey(db: Database, p: AccountPlan, fk: Option<int>): Option<AccountTree>
    decreases p, 1
  {
    if fk.None? then None
    else
      var hits := Filter(SelectedAccounts(db, p), IdIs(fk.value));
      if hits == [] then None else Some(JoinAccount(db, p, p.ctx.fields, hits[0]))
  }

  function ChildRows(db: Database, p: AccountPlan, id: int): seq<Account> {
    Filter(SelectedAccounts(db, p), ParentIs(id))
  }

  function JoinChildren(db: Database, p: AccountPlan, id: int): seq<AccountTree>
    decreases p, 1
  {
    var rows := ChildRows(db, p, id);
    seq(|rows|, i requires 0 <= i < |rows| =>
      JoinAccount(db, p, WithForeignKey(p.ctx.fields, ParentAccountID), rows[i]))
  }

  function JoinRowsOf(db: Database, p: AccountGroupPlan, id: int): seq<AccountGroup> {
    Filter(SelectedJoins(db, p), JoinAccountIs(id))
  }

  function JoinJoins(db: Database, p: AccountGroupPlan, id: int): seq<AccountGroupTree>
    decreases p, 1
  {
    var rows := JoinRowsOf(db, p, id);
    seq(|rows|, i requires 0 <= i < |rows| =>
      JoinAccountGroup(db, p, WithForeignKey(p.ctx.fields, AccountID), rows[i]))
  }

  /** The tree of one row of `account_groups`. */
  function JoinAccountGroup(db: Database, p: AccountGroupPlan, fields: seq<JoinColumn>, r: AccountGroup): AccountGroupTree
    decreases p, 0
  {
    AccountGroupTree(
      DecodeJoin(r, JoinColumns(fields, p.account.Some?, p.group.Some?)),
      if p.account.None? then None else Some(JoinByKey(db, p.account.value, Some(r.accountID))),
      if p.group.None? then None else Some(JoinLeaf(db, p.group.value, Some(r.groupID))))
  }

  // ------------------------------------------------- one batch for many nodes

  /**
   The law behind every batched loader: select once with `key IN ids`, then hand each node the
   rows at the positions of its own key.  That is what a query for this one key would return.
   */
  lemma BatchThenPick<T(!new)>(rows: seq<T>, filters: seq<T -> bool>, order: seq<T -> int>, key: T -> Option<int>,
                         ids: seq<int>, inBatch: T -> bool, k: int, isK: T -> bool)
    requires k in ids
    requires forall x :: inBatch(x) == (key(x).Some? && key(x).value in ids)
    requires forall x :: isK(x) == (key(x) == Some(k))
    ensures var batch := Selected(rows, filters + [inBatch], order);
            Filter(Selected(rows, filters, order), isK) == Pick(batch, Positions(Keys(batch, key), k))
  {
    var batch := Selected(rows, filters + [inBatch], order);
    BatchIsFilter(rows, filters, order, inBatch);
    FilterFilter(Selected(rows, filters, order), inBatch, isK, isK);
    FilterIsPick(batch, key, k, isK);
  }

  /** With unique ids the batch has at most one row for a key, and it is the row a look-up returns. */
  lemma LookupInBatch<T(!new)>(rows: seq<T>, filters: seq<T -> bool>, order: seq<T -> int>, id: T -> int,
                               key: T -> Option<int>, ids: seq<int>, inBatch: T -> bool, k: int, isK: T -> bool)
    requires UniqueBy(rows, id) && k in ids
    requires forall x :: key(x) == Some(id(x)) && inBatch(x) == (id(x) in ids) && isK(x) == (id(x) == k)
    ensures var batch := Selected(rows, filters + [inBatch], order);
            var t := LastWith(Keys(batch, key), Some(k), |batch|);
            Filter(Selected(rows, filters, order), isK) == if t.None? then [] else [batch[t.value]]
  {
    var batch := Selected(rows, filters + [inBatch], order);
    var keys := Keys(batch, key);
    BatchThenPick(rows, filters, order, key, ids, inBatch, k, isK);
    SelectedUnique(rows, filters + [inBatch], order, id);
    UniquePositions(batch, id, key, k);
    var t := LastWith(keys, Some(k), |batch|);
    LastWithIsLast(keys, Some(k), |batch|);
    var at := Positions(keys, k);
    if t.Some? {
      PositionsComplete(keys, k, t.value);
      assert at[0] == t.value;
    } else {
      NoPosition(keys, k);
    }
  }

  /** The tree of a row does not depend on which other rows its query selects. */
  lemma JoinIgnoresFilters(db: Database, p: AccountPlan, q: AccountPlan, fields: seq<Column>, r: Account)
    requires q == p.(ctx := q.ctx, filters := q.filters)
    ensures JoinAccount(db, q, fields, r) == JoinAccount(db, p, fields, r)
  {
  }

  lemma JoinGroupIgnoresFilters(db: Database, p: AccountGroupPlan, q: AccountGroupPlan, fields: seq<JoinColumn>, r: AccountGroup)
    requires q == p.(ctx := q.ctx, filters := q.filters)
    ensures JoinAccountGroup(db, q, fields, r) == JoinAccountGroup(db, p, fields, r)
  {
  }

  /** A many-to-one look-up answered from the batch. */
  lemma JoinByKeyFromBatch(db: Database, p: AccountPlan, q: AccountPlan, ids: seq<int>, fk: Option<int>)
    requires ValidDatabase(db) && q == p.(filters := q.filters)
    requires fk.Some? ==> fk.value in ids
    ensures var rows := Selected(db.accounts, p.filters + [IdIn(ids)], p.order);
            var t := LastWith(Keys(rows, AccountKey), fk, |rows|);
            JoinByKey(db, p, fk) == if t.None? then None else Some(JoinAccount(db, q, q.ctx.fields, rows[t.value]))
  {
    if fk.Some? {
      var rows := Selected(db.accounts, p.filters + [IdIn(ids)], p.order);
      LookupInBatch(db.accounts, p.filters, p.order, AccountId, AccountKey, ids, IdIn(ids), fk.value, IdIs(fk.value));
      var t := LastWith(Keys(rows, AccountKey), fk, |rows|);
      if t.Some? {
        JoinIgnoresFilters(db, p, q, q.ctx.fields, rows[t.value]);
      }
    }
  }

  /** The children of one node picked from the batch. */
  lemma ChildrenFromBatch(db: Database, p: AccountPlan, q: AccountPlan, ids: seq<int>, id: int)
    requires id in ids
    requires q == p.(ctx := q.ctx, filters := q.filters)
    requires q.ctx.fields == WithForeignKey(p.ctx.fields, ParentAccountID)
    ensures var rows := Selected(db.accounts, p.filters + [ParentIn(ids)], p.order);
            var at := Positions(Keys(rows, ParentKey), id);
            var trees := JoinChildren(db, p, id);
            |trees| == |at| && forall i | 0 <= i < |at| :: trees[i] == JoinAccount(db, q, q.ctx.fields, rows[at[i]])
  {
    var rows := Selected(db.accounts, p.filters + [ParentIn(ids)], p.order);
    BatchThenPick(db.accounts, p.filters, p.order, ParentKey, ids, ParentIn(ids), id, ParentIs(id));
    var at := Positions(Keys(rows, ParentKey), id);
    assert ChildRows(db, p, id) == Pick(rows, at);
    forall i | 0 <= i < |at|
      ensures JoinChildren(db, p, id)[i] == JoinAccount(db, q, q.ctx.fields, rows[at[i]])
    {
      JoinIgnoresFilters(db, p, q, q.ctx.fields, rows[at[i]]);
    }
  }

  /** The join rows of one account picked from the batch. */
  lemma JoinsFromBatch(db: Database, p: AccountGroupPlan, q: AccountGroupPlan, ids: seq<int>, id: int)
    requires id in ids
    requires q == p.(ctx := q.ctx, filters := q.filters)
    requires q.ctx.fields == WithForeignKey(p.ctx.fields, AccountID)
    ensures var rows := Selected(db.accountGroups, p.filters + [JoinAccountIn(ids)], p.order);
            var at := Positions(Keys(rows, JoinKey), id);
            var trees := JoinJoins(db, p, id);
            |trees| == |at| && forall i | 0 <= i < |at| :: trees[i] == JoinAccountGroup(db, q, q.ctx.fields, rows[at[i]])
  {
    var rows := Selected(db.accountGroups, p.filters + [JoinAccountIn(ids)], p.order);
    BatchThenPick(db.accountGroups, p.filters, p.order, JoinKey, ids, JoinAccountIn(ids), id, JoinAccountIs(id));
    var at := Positions(Keys(rows, JoinKey), id);
    assert JoinRowsOf(db, p, id) == Pick(rows, at);
    forall i | 0 <= i < |at|
      ensures JoinJoins(db, p, id)[i] == JoinAccountGroup(db, q, q.ctx.fields, rows[at[i]])
    {
      JoinGroupIgnoresFilters(db, p, q, q.ctx.fields, rows[at[i]]);
    }
  }

  /** Every row of a batch satisfies the filter that made it a batch. */
  lemma BatchMember<T>(rows: seq<T>, filters: seq<T -> bool>, order: seq<T -> int>, p: T -> bool)
    ensures forall i | 0 <= i < |Selected(rows, filters + [p], order)| :: p(Selected(rows, filters + [p], order)[i])
  {
    var batch := Selected(rows, filters + [p], order);
    forall i | 0 <= i < |batch| ensures p(batch[i]) {
      BatchIsFilter(rows, filters, order, p);
      assert batch[i] in batch;
      FilterMember(Selected(rows, filters, order), p, batch[i]);
    }
  }

  /** Only the conjunction of the predicates matters. */
  lemma SelectedCongruence<T>(rows: seq<T>, f: seq<T -> bool>, g: seq<T -> bool>, order: seq<T -> int>)
    requires forall x | x in rows :: Passes(f, x) <==> Passes(g, x)
    ensures Selected(rows, f, order) == Selected(rows, g, order)
  {
    FilterCongruence(rows, x => Passes(f, x), x => Passes(g, x));
  }

  lemma PassesConcat<T>(f: seq<T -> bool>, g: seq<T -> bool>, x: T)
    ensures Passes(f + g, x) <==> Passes(f, x) && Passes(g, x)
  {
    if Passes(f + g, x) {
      forall i | 0 <= i < |f| ensures f[i](x) {
        assert (f + g)[i](x);
      }
      forall i | 0 <= i < |g| ensures g[i](x) {
        assert (f + g)[|f| + i](x);
      }
    }
  }

  /** A predicate appended before the traversers' predicates counts like one appended last. */
  lemma SelectedLoadFilter<T>(rows: seq<T>, f: seq<T -> bool>, p: T -> bool, g: seq<T -> bool>, order: seq<T -> int>)
    ensures Selected(rows, f + [p] + g, order) == Selected(rows, f + g + [p], order)
  {
    forall x | x in rows
      ensures Passes(f + [p] + g, x) <==> Passes(f + g + [p], x)
    {
      PassesConcat(f + [p], g, x);
      PassesConcat(f, [p], x);
      PassesConcat(f + g, [p], x);
      PassesConcat(f, g, x);
    }
    SelectedCongruence(rows, f + [p] + g, f + g + [p], order);
  }

  /** The traversers' predicates count once, however often they are added. */
  lemma SelectedTraversed<T>(rows: seq<T>, f: seq<T -> bool>, g: seq<T -> bool>, order: seq<T -> int>)
    ensures Selected(rows, f + g + g, order) == Selected(rows, f + g, order)
  {
    forall x | x in rows
      ensures Passes(f + g + g, x) <==> Passes(f + g, x)
    {
      PassesConcat(f + g, g, x);
      PassesConcat(f, g, x);
    }
    SelectedCongruence(rows, f + g + g, f + g, order);
  }

  lemma BatchIsFilter<T>(rows: seq<T>, filters: seq<T -> bool>, order: seq<T -> int>, p: T -> bool)
    ensures Selected(rows, filters + [p], order) == Filter(Selected(rows, filters, order), p)
  {
    FilterAllAppend(rows, filters, p);
    FilterOrderBy(FilterAll(rows, filters), order, p);
  }

  lemma SelectedUnique<T, K>(rows: seq<T>, filters: seq<T -> bool>, order: seq<T -> int>, id: T -> K)
    requires UniqueBy(rows, id)
    ensures UniqueBy(Selected(rows, filters, order), id)
  {
    UniqueFilter(rows, id, x => Passes(filters, x));
    OrderByPermutes(FilterAll(rows, filters), order);
    UniquePermutes(FilterAll(rows, filters), Selected(rows, filters, order), id);
  }

  lemma WindowUnique<T, K>(rows: seq<T>, offset: Option<nat>, limit: Option<nat>, id: T -> K)
    requires UniqueBy(rows, id)
    ensures UniqueBy(Window(rows, offset, limit), id)
  {
  }

  // -------------------------------------------------- the many-to-many join

  /** A row of the joined query: the account id first, then the group's columns. */
  datatype JoinedRow = JoinedRow(account: int, group: LeafRow)

  /** The integer column of a leaf row, as the driver scans it. */
  function LeafInt(r: LeafRow, column: string): int {
    if column == "id" then r.id else if column == "account_id" then r.accountID else 0
  }

  /** The join rows of one group, in the order of `account_groups`. */
  function JoinsOfGroup(joins: seq<AccountGroup>, ids: seq<int>, g: LeafRow): seq<JoinedRow> {
    if joins == [] then []
    else
      var n := |joins| - 1;
      var init := JoinsOfGroup(joins[..n], ids, g);
      if joins[n].groupID == g.id && joins[n].accountID in ids then init + [JoinedRow(joins[n].accountID, g)] else init
  }

  /** `groups JOIN account_groups … WHERE account_id IN ids`, group by group. */
  function JoinRows(groups: seq<LeafRow>, joins: seq<AccountGroup>, ids: seq<int>): seq<JoinedRow> {
    if groups == [] then []
    else
      var n := |groups| - 1;
      JoinRows(groups[..n], joins, ids) + JoinsOfGroup(joins, ids, groups[n])
  }

  /** One of the first `j` join rows is for group `g`. */
  predicate SeenGroup(rows: seq<JoinedRow>, j: nat, g: int)
    requires j <= |rows|
  {
    exists i | 0 <= i < j :: rows[i].group.id == g
  }

  /** The groups of the first `j` join rows, each at its first appearance. */
  function FirstRows(rows: seq<JoinedRow>, j: nat): seq<LeafRow>
    requires j <= |rows|
  {
    if j == 0 then []
    else if SeenGroup(rows, j - 1, rows[j - 1].group.id) then FirstRows(rows, j - 1)
    else FirstRows(rows, j - 1) + [rows[j - 1].group]
  }

  predicate Linked(rows: seq<JoinedRow>, a: int, g: int) {
    exists i | 0 <= i < |rows| :: rows[i].account == a && rows[i].group.id == g
  }

  /** Group `g` is joined to one of the accounts. */
  predicate JoinedToAny(joins: seq<AccountGroup>, ids: seq<int>, g: int) {
    exists i | 0 <= i < |joins| :: joins[i].accountID in ids && joins[i].groupID == g
  }

  lemma {:induction false} JoinsOfGroupRows(joins: seq<AccountGroup>, ids: seq<int>, g: LeafRow)
    ensures forall i | 0 <= i < |JoinsOfGroup(joins, ids, g)| ::
              JoinsOfGroup(joins, ids, g)[i].group == g && JoinsOfGroup(joins, ids, g)[i].account in ids
              && JoinedTo(joins, JoinsOfGroup(joins, ids, g)[i].account, g.id)
    ensures JoinsOfGroup(joins, ids, g) != [] <==> JoinedToAny(joins, ids, g.id)
    ensures forall a | a in ids && JoinedTo(joins, a, g.id) :: Linked(JoinsOfGroup(joins, ids, g), a, g.id)
  {
    if joins != [] {
      var n := |joins| - 1;
      JoinsOfGroupRows(joins[..n], ids, g);
      var init, all := JoinsOfGroup(joins[..n], ids, g), JoinsOfGroup(joins, ids, g);
      forall i | 0 <= i < |all| ensures all[i].group == g && all[i].account in ids && JoinedTo(joins, all[i].account, g.id) {
        if i < |init| {
          assert all[i] == init[i];
          var k :| 0 <= k < n && joins[..n][k].accountID == init[i].account && joins[..n][k].groupID == g.id;
          assert joins[k].groupID == g.id;
        } else {
          assert joins[n].groupID == g.id;
        }
      }
      if JoinedToAny(joins[..n], ids, g.id) {
        var k :| 0 <= k < n && joins[..n][k].accountID in ids && joins[..n][k].groupID == g.id;
        assert joins[k].groupID == g.id;
      }
      if JoinedToAny(joins, ids, g.id) {
        var k :| 0 <= k <= n && joins[k].accountID in ids && joins[k].groupID == g.id;
        assert k < n ==> joins[..n][k].groupID == g.id;
      }
      forall a | a in ids && JoinedTo(joins, a, g.id) ensures Linked(all, a, g.id) {
        var k :| 0 <= k <= n && joins[k].accountID == a && joins[k].groupID == g.id;
        if k < n {
          assert joins[..n][k].accountID == a;
          var i :| 0 <= i < |init| && init[i].account == a && init[i].group.id == g.id;
          assert all[i] == init[i];
        } else {
          assert all[|init|].account == a;
        }
      }
    }
  }

  /** The first rows of a prefix do not depend on what follows it. */
  lemma {:induction false} FirstRowsOfPrefix(a: seq<JoinedRow>, b: seq<JoinedRow>, j: nat)
    requires j <= |a|
    ensures FirstRows(a + b, j) == FirstRows(a, j)
  {
    if j > 0 {
      FirstRowsOfPrefix(a, b, j - 1);
      var g := a[j - 1].group.id;
      assert SeenGroup(a + b, j - 1, g) <==> SeenGroup(a, j - 1, g) by {
        forall i | 0 <= i < j - 1 ensures (a + b)[i] == a[i] { }
        if SeenGroup(a, j - 1, g) {
          var i :| 0 <= i < j - 1 && a[i].group.id == g;
          assert (a + b)[i].group.id == g;
        }
      }
    }
  }

  /** Rows of one new group add that group once. */
  lemma {:induction false} FirstRowsOfOneGroup(a: seq<JoinedRow>, b: seq<JoinedRow>, g: LeafRow, j: nat)
    requires j <= |b|
    requires forall i | 0 <= i < |b| :: b[i].group == g
    requires !SeenGroup(a, |a|, g.id)
    ensures FirstRows(a + b, |a| + j) == FirstRows(a, |a|) + if j == 0 then [] else [g]
  {
    if j == 0 {
      FirstRowsOfPrefix(a, b, |a|);
    } else {
      FirstRowsOfOneGroup(a, b, g, j - 1);
      var n := |a| + j - 1;
      assert (a + b)[n] == b[j - 1];
      if j > 1 {
        assert (a + b)[|a|].group.id == g.id;
      } else {
        forall i | 0 <= i < |a| ensures (a + b)[i].group.id != g.id {
          assert (a + b)[i] == a[i];
        }
      }
    }
  }

  /** A row of the joined query: a selected group and an account of the batch that is joined to it. */
  ghost predicate ValidJoinedRow(r: JoinedRow, groups: seq<LeafRow>, joins: seq<AccountGroup>, ids: seq<int>) {
    r.group in groups && r.account in ids && JoinedTo(joins, r.account, r.group.id)
  }

  lemma {:induction false} JoinRowsValid(groups: seq<LeafRow>, joins: seq<AccountGroup>, ids: seq<int>, i: nat)
    requires i < |JoinRows(groups, joins, ids)|
    ensures ValidJoinedRow(JoinRows(groups, joins, ids)[i], groups, joins, ids)
  {
    var n := |groups| - 1;
    var init := JoinRows(groups[..n], joins, ids);
    assert groups == groups[..n] + [groups[n]];
    if i < |init| {
      JoinRowsValid(groups[..n], joins, ids, i);
    } else {
      JoinsOfGroupRows(joins, ids, groups[n]);
    }
  }

  lemma {:induction false} JoinRowsComplete(groups: seq<LeafRow>, joins: seq<AccountGroup>, ids: seq<int>, g: LeafRow, a: int)
    requires g in groups && a in ids && JoinedTo(joins, a, g.id)
    ensures Linked(JoinRows(groups, joins, ids), a, g.id)
  {
    var n := |groups| - 1;
    var init, last := JoinRows(groups[..n], joins, ids), JoinsOfGroup(joins, ids, groups[n]);
    var all := JoinRows(groups, joins, ids);
    assert groups == groups[..n] + [groups[n]];
    if g == groups[n] {
      JoinsOfGroupRows(joins, ids, g);
      var i :| 0 <= i < |last| && last[i].account == a && last[i].group.id == g.id;
      assert all[|init| + i] == last[i];
    } else {
      JoinRowsComplete(groups[..n], joins, ids, g, a);
      var i :| 0 <= i < |init| && init[i].account == a && init[i].group.id == g.id;
      assert all[i] == init[i];
    }
  }

  function AnyJoined(joins: seq<AccountGroup>, ids: seq<int>): LeafRow -> bool {
    (g: LeafRow) => JoinedToAny(joins, ids, g.id)
  }

  /** No joined row of earlier groups carries the last group. */
  lemma LastGroupIsNew(groups: seq<LeafRow>, joins: seq<AccountGroup>, ids: seq<int>)
    requires groups != [] && UniqueBy(groups, LeafId)
    ensures var init := JoinRows(groups[..|groups| - 1], joins, ids);
            !SeenGroup(init, |init|, groups[|groups| - 1].id)
  {
    hide JoinRows;
    var n := |groups| - 1;
    var init := JoinRows(groups[..n], joins, ids);
    forall i | 0 <= i < |init| ensures init[i].group.id != groups[n].id {
      JoinRowsValid(groups[..n], joins, ids, i);
      var k :| 0 <= k < n && groups[..n][k] == init[i].group;
      assert LeafId(groups[k]) != LeafId(groups[n]);
    }
  }

  /** The rows of one group are there exactly if some account of the batch is joined to it. */
  lemma OneGroup(joins: seq<AccountGroup>, ids: seq<int>, g: LeafRow)
    ensures forall i | 0 <= i < |JoinsOfGroup(joins, ids, g)| :: JoinsOfGroup(joins, ids, g)[i].group == g
    ensures JoinsOfGroup(joins, ids, g) != [] <==> AnyJoined(joins, ids)(g)
  {
    JoinsOfGroupRows(joins, ids, g);
  }

  /** The joined query returns each group with a member among the accounts, once, in the groups' order. */
  lemma {:induction false} FirstRowsOfJoin(groups: seq<LeafRow>, joins: seq<AccountGroup>, ids: seq<int>)
    requires UniqueBy(groups, LeafId)
    ensures var rows := JoinRows(groups, joins, ids);
            FirstRows(rows, |rows|) == Filter(groups, AnyJoined(joins, ids))
  {
    if groups != [] {
      var n := |groups| - 1;
      var g := groups[n];
      assert UniqueBy(groups[..n], LeafId);
      hide UniqueBy, JoinsOfGroup, AnyJoined, SeenGroup, FirstRows;
      var init, last := JoinRows(groups[..n], joins, ids), JoinsOfGroup(joins, ids, g);
      FirstRowsOfJoin(groups[..n], joins, ids);
      LastGroupIsNew(groups, joins, ids);
      OneGroup(joins, ids, g);
      FirstRowsOfOneGroup(init, last, g, |last|);
    }
  }

  /** Restricting the joined query to a batch of accounts loses no group of an account in the batch. */
  lemma GroupsOfOneAccount(groups: seq<LeafRow>, joins: seq<AccountGroup>, ids: seq<int>, a: int)
    requires a in ids
    ensures Filter(Filter(groups, AnyJoined(joins, ids)), InGroupOf(joins, a)) == Filter(groups, InGroupOf(joins, a))
  {
    forall g | g in groups
      ensures InGroupOf(joins, a)(g) == (AnyJoined(joins, ids)(g) && InGroupOf(joins, a)(g))
    {
      if JoinedTo(joins, a, g.id) {
        var i :| 0 <= i < |joins| && joins[i].accountID == a && joins[i].groupID == g.id;
        assert joins[i].accountID in ids;
      }
    }
    FilterFilter(groups, AnyJoined(joins, ids), InGroupOf(joins, a), InGroupOf(joins, a));
  }
}
