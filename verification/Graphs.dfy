/**
 What a loaded object graph means, stated on the tables: for every object the row it shows, the columns
 it shows of it, and for every requested edge the rows at its other end, to any depth.  Nothing here
 computes a join; `BatchMeans` shows that a graph of the naive join has this meaning.
 */
module Graphs {
  import opened Wrappers
  import opened Rows
  import opened AccountCodec
  import opened QueryPlans
  import opened Entities
  import opened Batches
  import opened Answers

  // ------------------------------------------------------- rows of a leaf table

  /** The query for leaf rows shows column `k`; `owned` says that the foreign key was added to its selection. */
  ghost predicate Chosen(e: LeafPlan, owned: bool, k: string) {
    if e.ctx.fields == [] then k in e.columns else k == "id" || k in e.ctx.fields || (owned && k == "account_id")
  }

  /** The object shows the chosen columns of the row, and nothing else. */
  ghost predicate LeafMeans(e: LeafPlan, owned: bool, r: LeafRow, n: LeafNode, S: set<object>)
    reads S
  {
    && n in S
    && n.fields.id == (if Chosen(e, owned, "id") then r.id else 0)
    && n.fields.accountID == (if Chosen(e, owned, "account_id") then r.accountID else 0)
    && (forall k :: k in n.fields.cells <==> k in r.cells && Chosen(e, owned, k))
    && forall k | k in n.fields.cells :: n.fields.cells[k] == r.cells[k]
  }

  /** The object shows the row of the table that has the key and that the predicates accept; without one there is no object. */
  ghost predicate LeafByKey(table: seq<LeafRow>, e: LeafPlan, fk: Option<int>, n: LeafNode?, S: set<object>)
    reads S
  {
    if n == null then forall i | 0 <= i < |table| && fk == Some(table[i].id) :: !Accepted(e.filters, table[i])
    else exists i :: 0 <= i < |table| && fk == Some(table[i].id) && Accepted(e.filters, table[i]) && LeafMeans(e, false, table[i], n, S)
  }

  ghost function OwnedBy(e: LeafPlan, id: int): LeafRow -> bool {
    (r: LeafRow) => Accepted(e.filters, r) && r.accountID == id
  }

  /** The group has the account as a member. */
  ghost function HasMember(db: Database, e: LeafPlan, id: int): LeafRow -> bool {
    (r: LeafRow) => Accepted(e.filters, r) && exists j :: 0 <= j < |db.accountGroups| && db.accountGroups[j].accountID == id && db.accountGroups[j].groupID == r.id
  }

  /** The list shows the wanted rows of the table, each once, in the order of the query. */
  ghost predicate LeavesMean(table: seq<LeafRow>, wanted: LeafRow -> bool, e: LeafPlan, owned: bool, ns: Option<seq<LeafNode>>, S: set<object>)
    reads S
  {
    ns.Some? && exists rows: seq<LeafRow> ::
      && InOrder(table, wanted, e.order, rows) && |ns.value| == |rows|
      && forall i | 0 <= i < |rows| :: LeafMeans(e, owned, rows[i], ns.value[i], S)
  }

  // ------------------------------------------------------------- accounts

  /** The query for accounts shows column `c`; `also` are the foreign keys added to its selection. */
  ghost predicate Shown(p: AccountPlan, also: set<Column>, c: Column) {
    || p.ctx.fields == [] || c == ID || c in p.ctx.fields || c in also
    || (p.proxy.Some? && c == ProxyID) || (p.parent.Some? && c == ParentAccountID)
  }

  ghost function ChildOf(p: AccountPlan, id: int): Account -> bool {
    (r: Account) => Accepted(p.filters, r) && r.numbers.parentAccountID == Some(id)
  }

  /** The edges to leaf tables show what the tables say about the row. */
  ghost predicate LeafEdgesMean(db: Database, p: AccountPlan, r: Account, n: AccountNode, S: set<object>)
    reads n, S
  {
    && (match p.groups
        case None => n.groups == None
        case Some(e) => LeavesMean(db.groups, HasMember(db, e, r.id), e, false, n.groups, S))
    && (match p.proxy
        case None => n.proxy == null
        case Some(e) => LeafByKey(db.proxies, e, r.numbers.proxyID, n.proxy, S))
    && (match p.usageLogs
        case None => n.usageLogs == None
        case Some(e) => LeavesMean(db.usageLogs, OwnedBy(e, r.id), e, true, n.usageLogs, S))
  }

  /** The object shows the row, and its edges show what the tables say about the row. */
  ghost predicate Means(db: Database, p: AccountPlan, also: set<Column>, r: Account, n: AccountNode, S: set<object>)
    reads S
    decreases p, 0
  {
    && n in S
    && (forall c: Column | !c.Other? :: CellOf(n.fields, c) == if Shown(p, also, c) then CellOf(r, c) else CellOf(ZERO_ACCOUNT, c))
    && n.loadedTypes == [p.groups.Some?, p.proxy.Some?, p.parent.Some?, p.children.Some?, p.usageLogs.Some?, p.accountGroups.Some?]
    && LeafEdgesMean(db, p, r, n, S)
    && (match p.parent
        case None => n.parent == null
        case Some(e) => MeansByKey(db, e, r.numbers.parentAccountID, n.parent, S))
    && (match p.children
        case None => n.children == None
        case Some(e) => ChildrenMean(db, e, r.id, n.children, S))
    && (match p.accountGroups
        case None => n.accountGroups == None
        case Some(e) => JoinsMean(db, e, r.id, n.accountGroups, S))
  }

  ghost predicate MeansByKey(db: Database, p: AccountPlan, fk: Option<int>, n: AccountNode?, S: set<object>)
    reads S
    decreases p, 1
  {
    if n == null then forall i | 0 <= i < |db.accounts| && fk == Some(db.accounts[i].id) :: !Accepted(p.filters, db.accounts[i])
    else exists i :: 0 <= i < |db.accounts| && fk == Some(db.accounts[i].id) && Accepted(p.filters, db.accounts[i])
                     && Means(db, p, {}, db.accounts[i], n, S)
  }

  ghost predicate ChildrenMean(db: Database, p: AccountPlan, id: int, ns: Option<seq<AccountNode>>, S: set<object>)
    reads S
    decreases p, 1
  {
    ns.Some? && exists rows: seq<Account> ::
      && InOrder(db.accounts, ChildOf(p, id), p.order, rows) && |ns.value| == |rows|
      && forall i | 0 <= i < |rows| :: Means(db, p, {ParentAccountID}, rows[i], ns.value[i], S)
  }

  // ------------------------------------------------------------ join rows

  ghost predicate ShownOfJoin(p: AccountGroupPlan, owned: bool, c: JoinColumn) {
    || p.ctx.fields == [] || c in p.ctx.fields || (c == AccountID && (owned || p.account.Some?)) || (c == GroupID && p.group.Some?)
  }

  ghost function JoinOf(p: AccountGroupPlan, id: int): AccountGroup -> bool {
    (r: AccountGroup) => Accepted(p.filters, r) && r.accountID == id
  }

  ghost predicate JoinMeans(db: Database, p: AccountGroupPlan, owned: bool, r: AccountGroup, n: AccountGroupNode, S: set<object>)
    reads S
    decreases p, 0
  {
    && n in S
    && n.fields.accountID == (if ShownOfJoin(p, owned, AccountID) then r.accountID else 0)
    && n.fields.groupID == (if ShownOfJoin(p, owned, GroupID) then r.groupID else 0)
    && n.fields.priority == (if ShownOfJoin(p, owned, JoinPriority) then r.priority else 0)
    && n.fields.createdAt == (if ShownOfJoin(p, owned, JoinCreatedAt) then r.createdAt else 0)
    && n.loadedTypes == [p.account.Some?, p.group.Some?]
    && (match p.account
        case None => n.account == null
        case Some(e) => MeansByKey(db, e, Some(r.accountID), n.account, S))
    && (match p.group
        case None => n.group == null
        case Some(e) => LeafByKey(db.groups, e, Some(r.groupID), n.group, S))
  }

  ghost predicate JoinsMean(db: Database, p: AccountGroupPlan, id: int, ns: Option<seq<AccountGroupNode>>, S: set<object>)
    reads S
    decreases p, 1
  {
    ns.Some? && exists rows: seq<AccountGroup> ::
      && InOrder(db.accountGroups, JoinOf(p, id), p.order, rows) && |ns.value| == |rows|
      && forall i | 0 <= i < |rows| :: JoinMeans(db, p, true, rows[i], ns.value[i], S)
  }

  // ------------------------------------------------------------ whole graphs

  /** The objects show the answer to the query with these predicates, one row each and in its order. */
  ghost predicate GraphMeans(db: Database, p: AccountPlan, filters: seq<Account -> bool>, nodes: seq<AccountNode>, S: set<object>)
    reads S
  {
    exists rows: seq<Account> ::
      && Answer(db.accounts, filters, p.order, p.ctx.offset, p.ctx.limit, rows) && |nodes| == |rows|
      && forall i | 0 <= i < |rows| :: Means(db, p, {}, rows[i], nodes[i], S)
  }

  /** The two rows look the same in the columns that the query shows. */
  ghost predicate Alike(p: AccountGroupPlan, r: AccountGroup, s: AccountGroup) {
    && (ShownOfJoin(p, false, AccountID) ==> r.accountID == s.accountID)
    && (ShownOfJoin(p, false, GroupID) ==> r.groupID == s.groupID)
    && (ShownOfJoin(p, false, JoinPriority) ==> r.priority == s.priority)
    && (ShownOfJoin(p, false, JoinCreatedAt) ==> r.createdAt == s.createdAt)
  }

  /** `kept` is `all` without the rows that look like an earlier one. */
  ghost predicate WithoutCopies(p: AccountGroupPlan, all: seq<AccountGroup>, kept: seq<AccountGroup>) {
    exists at: seq<nat> :: FirstsAt(p, all, kept, at)
  }

  ghost predicate FirstsAt(p: AccountGroupPlan, all: seq<AccountGroup>, kept: seq<AccountGroup>, at: seq<nat>) {
    && |kept| == |at| && (forall k | 0 <= k < |at| :: at[k] < |all| && kept[k] == all[at[k]] && IsFirst(p, all, at[k]))
    && (forall k, l | 0 <= k < l < |at| :: at[k] < at[l])
    && forall i: nat | i < |all| && IsFirst(p, all, i) :: i in at
  }

  ghost predicate IsFirst(p: AccountGroupPlan, all: seq<AccountGroup>, i: nat)
    requires i < |all|
  {
    forall j | 0 <= j < i :: !Alike(p, all[j], all[i])
  }

  /** The answer to a query for join rows, without copies if `DISTINCT` is asked for. */
  ghost predicate JoinAnswer(db: Database, p: AccountGroupPlan, filters: seq<AccountGroup -> bool>, rows: seq<AccountGroup>) {
    exists all, kept: seq<AccountGroup> ::
      && InOrder(db.accountGroups, AcceptedBy(filters), p.order, all)
      && (if p.ctx.unique == Some(true) then WithoutCopies(p, all, kept) else kept == all)
      && Cut(kept, p.ctx.offset, p.ctx.limit, rows)
  }

  ghost predicate JoinGraphMeans(db: Database, p: AccountGroupPlan, filters: seq<AccountGroup -> bool>, nodes: seq<AccountGroupNode>, S: set<object>)
    reads S
  {
    exists rows: seq<AccountGroup> ::
      && JoinAnswer(db, p, filters, rows) && |nodes| == |rows|
      && forall i | 0 <= i < |rows| :: JoinMeans(db, p, false, rows[i], nodes[i], S)
  }

  /** Every edge of the plan reads the table that its name says. */
  predicate RightTables(p: AccountPlan) {
    && (p.groups.Some? ==> p.groups.value.table == Groups) && (p.proxy.Some? ==> p.proxy.value.table == Proxies)
    && (p.usageLogs.Some? ==> p.usageLogs.value.table == UsageLogs)
    && (p.parent.Some? ==> RightTables(p.parent.value)) && (p.children.Some? ==> RightTables(p.children.value))
    && (p.accountGroups.Some? ==> RightJoinTables(p.accountGroups.value))
  }

  predicate RightJoinTables(p: AccountGroupPlan) {
    && (p.account.Some? ==> RightTables(p.account.value)) && (p.group.Some? ==> p.group.value.table == Groups)
  }

  // ---------------------------------------------- the naive join means this

  lemma SelectedMember<T(!new)>(table: seq<T>, filters: seq<T -> bool>, order: seq<T -> int>, x: T)
    ensures x in Selected(table, filters, order) <==> x in table && Accepted(filters, x)
  {
    var kept := FilterAll(table, filters);
    FilterMember(table, y => Passes(filters, y), x);
    OrderByPermutes(kept, order);
    assert x in Selected(table, filters, order) <==> x in multiset(Selected(table, filters, order));
    assert x in kept <==> x in multiset(kept);
  }

  /** Filtering what a query selects gives the wanted rows in order. */
  lemma FilteredInOrder<T(!new)>(table: seq<T>, filters: seq<T -> bool>, order: seq<T -> int>, keep: T -> bool, wanted: T -> bool)
    requires forall x :: wanted(x) == (Accepted(filters, x) && keep(x))
    ensures InOrder(table, wanted, order, Filter(Selected(table, filters, order), keep))
  {
    hide InOrder;
    FilterOrderBy(FilterAll(table, filters), order, keep);
    FilterFilter(table, x => Passes(filters, x), keep, wanted);
    FilterOrderInOrder(table, wanted, order);
  }

  lemma LeafColumnsChosen(e: LeafPlan, owned: bool, fields: seq<string>, k: string)
    requires fields == if owned then WithForeignKey(e.ctx.fields, "account_id") else e.ctx.fields
    ensures k in LeafColumns(e.columns, fields) <==> Chosen(e, owned, k)
  {
    WithoutIdKeepsOthers(fields, "id", k);
  }

  lemma DecodedMeans(e: LeafPlan, owned: bool, fields: seq<string>, r: LeafRow, n: LeafNode, S: set<object>)
    requires fields == if owned then WithForeignKey(e.ctx.fields, "account_id") else e.ctx.fields
    requires n in S && n.fields == DecodeLeaf(r, LeafColumns(e.columns, fields))
    ensures LeafMeans(e, owned, r, n, S)
  {
    hide LeafColumns, Chosen;
    forall k ensures k in LeafColumns(e.columns, fields) <==> Chosen(e, owned, k) {
      LeafColumnsChosen(e, owned, fields, k);
    }
  }

  lemma LeafByKeyMeans(db: Database, e: LeafPlan, fk: Option<int>, n: LeafNode?, S: set<object>)
    requires ShowsLeaf(n, JoinLeaf(db, e, fk), S)
    ensures LeafByKey(LeafRows(db, e.table), e, fk, n, S)
  {
    hide DecodeLeaf, LeafColumns, Filter, LeafMeans;
    var table := LeafRows(db, e.table);
    if fk.Some? {
      var sel := SelectedLeaves(db, e);
      var hits := Filter(sel, LeafIdIs(fk.value));
      forall i | 0 <= i < |table| && fk == Some(table[i].id) && Accepted(e.filters, table[i]) ensures hits != [] {
        SelectedMember(table, e.filters, e.order, table[i]);
        FilterMember(sel, LeafIdIs(fk.value), table[i]);
      }
      if hits != [] {
        assert hits[0] in hits;
        FilterMember(sel, LeafIdIs(fk.value), hits[0]);
        SelectedMember(table, e.filters, e.order, hits[0]);
        var i :| 0 <= i < |table| && table[i] == hits[0];
        DecodedMeans(e, false, e.ctx.fields, table[i], n, S);
      }
    }
  }

  lemma LeafListMeans(e: LeafPlan, owned: bool, fields: seq<string>, table: seq<LeafRow>, wanted: LeafRow -> bool, rows: seq<LeafRow>,
                      ns: Option<seq<LeafNode>>, S: set<object>)
    requires fields == if owned then WithForeignKey(e.ctx.fields, "account_id") else e.ctx.fields
    requires InOrder(table, wanted, e.order, rows) && ShowsLeaves(ns, DecodeLeaves(rows, LeafColumns(e.columns, fields)), S)
    ensures LeavesMean(table, wanted, e, owned, ns, S)
  {
    hide DecodeLeaf, LeafColumns, LeafMeans, InOrder;
    forall i | 0 <= i < |rows| ensures LeafMeans(e, owned, rows[i], ns.value[i], S) {
      DecodedMeans(e, owned, fields, rows[i], ns.value[i], S);
    }
  }

  lemma GroupsMean(db: Database, e: LeafPlan, id: int, ns: Option<seq<LeafNode>>, S: set<object>)
    requires e.table == Groups && ShowsLeaves(ns, JoinGroups(db, e, id), S)
    ensures LeavesMean(db.groups, HasMember(db, e, id), e, false, ns, S)
  {
    hide LeafColumns, LeavesMean, ShowsLeaves, InOrder, Selected, Filter;
    FilteredInOrder(db.groups, e.filters, e.order, InGroupOf(db.accountGroups, id), HasMember(db, e, id));
    LeafListMeans(e, false, e.ctx.fields, db.groups, HasMember(db, e, id), Filter(SelectedLeaves(db, e), InGroupOf(db.accountGroups, id)), ns, S);
  }

  lemma LogsMean(db: Database, e: LeafPlan, id: int, ns: Option<seq<LeafNode>>, S: set<object>)
    requires e.table == UsageLogs && ShowsLeaves(ns, JoinLogs(db, e, id), S)
    ensures LeavesMean(db.usageLogs, OwnedBy(e, id), e, true, ns, S)
  {
    hide LeafColumns, LeavesMean, ShowsLeaves, InOrder, Selected, Filter;
    FilteredInOrder(db.usageLogs, e.filters, e.order, OwnerIs(id), OwnedBy(e, id));
    LeafListMeans(e, true, WithForeignKey(e.ctx.fields, "account_id"), db.usageLogs, OwnedBy(e, id), Filter(SelectedLeaves(db, e), OwnerIs(id)), ns, S);
  }

  /** The selection `fields` of a query is that of the plan with the foreign keys `also`. */
  ghost predicate Widened(p: AccountPlan, also: set<Column>, fields: seq<Column>) {
    && (fields == [] <==> p.ctx.fields == [])
    && forall c :: c in fields <==> c in p.ctx.fields || (fields != [] && c in also)
  }

  lemma FieldsMean(p: AccountPlan, also: set<Column>, fields: seq<Column>, r: Account, a: Account)
    requires Widened(p, also, fields) && IsProjection(a, r, AccountColumns(fields, p.proxy.Some?, p.parent.Some?))
    ensures forall c: Column | !c.Other? :: CellOf(a, c) == if Shown(p, also, c) then CellOf(r, c) else CellOf(ZERO_ACCOUNT, c)
  {
    hide CellOf;
    forall c: Column | !c.Other?
      ensures CellOf(a, c) == if Shown(p, also, c) then CellOf(r, c) else CellOf(ZERO_ACCOUNT, c)
    {
      if fields == [] {
        EveryColumn(c);
      } else {
        hide AccountColumns;
        SelectedColumns(fields, p.proxy.Some?, p.parent.Some?, c);
      }
    }
  }

  lemma EveryColumn(c: Column)
    requires !c.Other?
    ensures c in ALL_COLUMNS
  {
  }

  lemma {:induction false} TreeMeans(db: Database, p: AccountPlan, also: set<Column>, fields: seq<Column>, r: Account, n: AccountNode, S: set<object>)
    requires RightTables(p) && Widened(p, also, fields) && Shows(n, JoinAccount(db, p, fields, r), S)
    ensures Means(db, p, also, r, n, S)
    decreases p, 0
  {
    hide Widened, IsProjection, AccountColumns, LeavesMean, LeafByKey, MeansByKey, ChildrenMean, JoinsMean;
    hide JoinGroups, JoinLeaf, JoinLogs, ShowsLeaf, ShowsLeaves, CellOf;
    FieldsMean(p, also, fields, r, n.fields);
    if p.groups.Some? {
      GroupsMean(db, p.groups.value, r.id, n.groups, S);
    }
    if p.proxy.Some? {
      LeafByKeyMeans(db, p.proxy.value, r.numbers.proxyID, n.proxy, S);
    }
    if p.parent.Some? {
      TreeByKeyMeans(db, p.parent.value, r.numbers.parentAccountID, n.parent, S);
    }
    if p.children.Some? {
      TreesMean(db, p.children.value, r.id, n.children, S);
    }
    if p.usageLogs.Some? {
      LogsMean(db, p.usageLogs.value, r.id, n.usageLogs, S);
    }
    if p.accountGroups.Some? {
      JoinTreesMean(db, p.accountGroups.value, r.id, n.accountGroups, S);
    }
  }

  lemma {:induction false} TreeByKeyMeans(db: Database, p: AccountPlan, fk: Option<int>, n: AccountNode?, S: set<object>)
    requires RightTables(p) && ShowsOption(n, JoinByKey(db, p, fk), S)
    ensures MeansByKey(db, p, fk, n, S)
    decreases p, 1
  {
    hide Means, Shows, JoinAccount, Filter, RightTables;
    if fk.Some? {
      var sel := SelectedAccounts(db, p);
      var hits := Filter(sel, IdIs(fk.value));
      forall i | 0 <= i < |db.accounts| && fk == Some(db.accounts[i].id) && Accepted(p.filters, db.accounts[i]) ensures hits != [] {
        SelectedMember(db.accounts, p.filters, p.order, db.accounts[i]);
        FilterMember(sel, IdIs(fk.value), db.accounts[i]);
      }
      if hits != [] {
        assert hits[0] in hits;
        FilterMember(sel, IdIs(fk.value), hits[0]);
        SelectedMember(db.accounts, p.filters, p.order, hits[0]);
        var i :| 0 <= i < |db.accounts| && db.accounts[i] == hits[0];
        TreeMeans(db, p, {}, p.ctx.fields, db.accounts[i], n, S);
      }
    }
  }

  lemma {:induction false} TreesMean(db: Database, p: AccountPlan, id: int, ns: Option<seq<AccountNode>>, S: set<object>)
    requires RightTables(p) && ShowsAll(ns, JoinChildren(db, p, id), S)
    ensures ChildrenMean(db, p, id, ns, S)
    decreases p, 1
  {
    hide Means, Shows, JoinAccount, Filter, RightTables, InOrder;
    var rows := ChildRows(db, p, id);
    FilteredInOrder(db.accounts, p.filters, p.order, ParentIs(id), ChildOf(p, id));
    forall i | 0 <= i < |rows| ensures Means(db, p, {ParentAccountID}, rows[i], ns.value[i], S) {
      TreeMeans(db, p, {ParentAccountID}, WithForeignKey(p.ctx.fields, ParentAccountID), rows[i], ns.value[i], S);
    }
  }

  lemma {:induction false} JoinTreesMean(db: Database, p: AccountGroupPlan, id: int, ns: Option<seq<AccountGroupNode>>, S: set<object>)
    requires RightJoinTables(p) && ShowsJoins(ns, JoinJoins(db, p, id), S)
    ensures JoinsMean(db, p, id, ns, S)
    decreases p, 1
  {
    hide JoinMeans, ShowsJoin, JoinAccountGroup, Filter, RightJoinTables, InOrder;
    var rows := JoinRowsOf(db, p, id);
    FilteredInOrder(db.accountGroups, p.filters, p.order, JoinAccountIs(id), JoinOf(p, id));
    forall i | 0 <= i < |rows| ensures JoinMeans(db, p, true, rows[i], ns.value[i], S) {
      JoinTreeMeans(db, p, true, WithForeignKey(p.ctx.fields, AccountID), rows[i], ns.value[i], S);
    }
  }

  lemma {:induction false} JoinTreeMeans(db: Database, p: AccountGroupPlan, owned: bool, fields: seq<JoinColumn>, r: AccountGroup, n: AccountGroupNode, S: set<object>)
    requires RightJoinTables(p) && fields == (if owned then WithForeignKey(p.ctx.fields, AccountID) else p.ctx.fields)
    requires ShowsJoin(n, JoinAccountGroup(db, p, fields, r), S)
    ensures JoinMeans(db, p, owned, r, n, S)
    decreases p, 0
  {
    hide MeansByKey, LeafByKey, JoinLeaf, JoinByKey, Shows, ShowsLeaf, JoinColumns, ShownOfJoin;
    forall c | c in [AccountID, GroupID, JoinPriority, JoinCreatedAt]
      ensures c in JoinColumns(fields, p.account.Some?, p.group.Some?) <==> ShownOfJoin(p, owned, c)
    {
      JoinColumnsShown(p, owned, fields, c);
    }
    assert [AccountID, GroupID, JoinPriority, JoinCreatedAt] == ALL_JOIN_COLUMNS;
    if p.account.Some? {
      TreeByKeyMeans(db, p.account.value, Some(r.accountID), n.account, S);
    }
    if p.group.Some? {
      LeafByKeyMeans(db, p.group.value, Some(r.groupID), n.group, S);
    }
  }

  lemma JoinColumnsShown(p: AccountGroupPlan, owned: bool, fields: seq<JoinColumn>, c: JoinColumn)
    requires fields == (if owned then WithForeignKey(p.ctx.fields, AccountID) else p.ctx.fields) && c in ALL_JOIN_COLUMNS
    ensures c in JoinColumns(fields, p.account.Some?, p.group.Some?) <==> ShownOfJoin(p, owned, c)
  {
  }

  /** A graph that shows the naive join of the rows of a query means what the plan says on the tables. */
  lemma BatchMeans(db: Database, p: AccountPlan, filters: seq<Account -> bool>, nodes: seq<AccountNode>, S: set<object>)
    requires RightTables(p) && ShowsBatch(db, p, Window(Selected(db.accounts, filters, p.order), p.ctx.offset, p.ctx.limit), nodes, S)
    ensures GraphMeans(db, p, filters, nodes, S)
  {
    hide Means, Shows, JoinAccount, Answer, RightTables, Window, Selected, Widened;
    var rows := Window(Selected(db.accounts, filters, p.order), p.ctx.offset, p.ctx.limit);
    SelectedAnswers(db.accounts, filters, p.order, p.ctx.offset, p.ctx.limit);
    forall i | 0 <= i < |rows| ensures Means(db, p, {}, rows[i], nodes[i], S) {
      NotWidened(p);
      TreeMeans(db, p, {}, p.ctx.fields, rows[i], nodes[i], S);
    }
  }

  lemma NotWidened(p: AccountPlan)
    ensures Widened(p, {}, p.ctx.fields)
  {
  }

  lemma EmptyAnswer(db: Database, p: AccountPlan, filters: seq<Account -> bool>, nodes: seq<AccountNode>, S: set<object>)
    requires GraphMeans(db, p, filters, nodes, S) && nodes == []
    ensures Answer(db.accounts, filters, p.order, p.ctx.offset, p.ctx.limit, [])
  {
    hide Means, Answer;
    var rows: seq<Account> :| Answer(db.accounts, filters, p.order, p.ctx.offset, p.ctx.limit, rows) && |nodes| == |rows|;
    assert rows == [];
  }

  lemma TwoAnswers(db: Database, p: AccountPlan, filters: seq<Account -> bool>, nodes: seq<AccountNode>, S: set<object>)
    requires GraphMeans(db, p, filters, nodes, S) && |nodes| == 2
    ensures exists r, s :: Answer(db.accounts, filters, p.order, p.ctx.offset, p.ctx.limit, [r, s])
  {
    hide Means, Answer;
    var rows: seq<Account> :| Answer(db.accounts, filters, p.order, p.ctx.offset, p.ctx.limit, rows) && |nodes| == |rows|;
    assert rows == [rows[0], rows[1]];
  }

  // --------------------------------------------------------- join rows, whole

  /** Rows look the same exactly if the query shows the same of them. */
  lemma AlikeIsShown(p: AccountGroupPlan, r: AccountGroup, s: AccountGroup)
    ensures var columns := JoinColumns(p.ctx.fields, p.account.Some?, p.group.Some?);
            Alike(p, r, s) <==> DecodeJoin(r, columns) == DecodeJoin(s, columns)
  {
    assert [AccountID, GroupID, JoinPriority, JoinCreatedAt] == ALL_JOIN_COLUMNS;
    JoinColumnsShown(p, false, p.ctx.fields, AccountID);
    JoinColumnsShown(p, false, p.ctx.fields, GroupID);
    JoinColumnsShown(p, false, p.ctx.fields, JoinPriority);
    JoinColumnsShown(p, false, p.ctx.fields, JoinCreatedAt);
    hide JoinColumns, ShownOfJoin;
  }

  lemma FirstKept(p: AccountGroupPlan, init: seq<AccountGroup>, last: AccountGroup, i: nat)
    requires i < |init|
    ensures IsFirst(p, init + [last], i) <==> IsFirst(p, init, i)
  {
    hide Alike;
    assert (init + [last])[i] == init[i] && forall j | 0 <= j < i :: (init + [last])[j] == init[j];
  }

  /** One more row, which is a copy or not. */
  lemma OneMoreRow(p: AccountGroupPlan, init: seq<AccountGroup>, last: AccountGroup, kept: seq<AccountGroup>, at: seq<nat>)
    requires FirstsAt(p, init, kept, at)
    ensures if IsFirst(p, init + [last], |init|) then FirstsAt(p, init + [last], kept + [last], at + [|init|])
            else FirstsAt(p, init + [last], kept, at)
  {
    hide IsFirst;
    forall i: nat | i < |init| ensures IsFirst(p, init + [last], i) <==> IsFirst(p, init, i) {
      FirstKept(p, init, last, i);
    }
  }

  lemma {:induction false} MergedWithoutCopies(p: AccountGroupPlan, all: seq<AccountGroup>)
    ensures WithoutCopies(p, all, MergeEqual(all, ShownJoin(JoinColumns(p.ctx.fields, p.account.Some?, p.group.Some?))))
  {
    hide Alike, JoinColumns, DecodeJoin, FirstsAt;
    var shown := ShownJoin(JoinColumns(p.ctx.fields, p.account.Some?, p.group.Some?));
    if all == [] {
      NoRows(p);
    } else {
      var n := |all| - 1;
      var init, last := all[..n], all[n];
      assert all == init + [last];
      MergedWithoutCopies(p, init);
      var at: seq<nat> :| FirstsAt(p, init, MergeEqual(init, shown), at);
      OneMoreRow(p, init, last, MergeEqual(init, shown), at);
      MergeKeepsOne(init, shown);
      forall j | 0 <= j < n ensures Alike(p, all[j], last) <==> shown(init[j]) == shown(last) {
        AlikeIsShown(p, all[j], last);
      }
      assert ShownIn(init, shown, shown(last)) <==> !IsFirst(p, all, n);
    }
  }

  lemma NoRows(p: AccountGroupPlan)
    ensures FirstsAt(p, [], [], [])
  {
  }

  lemma JoinRowsAnswer(db: Database, p: AccountGroupPlan, filters: seq<AccountGroup -> bool>)
    ensures JoinAnswer(db, p, filters, RowsOfJoinQuery(db, p.ctx, filters, p.order, p.account.Some?, p.group.Some?))
  {
    hide InOrder, WithoutCopies, Selected, Window, Cut, MergeEqual, JoinColumns;
    var all := Selected(db.accountGroups, filters, p.order);
    SelectedInOrder(db.accountGroups, filters, p.order);
    MergedWithoutCopies(p, all);
    var kept := if p.ctx.unique == Some(true) then MergeEqual(all, ShownJoin(JoinColumns(p.ctx.fields, p.account.Some?, p.group.Some?))) else all;
    WindowCuts(kept, p.ctx.offset, p.ctx.limit);
  }

  lemma JoinBatchMeans(db: Database, p: AccountGroupPlan, filters: seq<AccountGroup -> bool>, nodes: seq<AccountGroupNode>, S: set<object>)
    requires RightJoinTables(p)
    requires ShowsJoinBatch(db, p, RowsOfJoinQuery(db, p.ctx, filters, p.order, p.account.Some?, p.group.Some?), nodes, S)
    ensures JoinGraphMeans(db, p, filters, nodes, S)
  {
    hide JoinMeans, ShowsJoin, JoinAccountGroup, JoinAnswer, RightJoinTables, RowsOfJoinQuery;
    var rows := RowsOfJoinQuery(db, p.ctx, filters, p.order, p.account.Some?, p.group.Some?);
    JoinRowsAnswer(db, p, filters);
    forall i | 0 <= i < |rows| ensures JoinMeans(db, p, false, rows[i], nodes[i], S) {
      JoinTreeMeans(db, p, false, p.ctx.fields, rows[i], nodes[i], S);
    }
  }
}
