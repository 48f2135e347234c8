/**
 Query builders and batched eager loading.

 A builder is a mutable object; its `with…` fields point to the builders of the edges to load.
 Running a builder selects its rows, makes one object per row, and then runs every sub-builder
 once for all of these objects: it adds an `IN` filter to the sub-builder, runs it, and scatters
 the objects it returns over the edge fields through an index.
 */
module EagerLoading {
  import opened Wrappers
  import opened Rows
  import opened AccountCodec
  import opened QueryPlans
  import opened Entities
  import opened Scattering
  import opened Batches
  import opened RepeatedRuns
  import opened Answers
  import opened Graphs

  datatype LockMode = ForUpdate | ForShare

  class QueryContext<C(==)> {
    var fields: seq<C>
    var limit: Option<nat>
    var offset: Option<nat>
    var unique: Option<bool>

    constructor (c: Context<C>)
      ensures Value() == c
    {
      fields, limit, offset, unique := c.fields, c.limit, c.offset, c.unique;
    }

    function Value(): Context<C>
      reads this
    {
      Context(fields, limit, offset, unique)
    }

    method AppendFieldOnce(c: C)
      modifies this`fields
      ensures fields == AddOnce(old(fields), c)
    {
      if c !in fields {
        fields := fields + [c];
      }
    }

    method Clone() returns (c: QueryContext<C>)
      ensures fresh(c) && c.Value() == Value()
    {
      c := new QueryContext(Value());
    }
  }

  // --------------------------------------------------- columns of a query

  /** The column loop of `AccountQuery.querySpec`. */
  method AccountSpecColumns(fields: seq<Column>, withProxy: bool, withParent: bool) returns (columns: seq<Column>)
    ensures columns == AccountColumns(fields, withProxy, withParent)
  {
    columns := ALL_COLUMNS;
    if |fields| > 0 {
      columns := [ID];
      for i := 0 to |fields|
        invariant columns == [ID] + WithoutId(fields[..i], ID)
      {
        assert fields[..i + 1][..i] == fields[..i];
        if fields[i] != ID {
          columns := columns + [fields[i]];
        }
      }
      assert fields[..|fields|] == fields;
      if withProxy && ProxyID !in columns {
        columns := columns + [ProxyID];
      }
      if withParent && ParentAccountID !in columns {
        columns := columns + [ParentAccountID];
      }
    }
  }

  /** The column loop of the leaf builders' `querySpec`. */
  method LeafSpecColumns(all: seq<string>, fields: seq<string>) returns (columns: seq<string>)
    ensures columns == LeafColumns(all, fields)
  {
    columns := all;
    if |fields| > 0 {
      columns := ["id"];
      for i := 0 to |fields|
        invariant columns == ["id"] + WithoutId(fields[..i], "id")
      {
        assert fields[..i + 1][..i] == fields[..i];
        if fields[i] != "id" {
          columns := columns + [fields[i]];
        }
      }
      assert fields[..|fields|] == fields;
    }
  }

  /** The column loop of `AccountGroupQuery.querySpec`: no id is forced, the key is composite. */
  method JoinSpecColumns(fields: seq<JoinColumn>, withAccount: bool, withGroup: bool) returns (columns: seq<JoinColumn>)
    ensures columns == JoinColumns(fields, withAccount, withGroup)
  {
    columns := ALL_JOIN_COLUMNS;
    if |fields| > 0 {
      columns := [];
      for i := 0 to |fields|
        invariant columns == fields[..i]
      {
        columns := columns + [fields[i]];
      }
      if withAccount && AccountID !in columns {
        columns := columns + [AccountID];
      }
      if withGroup && GroupID !in columns {
        columns := columns + [GroupID];
      }
    }
  }

  /** The driver's part: each holder receives the cell of its column. */
  method FillHolders(row: Account, columns: seq<Column>, holders: array<Holder>) returns (values: seq<Holder>)
    requires holders.Length == |columns|
    requires forall i | 0 <= i < |columns| :: holders[i] == HolderFor(columns[i])
    ensures values == RowHolders(row, columns)
  {
    values := [];
    for i := 0 to |columns|
      invariant |values| == i
      invariant forall k | 0 <= k < i :: values[k] == Fill(HolderFor(columns[k]), CellOf(row, columns[k]))
    {
      values := values + [Fill(holders[i], CellOf(row, columns[i]))];
    }
  }

  // ------------------------------------------------------------ leaf builders

  /**
   The builder of groups, proxies or usage logs, whose own edges are not modelled.  `joins` holds
   the join clauses that many-to-many loaders add.
   */
  class LeafQuery {
    const table: LeafTable
    const columns: seq<string>
    var ctx: QueryContext<string>
    var order: seq<LeafRow -> int>
    var inters: seq<LeafRow -> bool>
    var predicates: seq<LeafRow -> bool>
    var joins: seq<seq<int>>
    var modifiers: seq<LockMode>

    constructor (table: LeafTable, columns: seq<string>, inters: seq<LeafRow -> bool>)
      requires WellFormed(table, columns)
      ensures Valid() && fresh(ctx)
      ensures Denote() == LeafPlan(table, columns, Context([], None, None, None), [], inters, [])
      ensures joins == [] && modifiers == [] && this.inters == inters && predicates == []
    {
      this.table, this.columns, this.inters := table, columns, inters;
      order, predicates, joins, modifiers := [], [], [], [];
      ctx := new QueryContext(Context([], None, None, None));
    }

    ghost predicate Valid() {
      WellFormed(table, columns)
    }

    /** `R` is this builder and its context, and nothing else. */
    ghost predicate Owns(R: set<object>, table: LeafTable)
      reads this
    {
      R == {this, ctx} && Valid() && this.table == table
    }

    ghost function Denote(): LeafPlan
      reads this, ctx
    {
      LeafPlan(table, columns, ctx.Value(), order, predicates + inters, joins)
    }

    method Where(p: LeafRow -> bool)
      modifies this`predicates
      ensures predicates == old(predicates) + [p]
    {
      predicates := predicates + [p];
    }

    /** Runs the traversers, which add their predicates, and checks the selected fields. */
    method PrepareQuery() returns (err: Option<QueryError>)
      modifies this`predicates
      ensures predicates == old(predicates) + inters
      ensures err.None? <==> LeafFieldsValid(Denote())
      ensures err.Some? ==> err == Some(InvalidField)
    {
      for i := 0 to |inters|
        invariant predicates == old(predicates) + inters[..i]
      {
        predicates := predicates + [inters[i]];
      }
      assert inters[..|inters|] == inters;
      for i := 0 to |ctx.fields|
        invariant forall k | 0 <= k < i :: ctx.fields[k] in columns
      {
        if ctx.fields[i] !in columns {
          return Some(InvalidField);
        }
      }
      return None;
    }

    /** One object per selected row. */
    method SqlAll(db: Database) returns (nodes: seq<LeafNode>, ghost S: set<object>)
      requires Unwindowed(ctx.Value())
      ensures fresh(S)
      ensures var rows := Selected(LeafRows(db, table), predicates, order);
              ShowsLeaves(Some(nodes), DecodeLeaves(rows, LeafColumns(columns, ctx.fields)), S)
    {
      var selected := LeafSpecColumns(columns, ctx.fields);
      var rows := Selected(LeafRows(db, table), predicates, order);
      nodes, S := [], {};
      for i := 0 to |rows|
        invariant fresh(S) && |nodes| == i
        invariant forall k | 0 <= k < i :: nodes[k] in S && nodes[k].fields == DecodeLeaf(rows[k], selected)
      {
        var node := new LeafNode(DecodeLeaf(rows[i], selected));
        nodes, S := nodes + [node], S + {node};
      }
    }

    method All(db: Database) returns (err: Option<QueryError>, nodes: seq<LeafNode>, ghost S: set<object>)
      requires Unwindowed(ctx.Value())
      modifies this`predicates
      ensures predicates == old(predicates) + inters
      ensures err.None? <==> LeafFieldsValid(Denote())
      ensures fresh(S)
      ensures err.None? ==> var rows := Selected(LeafRows(db, table), predicates, order);
                            ShowsLeaves(Some(nodes), DecodeLeaves(rows, LeafColumns(columns, ctx.fields)), S)
    {
      err := PrepareQuery();
      nodes, S := [], {};
      if err.None? {
        nodes, S := SqlAll(db);
      }
    }

    /** `query.Where(….IDIn(ids...))` and `query.All`. */
    method AllWithIds(db: Database, ids: seq<int>) returns (err: Option<QueryError>, neighbors: seq<LeafNode>, ghost S: set<object>)
      requires Valid() && Unwindowed(ctx.Value())
      modifies this`predicates
      ensures fresh(S)
      ensures err.None? <==> LeafFieldsValid(old(Denote()))
      ensures err.None? ==> LeafIdBatch(db, old(Denote()), ids, neighbors, S)
      ensures Denote() == old(Denote()).(filters := predicates + inters)
      ensures SelectedLeaves(db, Denote()) == Selected(LeafRows(db, table), old(Denote()).filters + [LeafIdIn(ids)], order)
    {
      ghost var p, before := Denote(), predicates;
      Where(LeafIdIn(ids));
      err, neighbors, S := All(db);
      SelectedTraversed(LeafRows(db, table), before + [LeafIdIn(ids)], inters, order);
      SelectedLoadFilter(LeafRows(db, table), before, LeafIdIn(ids), inters, order);
      if err.None? {
        BatchMember(LeafRows(db, table), p.filters, p.order, LeafIdIn(ids));
        assert LeafColumns(columns, ctx.fields)[0] == "id";
      }
    }

    /** The query of `loadUsageLogs`: the foreign key is selected too, and the rows are those of the given accounts. */
    method AllOwnedBy(db: Database, ids: seq<int>) returns (err: Option<QueryError>, neighbors: seq<LeafNode>, ghost S: set<object>)
      requires Valid() && table == UsageLogs && Unwindowed(ctx.Value())
      modifies this`predicates, ctx`fields
      ensures fresh(S)
      ensures err.None? <==> LeafFieldsValid(old(Denote()))
      ensures err.None? ==> LogBatch(db, old(Denote()), ids, neighbors, S)
      ensures Denote() == old(Denote()).(ctx := old(ctx.Value()).(fields := WithForeignKey(old(ctx.fields), "account_id")),
                                         filters := predicates + inters)
      ensures SelectedLeaves(db, Denote()) == Selected(LeafRows(db, table), old(Denote()).filters + [OwnerIn(ids)], order)
    {
      ghost var p, before := Denote(), predicates;
      if |ctx.fields| > 0 {
        ctx.AppendFieldOnce("account_id");
      }
      AddedFieldValid(p, ctx.fields);
      Where(OwnerIn(ids));
      err, neighbors, S := All(db);
      SelectedTraversed(LeafRows(db, table), before + [OwnerIn(ids)], inters, order);
      SelectedLoadFilter(LeafRows(db, table), before, OwnerIn(ids), inters, order);
      if err.None? {
        ghost var rows := Selected(LeafRows(db, table), p.filters + [OwnerIn(ids)], p.order);
        BatchMember(LeafRows(db, table), p.filters, p.order, OwnerIn(ids));
        WithoutIdKeepsOthers(ctx.fields, "id", "account_id");
        assert OwnerKeys(neighbors) == Keys(rows, OwnerKey);
      }
    }

    /** Adding a column of the table does not change whether the selected fields are valid. */
    static lemma AddedFieldValid(p: LeafPlan, fields: seq<string>)
      requires "account_id" in p.columns && fields == WithForeignKey(p.ctx.fields, "account_id")
      ensures LeafFieldsValid(p.(ctx := p.ctx.(fields := fields))) <==> LeafFieldsValid(p)
    {
      forall i | 0 <= i < |p.ctx.fields| ensures fields[i] == p.ctx.fields[i] { }
    }

    /** The query of `loadGroups`: the join clause is added, and the hooked `sqlAll` collects the joined rows. */
    method AllJoinedTo(db: Database, edgeIDs: seq<int>, byID: map<int, AccountNode>)
        returns (err: Option<QueryError>, neighbors: seq<LeafNode>, nids: map<int, set<AccountNode>>, ghost S: set<object>)
      requires Valid() && Unwindowed(ctx.Value()) && joins == []
      requires forall k | k in edgeIDs :: k in byID
      modifies this`predicates, this`joins
      ensures fresh(S)
      ensures err.None? <==> LeafFieldsValid(old(Denote()))
      ensures err.None? ==> GroupBatch(db, old(Denote()), edgeIDs, byID, neighbors, nids, S)
    {
      joins := joins + [edgeIDs];
      err := PrepareQuery();
      neighbors, nids, S := [], map[], {};
      if err.None? {
        var rows := JoinRows(Selected(LeafRows(db, table), predicates, order), db.accountGroups, edgeIDs);
        var selected := LeafSpecColumns(columns, ctx.fields);
        forall i | 0 <= i < |rows| ensures rows[i].account in byID {
          JoinRowsValid(Selected(LeafRows(db, table), predicates, order), db.accountGroups, edgeIDs, i);
        }
        neighbors, nids, S := CollectJoined(rows, selected, byID);
      }
    }

    method Clone() returns (c: LeafQuery)
      requires Valid()
      ensures fresh(c) && fresh(c.ctx) && c.Valid()
      ensures c.Denote() == Denote() && c.predicates == predicates && c.inters == inters && c.joins == joins
      ensures c.modifiers == []
    {
      c := new LeafQuery(table, columns, inters);
      c.ctx := ctx.Clone();
      c.order, c.predicates, c.joins := order, predicates, joins;
    }
  }

  // -------------------------------------------------------- account builders

  /** The field loop of `prepareQuery`. */
  method CheckAccountFields(fields: seq<Column>) returns (err: Option<QueryError>)
    ensures err == if AccountFieldsValid(fields) then None else Some(InvalidField)
  {
    for i := 0 to |fields|
      invariant forall k | 0 <= k < i :: fields[k] in ALL_COLUMNS
    {
      if fields[i] !in ALL_COLUMNS {
        return Some(InvalidField);
      }
    }
    return None;
  }

  method CheckJoinFields(fields: seq<JoinColumn>) returns (err: Option<QueryError>)
    ensures err == if JoinFieldsValid(fields) then None else Some(InvalidField)
  {
    for i := 0 to |fields|
      invariant forall k | 0 <= k < i :: fields[k] in ALL_JOIN_COLUMNS
    {
      if fields[i] !in ALL_JOIN_COLUMNS {
        return Some(InvalidField);
      }
    }
    return None;
  }

  /** The plans of a builder's edges. */
  datatype EdgePlans = EdgePlans(
    groups: Option<LeafPlan>, proxy: Option<LeafPlan>,
    parent: Option<AccountPlan>, children: Option<AccountPlan>,
    usageLogs: Option<LeafPlan>, accountGroups: Option<AccountGroupPlan>)

  function PlanWith(ctx: Context<Column>, order: seq<Account -> int>, filters: seq<Account -> bool>, e: EdgePlans): AccountPlan {
    AccountPlan(ctx, order, filters, e.groups, e.proxy, e.parent, e.children, e.usageLogs, e.accountGroups)
  }

  ghost predicate Apart(a: set<object>, b: set<object>, c: set<object>, d: set<object>, e: set<object>, f: set<object>) {
    && a !! b && a !! c && a !! d && a !! e && a !! f && b !! c && b !! d && b !! e && b !! f
    && c !! d && c !! e && c !! f && d !! e && d !! f && e !! f
  }

  class AccountQuery {
    var ctx: QueryContext<Column>
    var order: seq<Account -> int>
    var inters: seq<Account -> bool>
    var predicates: seq<Account -> bool>
    var withGroups: LeafQuery?
    var withProxy: LeafQuery?
    var withParent: AccountQuery?
    var withChildren: AccountQuery?
    var withUsageLogs: LeafQuery?
    var withAccountGroups: AccountGroupQuery?
    var modifiers: seq<LockMode>
    // The objects below each edge.
    ghost var groupsRepr: set<object>
    ghost var proxyRepr: set<object>
    ghost var parentRepr: set<object>
    ghost var childrenRepr: set<object>
    ghost var logsRepr: set<object>
    ghost var joinsRepr: set<object>

    constructor (inters: seq<Account -> bool>)
      ensures Valid() && fresh(Repr())
      ensures Denote() == AccountPlan(Context([], None, None, None), [], inters, None, None, None, None, None, None)
      ensures predicates == [] && this.inters == inters && modifiers == []
    {
      this.inters := inters;
      order, predicates, modifiers := [], [], [];
      withGroups, withProxy, withParent, withChildren, withUsageLogs, withAccountGroups := null, null, null, null, null, null;
      groupsRepr, proxyRepr, parentRepr, childrenRepr, logsRepr, joinsRepr := {}, {}, {}, {}, {}, {};
      ctx := new QueryContext(Context([], None, None, None));
      new;
      assert Below() == {};
      assert Edges() == EdgePlans(None, None, None, None, None, None);
    }

    /** The objects of this builder and of all builders below it. */
    ghost function Repr(): set<object>
      reads this
    {
      {this, ctx} + Below()
    }

    /** The objects below the edges. */
    ghost function Below(): set<object>
      reads this`groupsRepr, this`proxyRepr, this`parentRepr, this`childrenRepr, this`logsRepr, this`joinsRepr
    {
      groupsRepr + proxyRepr + parentRepr + childrenRepr + logsRepr + joinsRepr
    }

    ghost predicate Valid()
      reads this, Repr()
      decreases Repr(), 2
    {
      this !in Below() && ctx !in Below() && EdgesValid()
    }

    /** The builders form a tree: no object belongs to two edges. */
    ghost predicate EdgesValid()
      requires this !in Below()
      reads this`withGroups, this`withProxy, this`withParent, this`withChildren, this`withUsageLogs, this`withAccountGroups
      reads this`groupsRepr, this`proxyRepr, this`parentRepr, this`childrenRepr, this`logsRepr, this`joinsRepr
      reads Below()
      decreases Below(), 6
    {
      && Apart(groupsRepr, proxyRepr, parentRepr, childrenRepr, logsRepr, joinsRepr)
      && GroupsValid() && ProxyValid() && ParentValid() && ChildrenValid() && LogsValid() && JoinsValid()
    }

    ghost function Edges(): EdgePlans
      reads this`withGroups, this`withProxy, this`withParent, this`withChildren, this`withUsageLogs, this`withAccountGroups
      reads this`groupsRepr, this`proxyRepr, this`parentRepr, this`childrenRepr, this`logsRepr, this`joinsRepr
      reads Below()
      decreases Below() + {this}, 7
    {
      EdgePlans(GroupsPlan(), ProxyPlan(), ParentPlan(), ChildrenPlan(), LogsPlan(), JoinsPlan())
    }

    ghost predicate GroupsValid()
      reads this`withGroups, this`groupsRepr, groupsRepr
    {
      withGroups != null ==> withGroups in groupsRepr && withGroups.Owns(groupsRepr, Groups)
    }

    ghost predicate ProxyValid()
      reads this`withProxy, this`proxyRepr, proxyRepr
    {
      withProxy != null ==> withProxy in proxyRepr && withProxy.Owns(proxyRepr, Proxies)
    }

    ghost predicate LogsValid()
      reads this`withUsageLogs, this`logsRepr, logsRepr
    {
      withUsageLogs != null ==> withUsageLogs in logsRepr && withUsageLogs.Owns(logsRepr, UsageLogs)
    }

    ghost predicate ParentValid()
      reads this`withParent, this`parentRepr, parentRepr
      decreases parentRepr, 4
    {
      withParent != null ==>
        && this !in parentRepr && withParent in parentRepr
        && withParent.Repr() == parentRepr && withParent.Valid()
    }

    ghost predicate ChildrenValid()
      reads this`withChildren, this`childrenRepr, childrenRepr
      decreases childrenRepr, 4
    {
      withChildren != null ==>
        && this !in childrenRepr && withChildren in childrenRepr
        && withChildren.Repr() == childrenRepr && withChildren.Valid()
    }

    ghost predicate JoinsValid()
      reads this`withAccountGroups, this`joinsRepr, joinsRepr
      decreases joinsRepr, 4
    {
      withAccountGroups != null ==>
        && this !in joinsRepr && withAccountGroups in joinsRepr
        && withAccountGroups.Repr() == joinsRepr && withAccountGroups.Valid()
    }

    /** What the builder says. */
    ghost function Denote(): AccountPlan
      reads this, Repr()
      decreases Repr(), 8
    {
      PlanWith(ctx.Value(), order, predicates + inters, Edges())
    }

    ghost function GroupsPlan(): Option<LeafPlan>
      reads this`withGroups, this`groupsRepr, groupsRepr
    {
      if withGroups == null || !GroupsValid() then None else Some(withGroups.Denote())
    }

    ghost function ProxyPlan(): Option<LeafPlan>
      reads this`withProxy, this`proxyRepr, proxyRepr
    {
      if withProxy == null || !ProxyValid() then None else Some(withProxy.Denote())
    }

    ghost function LogsPlan(): Option<LeafPlan>
      reads this`withUsageLogs, this`logsRepr, logsRepr
    {
      if withUsageLogs == null || !LogsValid() then None else Some(withUsageLogs.Denote())
    }

    ghost function ParentPlan(): Option<AccountPlan>
      reads this`withParent, this`parentRepr, parentRepr
      decreases parentRepr + {this}, 5
    {
      if withParent == null || !ParentValid() then None else Some(withParent.Denote())
    }

    ghost function ChildrenPlan(): Option<AccountPlan>
      reads this`withChildren, this`childrenRepr, childrenRepr
      decreases childrenRepr + {this}, 5
    {
      if withChildren == null || !ChildrenValid() then None else Some(withChildren.Denote())
    }

    ghost function JoinsPlan(): Option<AccountGroupPlan>
      reads this`withAccountGroups, this`joinsRepr, joinsRepr
      decreases joinsRepr + {this}, 5
    {
      if withAccountGroups == null || !JoinsValid() then None else Some(withAccountGroups.Denote())
    }

    /** Every builder below reads the table of its edge. */
    lemma RightPlan()
      requires Valid()
      ensures RightTables(Denote())
      decreases Repr(), 9
    {
      ParentRight();
      ChildrenRight();
      JoinsRight();
    }

    lemma ParentRight()
      requires Valid()
      ensures ParentPlan().Some? ==> RightTables(ParentPlan().value)
      decreases Repr(), 8
    {
      if withParent != null && ParentValid() {
        withParent.RightPlan();
      }
    }

    lemma ChildrenRight()
      requires Valid()
      ensures ChildrenPlan().Some? ==> RightTables(ChildrenPlan().value)
      decreases Repr(), 8
    {
      if withChildren != null && ChildrenValid() {
        withChildren.RightPlan();
      }
    }

    lemma JoinsRight()
      requires Valid()
      ensures JoinsPlan().Some? ==> RightJoinTables(JoinsPlan().value)
      decreases Repr(), 8
    {
      if withAccountGroups != null && JoinsValid() {
        withAccountGroups.RightPlan();
      }
    }

    method Where(p: Account -> bool)
      requires Valid()
      modifies this`predicates
      ensures Valid() && predicates == old(predicates) + [p]
      ensures Denote() == old(Denote()).(filters := predicates + inters)
    {
      hide EdgesValid, Edges;
      predicates := predicates + [p];
    }

    // `With…` takes the builder that the options have configured; it belongs to no other builder.

    method WithGroups(query: LeafQuery)
      requires Valid() && query.Owns({query, query.ctx}, Groups) && {query, query.ctx} !! Repr()
      modifies this`withGroups, this`groupsRepr
      ensures Valid() && Repr() <= old(Repr()) + {query, query.ctx}
      ensures Denote() == old(Denote()).(groups := Some(old(query.Denote())))
    {
      hide ProxyValid, ProxyPlan, ParentValid, ParentPlan, ChildrenValid, ChildrenPlan, LogsValid, LogsPlan, JoinsValid, JoinsPlan;
      withGroups := query;
      groupsRepr := {query, query.ctx};
    }

    method WithProxy(query: LeafQuery)
      requires Valid() && query.Owns({query, query.ctx}, Proxies) && {query, query.ctx} !! Repr()
      modifies this`withProxy, this`proxyRepr
      ensures Valid() && Repr() <= old(Repr()) + {query, query.ctx}
      ensures Denote() == old(Denote()).(proxy := Some(old(query.Denote())))
    {
      hide GroupsValid, GroupsPlan, ParentValid, ParentPlan, ChildrenValid, ChildrenPlan, LogsValid, LogsPlan, JoinsValid, JoinsPlan;
      withProxy := query;
      proxyRepr := {query, query.ctx};
    }

    /** The part of `WithParent` that keeps the builders a tree. */
    method PutParent(query: AccountQuery)
      requires Valid() && query.Valid() && query.Repr() !! Repr()
      modifies this`withParent, this`parentRepr
      ensures Valid() && withParent == query && parentRepr == query.Repr()
    {
      hide GroupsValid, ProxyValid, ChildrenValid, LogsValid, JoinsValid;
      withParent := query;
      parentRepr := query.Repr();
      assert ParentValid();
    }

    /** The edge says what the sub-builder says, and the other edges say what they said. */
    method SetParent(query: AccountQuery)
      requires Valid() && query.Valid() && query.Repr() !! Repr()
      modifies this`withParent, this`parentRepr
      ensures Valid() && parentRepr == query.Repr()
      ensures Edges() == old(Edges()).(parent := Some(old(query.Denote())))
    {
      hide EdgesValid, Apart, Denote, GroupsPlan, ProxyPlan, ChildrenPlan, LogsPlan, JoinsPlan;
      hide GroupsValid, ProxyValid, ChildrenValid, LogsValid, JoinsValid, AccountGroupQuery.Valid, LeafQuery.Owns;
      ghost var said := query.Denote();
      PutParent(query);
      assert query.Denote() == said;
      assert ParentPlan() == Some(query.Denote()) by {
        assert ParentValid();
      }
    }

    method WithParent(query: AccountQuery)
      requires Valid() && query.Valid() && query.Repr() !! Repr()
      modifies this`withParent, this`parentRepr
      ensures Valid() && Repr() <= old(Repr()) + query.Repr()
      ensures Denote() == old(Denote()).(parent := Some(old(query.Denote())))
    {
      hide EdgesValid, Edges;
      SetParent(query);
    }

    /** The part of `WithChildren` that keeps the builders a tree. */
    method PutChildren(query: AccountQuery)
      requires Valid() && query.Valid() && query.Repr() !! Repr()
      modifies this`withChildren, this`childrenRepr
      ensures Valid() && withChildren == query && childrenRepr == query.Repr()
    {
      hide GroupsValid, ProxyValid, ParentValid, LogsValid, JoinsValid;
      withChildren := query;
      childrenRepr := query.Repr();
      assert ChildrenValid();
    }

    /** The edge says what the sub-builder says, and the other edges say what they said. */
    method SetChildren(query: AccountQuery)
      requires Valid() && query.Valid() && query.Repr() !! Repr()
      modifies this`withChildren, this`childrenRepr
      ensures Valid() && childrenRepr == query.Repr()
      ensures Edges() == old(Edges()).(children := Some(old(query.Denote())))
    {
      hide EdgesValid, Apart, Denote, GroupsPlan, ProxyPlan, ParentPlan, LogsPlan, JoinsPlan;
      hide GroupsValid, ProxyValid, ParentValid, LogsValid, JoinsValid, AccountGroupQuery.Valid, LeafQuery.Owns;
      ghost var said := query.Denote();
      PutChildren(query);
      assert query.Denote() == said;
      assert ChildrenPlan() == Some(query.Denote()) by {
        assert ChildrenValid();
      }
    }

    method WithChildren(query: AccountQuery)
      requires Valid() && query.Valid() && query.Repr() !! Repr()
      modifies this`withChildren, this`childrenRepr
      ensures Valid() && Repr() <= old(Repr()) + query.Repr()
      ensures Denote() == old(Denote()).(children := Some(old(query.Denote())))
    {
      hide EdgesValid, Edges;
      SetChildren(query);
    }

    method WithUsageLogs(query: LeafQuery)
      requires Valid() && query.Owns({query, query.ctx}, UsageLogs) && {query, query.ctx} !! Repr()
      modifies this`withUsageLogs, this`logsRepr
      ensures Valid() && Repr() <= old(Repr()) + {query, query.ctx}
      ensures Denote() == old(Denote()).(usageLogs := Some(old(query.Denote())))
    {
      hide GroupsValid, GroupsPlan, ProxyValid, ProxyPlan, ParentValid, ParentPlan, ChildrenValid, ChildrenPlan, JoinsValid, JoinsPlan;
      withUsageLogs := query;
      logsRepr := {query, query.ctx};
    }

    /** The part of `WithAccountGroups` that keeps the builders a tree. */
    method PutJoins(query: AccountGroupQuery)
      requires Valid() && query.Valid() && query.Repr() !! Repr()
      modifies this`withAccountGroups, this`joinsRepr
      ensures Valid() && withAccountGroups == query && joinsRepr == query.Repr()
    {
      hide GroupsValid, ProxyValid, ParentValid, ChildrenValid, LogsValid;
      withAccountGroups := query;
      joinsRepr := query.Repr();
      assert JoinsValid();
    }

    /** The edge says what the sub-builder says, and the other edges say what they said. */
    method SetJoins(query: AccountGroupQuery)
      requires Valid() && query.Valid() && query.Repr() !! Repr()
      modifies this`withAccountGroups, this`joinsRepr
      ensures Valid() && joinsRepr == query.Repr()
      ensures Edges() == old(Edges()).(accountGroups := Some(old(query.Denote())))
    {
      hide EdgesValid, Apart, Denote, GroupsPlan, ProxyPlan, ParentPlan, ChildrenPlan, LogsPlan;
      hide GroupsValid, ProxyValid, ParentValid, ChildrenValid, LogsValid, LeafQuery.Owns;
      ghost var said := query.Denote();
      PutJoins(query);
      assert query.Denote() == said;
      assert JoinsPlan() == Some(query.Denote()) by {
        assert JoinsValid();
      }
    }

    method WithAccountGroups(query: AccountGroupQuery)
      requires Valid() && query.Valid() && query.Repr() !! Repr()
      modifies this`withAccountGroups, this`joinsRepr
      ensures Valid() && Repr() <= old(Repr()) + query.Repr()
      ensures Denote() == old(Denote()).(accountGroups := Some(old(query.Denote())))
    {
      hide EdgesValid, Edges;
      SetJoins(query);
    }

    static ghost function LeafPlanOf(q: LeafQuery?): Option<LeafPlan>
      reads q, if q == null then {} else {q.ctx}
    {
      if q == null then None else Some(q.Denote())
    }

    static ghost function AccountPlanOf(q: AccountQuery?): Option<AccountPlan>
      reads q, if q == null then {} else q.Repr()
    {
      if q == null then None else Some(q.Denote())
    }

    static ghost function JoinPlanOf(q: AccountGroupQuery?): Option<AccountGroupPlan>
      reads q, if q == null then {} else q.Repr()
    {
      if q == null then None else Some(q.Denote())
    }

    // The copies of the edges; an edge that is not requested has none.

    method CloneGroups() returns (c: LeafQuery?, ghost R: set<object>)
      requires Valid()
      decreases Repr(), 0
      ensures fresh(R) && LeafPlanOf(c) == GroupsPlan()
      ensures c != null ==> c.Owns(R, Groups) && c in R
    {
      c, R := null, {};
      if withGroups != null {
        assert GroupsValid();
        c := withGroups.Clone();
        R := {c, c.ctx};
      }
    }

    method CloneProxy() returns (c: LeafQuery?, ghost R: set<object>)
      requires Valid()
      decreases Repr(), 0
      ensures fresh(R) && LeafPlanOf(c) == ProxyPlan()
      ensures c != null ==> c.Owns(R, Proxies) && c in R
    {
      c, R := null, {};
      if withProxy != null {
        assert ProxyValid();
        c := withProxy.Clone();
        R := {c, c.ctx};
      }
    }

    method CloneParent() returns (c: AccountQuery?, ghost R: set<object>)
      requires Valid()
      decreases Repr(), 0
      ensures fresh(R) && AccountPlanOf(c) == ParentPlan()
      ensures c != null ==> c.Valid() && c.Repr() == R && c in R
    {
      c, R := null, {};
      if withParent != null {
        assert ParentValid();
        c := withParent.Clone();
        R := c.Repr();
      }
    }

    method CloneChildren() returns (c: AccountQuery?, ghost R: set<object>)
      requires Valid()
      decreases Repr(), 0
      ensures fresh(R) && AccountPlanOf(c) == ChildrenPlan()
      ensures c != null ==> c.Valid() && c.Repr() == R && c in R
    {
      c, R := null, {};
      if withChildren != null {
        assert ChildrenValid();
        c := withChildren.Clone();
        R := c.Repr();
      }
    }

    method CloneUsageLogs() returns (c: LeafQuery?, ghost R: set<object>)
      requires Valid()
      decreases Repr(), 0
      ensures fresh(R) && LeafPlanOf(c) == LogsPlan()
      ensures c != null ==> c.Owns(R, UsageLogs) && c in R
    {
      c, R := null, {};
      if withUsageLogs != null {
        assert LogsValid();
        c := withUsageLogs.Clone();
        R := {c, c.ctx};
      }
    }

    method CloneAccountGroups() returns (c: AccountGroupQuery?, ghost R: set<object>)
      requires Valid()
      decreases Repr(), 0
      ensures fresh(R) && JoinPlanOf(c) == JoinsPlan()
      ensures c != null ==> c.Valid() && c.Repr() == R && c in R
    {
      c, R := null, {};
      if withAccountGroups != null {
        assert JoinsValid();
        c := withAccountGroups.Clone();
        R := c.Repr();
      }
    }

    /** Valid edges say what their builders say. */
    lemma EdgesAre(e: EdgePlans)
      requires GroupsValid() && ProxyValid() && ParentValid() && ChildrenValid() && LogsValid() && JoinsValid()
      requires LeafPlanOf(withGroups) == e.groups && LeafPlanOf(withProxy) == e.proxy && AccountPlanOf(withParent) == e.parent
      requires AccountPlanOf(withChildren) == e.children && LeafPlanOf(withUsageLogs) == e.usageLogs
      requires JoinPlanOf(withAccountGroups) == e.accountGroups
      ensures Edges() == e
    {
      hide AccountQuery.Denote, AccountGroupQuery.Denote, LeafQuery.Denote;
    }

    /** A builder made of the given parts. */
    constructor Of(ctx: QueryContext<Column>, order: seq<Account -> int>, inters: seq<Account -> bool>, predicates: seq<Account -> bool>,
                   groups: LeafQuery?, proxy: LeafQuery?, parent: AccountQuery?, children: AccountQuery?,
                   usageLogs: LeafQuery?, accountGroups: AccountGroupQuery?,
                   ghost R1: set<object>, ghost R2: set<object>, ghost R3: set<object>,
                   ghost R4: set<object>, ghost R5: set<object>, ghost R6: set<object>, ghost F: set<object>)
      requires Apart(R1, R2, R3, R4, R5, R6) && ctx !in F && R1 + R2 + R3 + R4 + R5 + R6 <= F
      requires groups != null ==> groups in R1 && groups.Owns(R1, Groups)
      requires proxy != null ==> proxy in R2 && proxy.Owns(R2, Proxies)
      requires parent != null ==> parent in R3 && parent.Valid() && parent.Repr() == R3
      requires children != null ==> children in R4 && children.Valid() && children.Repr() == R4
      requires usageLogs != null ==> usageLogs in R5 && usageLogs.Owns(R5, UsageLogs)
      requires accountGroups != null ==> accountGroups in R6 && accountGroups.Valid() && accountGroups.Repr() == R6
      ensures Valid() && Repr() <= {this, ctx} + F
      ensures this.ctx == ctx && this.order == order && this.predicates == predicates && this.inters == inters && modifiers == []
      ensures withGroups == groups && withProxy == proxy && withParent == parent
      ensures withChildren == children && withUsageLogs == usageLogs && withAccountGroups == accountGroups
    {
      this.ctx, this.order, this.inters, this.predicates := ctx, order, inters, predicates;
      withGroups, withProxy, withParent, withChildren := groups, proxy, parent, children;
      withUsageLogs, withAccountGroups, modifiers := usageLogs, accountGroups, [];
      groupsRepr, proxyRepr, parentRepr, childrenRepr, logsRepr, joinsRepr := R1, R2, R3, R4, R5, R6;
      new;
      hide Apart;
      assert ParentValid();
      assert ChildrenValid();
      assert JoinsValid();
      hide ParentValid, ChildrenValid, JoinsValid;
    }

    /** The copies of the first three edges share no object. */
    method CloneThree() returns (groups: LeafQuery?, proxy: LeafQuery?, parent: AccountQuery?,
                                 ghost R1: set<object>, ghost R2: set<object>, ghost R3: set<object>, ghost F: set<object>)
      requires Valid()
      decreases Repr(), 1
      ensures fresh(F) && R1 + R2 + R3 <= F && R1 !! R2 && R1 !! R3 && R2 !! R3
      ensures groups != null ==> groups in R1 && groups.Owns(R1, Groups)
      ensures proxy != null ==> proxy in R2 && proxy.Owns(R2, Proxies)
      ensures parent != null ==> parent in R3 && parent.Valid() && parent.Repr() == R3
      ensures GroupsPlan() == LeafPlanOf(groups) && ProxyPlan() == LeafPlanOf(proxy) && ParentPlan() == AccountPlanOf(parent)
    {
      hide GroupsPlan, ProxyPlan, ParentPlan, ChildrenPlan, LogsPlan, JoinsPlan, EdgesValid, LeafPlanOf, AccountPlanOf, JoinPlanOf;
      groups, R1 := CloneGroups();
      proxy, R2 := CloneProxy();
      parent, R3 := CloneParent();
      F := R1 + R2 + R3;
    }

    /** The copies of the other three edges share no object. */
    method CloneOtherThree() returns (children: AccountQuery?, usageLogs: LeafQuery?, accountGroups: AccountGroupQuery?,
                                      ghost R4: set<object>, ghost R5: set<object>, ghost R6: set<object>, ghost F: set<object>)
      requires Valid()
      decreases Repr(), 1
      ensures fresh(F) && R4 + R5 + R6 <= F && R4 !! R5 && R4 !! R6 && R5 !! R6
      ensures children != null ==> children in R4 && children.Valid() && children.Repr() == R4
      ensures usageLogs != null ==> usageLogs in R5 && usageLogs.Owns(R5, UsageLogs)
      ensures accountGroups != null ==> accountGroups in R6 && accountGroups.Valid() && accountGroups.Repr() == R6
      ensures ChildrenPlan() == AccountPlanOf(children) && LogsPlan() == LeafPlanOf(usageLogs) && JoinsPlan() == JoinPlanOf(accountGroups)
    {
      hide GroupsPlan, ProxyPlan, ParentPlan, ChildrenPlan, LogsPlan, JoinsPlan, EdgesValid, LeafPlanOf, AccountPlanOf, JoinPlanOf;
      children, R4 := CloneChildren();
      usageLogs, R5 := CloneUsageLogs();
      accountGroups, R6 := CloneAccountGroups();
      F := R4 + R5 + R6;
    }

    /** The copy, put together of its context and its edges. */
    method Assemble(newCtx: QueryContext<Column>, groups: LeafQuery?, proxy: LeafQuery?, parent: AccountQuery?,
                    ghost R1: set<object>, ghost R2: set<object>, ghost R3: set<object>, ghost F: set<object>)
        returns (c: AccountQuery, ghost G: set<object>)
      requires Valid() && newCtx !in F && R1 + R2 + R3 <= F && R1 !! R2 && R1 !! R3 && R2 !! R3
      requires groups != null ==> groups in R1 && groups.Owns(R1, Groups)
      requires proxy != null ==> proxy in R2 && proxy.Owns(R2, Proxies)
      requires parent != null ==> parent in R3 && parent.Valid() && parent.Repr() == R3
      decreases Repr(), 2
      ensures c.Valid() && fresh(c) && fresh(G) && c.Repr() <= {c, newCtx} + F + G
      ensures c.ctx == newCtx && c.order == order && c.predicates == predicates && c.inters == inters && c.modifiers == []
      ensures c.withGroups == groups && c.withProxy == proxy && c.withParent == parent
      ensures ChildrenPlan() == AccountPlanOf(c.withChildren) && LogsPlan() == LeafPlanOf(c.withUsageLogs)
      ensures JoinsPlan() == JoinPlanOf(c.withAccountGroups)
    {
      hide EdgesValid, GroupsPlan, ProxyPlan, ParentPlan, ChildrenPlan, LogsPlan, JoinsPlan, LeafPlanOf, AccountPlanOf, JoinPlanOf;
      hide GroupsValid, ProxyValid, ParentValid, ChildrenValid, LogsValid, JoinsValid, Denote, Edges, LeafQuery.Owns;
      var children, usageLogs, accountGroups;
      ghost var R4, R5, R6;
      children, usageLogs, accountGroups, R4, R5, R6, G := CloneOtherThree();
      c := new AccountQuery.Of(newCtx, order, inters, predicates, groups, proxy, parent, children, usageLogs, accountGroups,
                               R1, R2, R3, R4, R5, R6, F + G);
    }

    lemma ValidEdges()
      requires Valid()
      ensures GroupsValid() && ProxyValid() && ParentValid() && ChildrenValid() && LogsValid() && JoinsValid()
    {
    }

    /** The copy, once its context and its first three edges are made. */
    method CloneWith(newCtx: QueryContext<Column>, groups: LeafQuery?, proxy: LeafQuery?, parent: AccountQuery?,
                     ghost R1: set<object>, ghost R2: set<object>, ghost R3: set<object>, ghost F: set<object>)
        returns (c: AccountQuery, ghost G: set<object>)
      requires Valid() && newCtx !in F && R1 + R2 + R3 <= F && R1 !! R2 && R1 !! R3 && R2 !! R3
      requires groups != null ==> groups in R1 && groups.Owns(R1, Groups)
      requires proxy != null ==> proxy in R2 && proxy.Owns(R2, Proxies)
      requires parent != null ==> parent in R3 && parent.Valid() && parent.Repr() == R3
      requires GroupsPlan() == LeafPlanOf(groups) && ProxyPlan() == LeafPlanOf(proxy) && ParentPlan() == AccountPlanOf(parent)
      requires newCtx.Value() == ctx.Value()
      decreases Repr(), 3
      ensures c.Valid() && fresh(c) && fresh(G) && c.Repr() <= {c, newCtx} + F + G
      ensures c.Denote() == Denote()
      ensures c.predicates == predicates && c.inters == inters && c.modifiers == []
    {
      hide EdgesValid, Apart, GroupsPlan, ProxyPlan, ParentPlan, ChildrenPlan, LogsPlan, JoinsPlan, LeafPlanOf, AccountPlanOf, JoinPlanOf;
      hide GroupsValid, ProxyValid, ParentValid, ChildrenValid, LogsValid, JoinsValid;
      c, G := Assemble(newCtx, groups, proxy, parent, R1, R2, R3, F);
      c.ValidEdges();
      c.EdgesAre(EdgePlans(GroupsPlan(), ProxyPlan(), ParentPlan(), ChildrenPlan(), LogsPlan(), JoinsPlan()));
    }

    /** The copy, once its context is made. */
    method CloneFrom(newCtx: QueryContext<Column>) returns (c: AccountQuery)
      requires Valid() && newCtx.Value() == ctx.Value()
      decreases Repr(), 4
      ensures c.Valid() && fresh(c.Repr() - {newCtx}) && c.Denote() == Denote()
      ensures c.predicates == predicates && c.inters == inters && c.modifiers == []
    {
      hide EdgesValid, Denote, GroupsPlan, ProxyPlan, ParentPlan, ChildrenPlan, LogsPlan, JoinsPlan, LeafPlanOf, AccountPlanOf, JoinPlanOf;
      hide AccountGroupQuery.Valid, LeafQuery.Owns;
      var groups, proxy, parent, R1, R2, R3, F := CloneThree();
      ghost var G;
      c, G := CloneWith(newCtx, groups, proxy, parent, R1, R2, R3, F);
    }

    /**
     A copy of the builder tree: it says the same, and shares no object with the original.  The
     lock modifiers are not copied.
     */
    method Clone() returns (c: AccountQuery)
      requires Valid()
      decreases Repr(), 5
      ensures c.Valid() && fresh(c.Repr()) && c.Denote() == Denote()
      ensures c.predicates == predicates && c.inters == inters && c.modifiers == []
    {
      hide EdgesValid, Denote;
      var newCtx := ctx.Clone();
      c := CloneFrom(newCtx);
    }

    /** The traverser loop of `prepareQuery`: each traverser adds its predicate. */
    method Traverse()
      modifies this`predicates
      ensures predicates == old(predicates) + inters
    {
      for i := 0 to |inters|
        invariant predicates == old(predicates) + inters[..i]
      {
        predicates := predicates + [inters[i]];
      }
      assert inters[..|inters|] == inters;
    }

    method PrepareQuery() returns (err: Option<QueryError>)
      requires Valid()
      modifies this`predicates
      ensures Valid() && predicates == old(predicates) + inters
      ensures Denote() == old(Denote()).(filters := predicates + inters)
      ensures err == if AccountFieldsValid(ctx.fields) then None else Some(InvalidField)
    {
      hide EdgesValid, Edges;
      Traverse();
      err := CheckAccountFields(ctx.fields);
    }

    /** The object of one row: holders are allocated, filled by the driver, and assigned. */
    static method NewNode(row: Account, columns: seq<Column>, loadedTypes: seq<bool>) returns (node: AccountNode)
      requires |loadedTypes| == 6
      ensures fresh(node) && BareNode(node, row, columns, loadedTypes)
    {
      var holders := ScanValues(columns);
      var values := FillHolders(row, columns, holders);
      node := new AccountNode(loadedTypes);
      var err := node.AssignValues(columns, values);
      DecodeSucceeds(row, columns);
      assert err.None?;
      DecodeIsProjection(row, columns);
    }

    /** `QueryNodes`: one object per selected row. */
    method Nodes(db: Database) returns (nodes: seq<AccountNode>, ghost N: set<AccountNode>, ghost S: set<object>)
      ensures fresh(N) && fresh(S) && (forall x | x in N :: x in S)
      ensures Within(nodes, N) && Distinct(nodes) && Covers(nodes, N)
      ensures var rows := Window(Selected(db.accounts, predicates, order), ctx.offset, ctx.limit);
              BareNodes(nodes, rows, AccountColumns(ctx.fields, withProxy != null, withParent != null), LoadedTypes())
    {
      hide BareNode, Selected, Window, LoadedTypes;
      var columns := AccountSpecColumns(ctx.fields, withProxy != null, withParent != null);
      var rows := Window(Selected(db.accounts, predicates, order), ctx.offset, ctx.limit);
      nodes, N, S := [], {}, {};
      for i := 0 to |rows|
        invariant fresh(N) && fresh(S) && (forall x | x in N :: x in S)
        invariant |nodes| == i && Within(nodes, N) && Distinct(nodes)
        invariant forall x | x in N :: x in nodes
        invariant forall k | 0 <= k < i :: BareNode(nodes[k], rows[k], columns, LoadedTypes())
      {
        var node := NewNode(rows[i], columns, LoadedTypes());
        nodes, N, S := nodes + [node], N + {node}, S + {node};
      }
    }

    /** Which edges this builder loads. */
    function LoadedTypes(): (r: seq<bool>)
      reads this
      ensures |r| == 6
    {
      [withGroups != null, withProxy != null, withParent != null,
       withChildren != null, withUsageLogs != null, withAccountGroups != null]
    }

    /** `query.Where(account.IDIn(ids...))` and `query.All`. */
    method AllWithIds(db: Database, ids: seq<int>)
        returns (err: Option<QueryError>, neighbors: seq<AccountNode>, ghost q: AccountPlan, ghost S: set<object>)
      requires Valid() && ValidDatabase(db) && Unwindowed(Denote().ctx) && EdgesLoadable(Denote())
      modifies Repr()
      decreases Repr(), 6
      ensures Valid() && Repr() == old(Repr())
      ensures fresh(S)
      ensures PlanFieldsValid(old(Denote())) ==> err.None?
      ensures err.None? ==> IdBatch(db, old(Denote()), q, ids, neighbors, S)
      ensures SelectedAccounts(db, q) == IdBatchRows(db, old(Denote()), ids)
      ensures err.Some? || Reruns(db, q, Denote(), SelectedAccounts(db, q))
    {
      ghost var p, before := Denote(), predicates;
      Where(IdIn(ids));
      q := Denote();
      SelectedLoadFilter(db.accounts, before, IdIn(ids), inters, order);
      assert AccountRows(db, q) == IdBatchRows(db, p, ids);
      err, neighbors, S := All(db);
      if err.None? {
        IdBatchKeys(db, p, q, ids, neighbors, S);
      }
    }

    /** The query of `loadChildren`: the foreign key is selected too, and the rows are the children of the ids. */
    method AllChildrenOf(db: Database, ids: seq<int>)
        returns (err: Option<QueryError>, neighbors: seq<AccountNode>, ghost q: AccountPlan, ghost S: set<object>)
      requires Valid() && ValidDatabase(db) && Unwindowed(Denote().ctx) && EdgesLoadable(Denote())
      modifies Repr()
      decreases Repr(), 6
      ensures Valid() && Repr() == old(Repr())
      ensures fresh(S)
      ensures PlanFieldsValid(old(Denote())) ==> err.None?
      ensures err.None? ==> ChildBatch(db, old(Denote()), q, ids, neighbors, S)
      ensures ChildPlan(db, old(Denote()), q, ids)
      ensures err.Some? || Reruns(db, q, Denote(), SelectedAccounts(db, q))
    {
      ghost var p := Denote();
      RestrictToChildren(db, ids);
      q := Denote();
      err, neighbors, S := All(db);
      if err.None? {
        ChildBatchKeys(db, p, q, ids, neighbors, S);
      }
    }

    /** Selects the foreign key if fields are selected at all, and filters by it. */
    method RestrictToChildren(ghost db: Database, ids: seq<int>)
      requires Valid() && Unwindowed(Denote().ctx)
      modifies this`predicates, ctx`fields
      ensures Valid() && Repr() == old(Repr())
      ensures ChildPlan(db, old(Denote()), Denote(), ids)
    {
      ghost var before := predicates;
      AppendFieldOnce(ParentAccountID);
      Where(ParentIn(ids));
      SelectedLoadFilter(db.accounts, before, ParentIn(ids), inters, order);
    }

    /** Adds a column to the selected fields, if there are any. */
    method AppendFieldOnce(c: Column)
      requires Valid()
      modifies ctx`fields
      ensures Valid()
      ensures Denote() == old(Denote()).(ctx := old(ctx.Value()).(fields := WithForeignKey(old(ctx.fields), c)))
    {
      if |ctx.fields| > 0 {
        ctx.AppendFieldOnce(c);
      }
    }

    /** The part of `loadGroups` after its index is built. */
    static method FillGroups(db: Database, query: LeafQuery, nodes: seq<AccountNode>, ids: seq<int>,
                             byID: map<int, AccountNode>, ghost N: set<AccountNode>)
        returns (err: Option<QueryError>, ghost S: set<object>)
      requires query.Valid() && Unwindowed(query.ctx.Value()) && query.joins == [] && ValidDatabase(db)
      requires Within(nodes, N) && Covers(nodes, N)
      requires ids == Ids(nodes) && IdIndex(byID, N) && (forall k :: k in byID <==> k in ids)
      requires forall i | 0 <= i < |nodes| :: Indexed(byID, nodes[i], ids[i])
      requires forall x | x in N :: x.groups == Some([])
      modifies query`predicates, query`joins, N`groups
      ensures fresh(S)
      ensures LeafFieldsValid(old(query.Denote())) ==> err.None?
      ensures err.None? ==> GroupsShown(db, Some(old(query.Denote())), nodes, ids, N, S)
    {
      ghost var p := query.Denote();
      var neighbors, nids;
      err, neighbors, nids, S := query.AllJoinedTo(db, ids, byID);
      if err.None? {
        MembersInN(db, p, ids, byID, neighbors, nids, S, N);
        GroupsExpected(db, p, ids, byID, neighbors, nids, S);
        GroupListsShown(db, p, ids, byID, neighbors, nids, S, N, nodes);
        err := ScatterGroups(neighbors, nids, N);
      }
    }

    /** `loadGroups`. */
    static method LoadGroups(db: Database, query: LeafQuery, nodes: seq<AccountNode>, ghost keys: seq<int>, ghost N: set<AccountNode>)
        returns (err: Option<QueryError>, ghost S: set<object>)
      requires query.Valid() && Unwindowed(query.ctx.Value()) && query.joins == [] && ValidDatabase(db)
      requires Within(nodes, N) && Covers(nodes, N) && keys == Ids(nodes) && Distinct(keys)
      modifies query`predicates, query`joins, N`groups
      ensures fresh(S)
      ensures LeafFieldsValid(old(query.Denote())) ==> err.None?
      ensures err.None? ==> GroupsShown(db, Some(old(query.Denote())), nodes, keys, N, S)
    {
      InitGroups(nodes, N);
      var ids, byID := IndexById(nodes, N);
      err, S := FillGroups(db, query, nodes, ids, byID, N);
    }

    /** The part of `loadProxy` after its index is built. */
    static method FillProxy(db: Database, query: LeafQuery, nodes: seq<AccountNode>, fks: seq<Option<int>>, ids: seq<int>,
                       nodeids: map<int, seq<AccountNode>>, ghost N: set<AccountNode>)
        returns (err: Option<QueryError>, ghost S: set<object>)
      requires query.Valid() && Unwindowed(query.ctx.Value()) && ValidDatabase(db)
      requires Within(nodes, N) && IndexOf(nodes, fks, nodeids, N)
      requires (forall k :: k in nodeids <==> k in ids) && KeysIn(fks, ids)
      requires forall i | 0 <= i < |nodes| :: nodes[i].proxy == null
      modifies query`predicates, N`proxy
      ensures fresh(S)
      ensures LeafFieldsValid(old(query.Denote())) ==> err.None?
      ensures err.None? ==> ProxiesShown(db, Some(old(query.Denote())), nodes, fks, N, S)
      ensures err.Some? || SameLeaves(db, old(query.Denote()), query.Denote(), fks)
    {
      ghost var p := query.Denote();
      var neighbors;
      err, neighbors, S := query.AllWithIds(db, ids);
      if err.None? {
        err := ScatterProxy(nodes, fks, nodeids, neighbors, N);
        LeavesByKeyShown(db, p, ids, fks, neighbors, S);
        LeavesRerun(db, p, query.Denote(), ids, fks);
      }
    }

    /** `loadProxy`. */
    static method LoadProxy(db: Database, query: LeafQuery, nodes: seq<AccountNode>, ghost keys: seq<Option<int>>, ghost N: set<AccountNode>)
        returns (err: Option<QueryError>, ghost S: set<object>)
      requires query.Valid() && Unwindowed(query.ctx.Value()) && ValidDatabase(db)
      requires Within(nodes, N) && Distinct(nodes) && keys == ProxyKeys(nodes)
      requires forall i | 0 <= i < |nodes| :: nodes[i].proxy == null
      modifies query`predicates, N`proxy
      ensures fresh(S)
      ensures LeafFieldsValid(old(query.Denote())) ==> err.None?
      ensures err.None? ==> ProxiesShown(db, Some(old(query.Denote())), nodes, keys, N, S)
      ensures err.Some? || SameLeaves(db, old(query.Denote()), query.Denote(), keys)
    {
      var fks := ProxyKeys(nodes);
      var ids, nodeids := IndexByForeignKey(nodes, fks);
      if |ids| == 0 {
        NoProxies(db, query.Denote(), nodes, fks, N);
        return None, {};
      }
      PickedIndex(nodes, fks, nodeids, N);
      err, S := FillProxy(db, query, nodes, fks, ids, nodeids, N);
    }

    /** Each node receives the neighbour that its key names. */
    static method GiveParent(ghost db: Database, ghost p: AccountPlan, ghost q: AccountPlan, nodes: seq<AccountNode>, fks: seq<Option<int>>,
                             ghost ids: seq<int>, nodeids: map<int, seq<AccountNode>>, neighbors: seq<AccountNode>,
                             ghost N: set<AccountNode>, ghost S: set<object>)
        returns (err: Option<QueryError>)
      requires ValidDatabase(db) && Within(nodes, N) && IndexOf(nodes, fks, nodeids, N) && N !! S && IdBatch(db, p, q, ids, neighbors, S)
      requires (forall k :: k in nodeids <==> k in ids) && KeysIn(fks, ids)
      requires forall i | 0 <= i < |nodes| :: nodes[i].parent == null
      modifies N`parent
      ensures err.None? && ParentsShown(db, Some(p), nodes, fks, N, S)
    {
      hide ValidDatabase, ShowsOption, JoinByKey, ShowsBatch;
      assert Outside(neighbors, N);
      hide IndexOf, Within, Outside, KeysIn;
      err := ScatterParent(nodes, fks, nodeids, neighbors, N);
      AccountsByKeyShown(db, p, q, ids, fks, neighbors, S);
    }

    /** The part of `loadParent` after its index is built. */
    static method FillParent(db: Database, query: AccountQuery, nodes: seq<AccountNode>, fks: seq<Option<int>>, ids: seq<int>,
                       nodeids: map<int, seq<AccountNode>>, ghost N: set<AccountNode>)
        returns (err: Option<QueryError>, ghost S: set<object>)
      requires query.Valid() && ValidDatabase(db) && Unwindowed(query.Denote().ctx) && EdgesLoadable(query.Denote())
      requires Within(nodes, N) && IndexOf(nodes, fks, nodeids, N) && N !! query.Repr()
      requires (forall k :: k in nodeids <==> k in ids) && KeysIn(fks, ids)
      requires forall i | 0 <= i < |nodes| :: nodes[i].parent == null
      modifies query.Repr(), N`parent
      decreases query.Repr(), 7
      ensures query.Valid() && query.Repr() == old(query.Repr())
      ensures fresh(S)
      ensures PlanFieldsValid(old(query.Denote())) ==> err.None?
      ensures err.None? ==> ParentsShown(db, Some(old(query.Denote())), nodes, fks, N, S)
      ensures err.Some? || SameByKey(db, old(query.Denote()), query.Denote(), fks)
    {
      hide AccountQuery.Valid, AccountQuery.Denote, EdgesLoadable, PlanFieldsValid, ValidDatabase, Unwindowed, Reruns, SameByKey, ShowsOption, JoinByKey;
      hide IdBatch, ParentsShown, IndexOf;
      ghost var p := query.Denote();
      var neighbors;
      ghost var q;
      err, neighbors, q, S := query.AllWithIds(db, ids);
      if err.None? {
        ByKeyReruns(db, p, q, query.Denote(), ids, fks);
        err := GiveParent(db, p, q, nodes, fks, ids, nodeids, neighbors, N, S);
      }
    }

    /** `loadParent`. */
    static method LoadParent(db: Database, query: AccountQuery, nodes: seq<AccountNode>, ghost keys: seq<Option<int>>, ghost N: set<AccountNode>)
        returns (err: Option<QueryError>, ghost S: set<object>)
      requires query.Valid() && ValidDatabase(db) && Unwindowed(query.Denote().ctx) && EdgesLoadable(query.Denote())
      requires Within(nodes, N) && Distinct(nodes) && keys == ParentKeys(nodes) && N !! query.Repr()
      requires forall i | 0 <= i < |nodes| :: nodes[i].parent == null
      modifies query.Repr(), N`parent
      decreases query.Repr(), 8
      ensures query.Valid() && query.Repr() == old(query.Repr())
      ensures fresh(S)
      ensures PlanFieldsValid(old(query.Denote())) ==> err.None?
      ensures err.None? ==> ParentsShown(db, Some(old(query.Denote())), nodes, keys, N, S)
      ensures err.Some? || SameByKey(db, old(query.Denote()), query.Denote(), keys)
    {
      hide AccountQuery.Valid, AccountQuery.Denote, ValidDatabase, PlanFieldsValid;
      var fks := ParentKeys(nodes);
      var ids, nodeids := IndexByForeignKey(nodes, fks);
      if |ids| == 0 {
        NoParents(db, query.Denote(), nodes, fks, N);
        return None, {};
      }
      PickedIndex(nodes, fks, nodeids, N);
      err, S := FillParent(db, query, nodes, fks, ids, nodeids, N);
    }

    /** Each node receives the neighbours that hold its id. */
    static method GiveChildren(ghost db: Database, ghost p: AccountPlan, ghost q: AccountPlan, nodes: seq<AccountNode>, ids: seq<int>,
                               nodeids: map<int, AccountNode>, neighbors: seq<AccountNode>, ghost N: set<AccountNode>, ghost S: set<object>)
        returns (err: Option<QueryError>)
      requires Within(nodes, N) && N !! S && ChildBatch(db, p, q, ids, neighbors, S)
      requires ids == Ids(nodes) && IdIndex(nodeids, N) && (forall k :: k in nodeids <==> k in ids)
      requires forall i | 0 <= i < |nodes| :: Indexed(nodeids, nodes[i], ids[i])
      requires forall x | x in N :: x.children == Some([])
      modifies N`children
      ensures err.None? && ChildrenAreShown(db, Some(p), nodes, ids, N, S)
    {
      hide ShowsAll, JoinChildren, ShowsBatch;
      assert Outside(neighbors, N);
      hide Within, Outside, IdIndex, Indexed;
      err := ScatterChildren(nodes, ids, nodeids, neighbors, N);
      AllChildrenShown(db, p, q, ids, neighbors, S);
    }

    /** The part of `loadChildren` after its index is built. */
    static method FillChildren(db: Database, query: AccountQuery, nodes: seq<AccountNode>, ids: seq<int>,
                       nodeids: map<int, AccountNode>, ghost N: set<AccountNode>)
        returns (err: Option<QueryError>, ghost S: set<object>)
      requires query.Valid() && ValidDatabase(db) && Unwindowed(query.Denote().ctx) && EdgesLoadable(query.Denote())
      requires Within(nodes, N) && N !! query.Repr()
      requires ids == Ids(nodes) && IdIndex(nodeids, N) && (forall k :: k in nodeids <==> k in ids)
      requires forall i | 0 <= i < |nodes| :: Indexed(nodeids, nodes[i], ids[i])
      requires forall x | x in N :: x.children == Some([])
      modifies query.Repr(), N`children
      decreases query.Repr(), 7
      ensures query.Valid() && query.Repr() == old(query.Repr())
      ensures fresh(S)
      ensures PlanFieldsValid(old(query.Denote())) ==> err.None?
      ensures err.None? ==> ChildrenAreShown(db, Some(old(query.Denote())), nodes, ids, N, S)
      ensures err.Some? || SameChildren(db, old(query.Denote()), query.Denote(), ids)
    {
      hide AccountQuery.Valid, AccountQuery.Denote, EdgesLoadable, PlanFieldsValid, ValidDatabase, Unwindowed, Reruns, SameChildren, ShowsAll, JoinChildren;
      hide ChildBatch, ChildrenAreShown, IdIndex, Indexed;
      ghost var p := query.Denote();
      var neighbors;
      ghost var q;
      err, neighbors, q, S := query.AllChildrenOf(db, ids);
      if err.None? {
        ChildrenRerunBatch(db, p, q, query.Denote(), ids);
        err := GiveChildren(db, p, q, nodes, ids, nodeids, neighbors, N, S);
      }
    }

    /** `loadChildren`. */
    static method LoadChildren(db: Database, query: AccountQuery, nodes: seq<AccountNode>, ghost keys: seq<int>, ghost N: set<AccountNode>)
        returns (err: Option<QueryError>, ghost S: set<object>)
      requires query.Valid() && ValidDatabase(db) && Unwindowed(query.Denote().ctx) && EdgesLoadable(query.Denote())
      requires Within(nodes, N) && Covers(nodes, N) && keys == Ids(nodes) && Distinct(keys) && N !! query.Repr()
      modifies query.Repr(), N`children
      decreases query.Repr(), 8
      ensures query.Valid() && query.Repr() == old(query.Repr())
      ensures fresh(S)
      ensures PlanFieldsValid(old(query.Denote())) ==> err.None?
      ensures err.None? ==> ChildrenAreShown(db, Some(old(query.Denote())), nodes, keys, N, S)
      ensures err.Some? || SameChildren(db, old(query.Denote()), query.Denote(), keys)
    {
      hide AccountQuery.Valid, AccountQuery.Denote, EdgesLoadable, PlanFieldsValid, ValidDatabase, Unwindowed, SameChildren, ChildrenAreShown;
      InitChildren(nodes, N);
      var ids, nodeids := IndexById(nodes, N);
      assert ids == keys;
      err, S := FillChildren(db, query, nodes, ids, nodeids, N);
    }

    /** The part of `loadUsageLogs` after its index is built. */
    static method FillUsageLogs(db: Database, query: LeafQuery, nodes: seq<AccountNode>, ids: seq<int>,
                       nodeids: map<int, AccountNode>, ghost N: set<AccountNode>)
        returns (err: Option<QueryError>, ghost S: set<object>)
      requires query.Valid() && query.table == UsageLogs && Unwindowed(query.ctx.Value())
      requires Within(nodes, N)
      requires ids == Ids(nodes) && IdIndex(nodeids, N) && (forall k :: k in nodeids <==> k in ids)
      requires forall i | 0 <= i < |nodes| :: Indexed(nodeids, nodes[i], ids[i])
      requires forall x | x in N :: x.usageLogs == Some([])
      modifies query`predicates, query.ctx`fields, N`usageLogs
      ensures fresh(S)
      ensures LeafFieldsValid(old(query.Denote())) ==> err.None?
      ensures err.None? ==> LogsAreShown(db, Some(old(query.Denote())), nodes, ids, N, S)
      ensures err.Some? || SameLogs(db, old(query.Denote()), query.Denote(), ids)
    {
      ghost var p := query.Denote();
      var neighbors;
      err, neighbors, S := query.AllOwnedBy(db, ids);
      if err.None? {
        err := ScatterUsageLogs(nodes, ids, nodeids, neighbors, N);
        AllLogsShown(db, p, ids, neighbors, S);
        LogsRerunBatch(db, p, query.Denote(), ids);
      }
    }

    /** `loadUsageLogs`. */
    static method LoadUsageLogs(db: Database, query: LeafQuery, nodes: seq<AccountNode>, ghost keys: seq<int>, ghost N: set<AccountNode>)
        returns (err: Option<QueryError>, ghost S: set<object>)
      requires query.Valid() && query.table == UsageLogs && Unwindowed(query.ctx.Value())
      requires Within(nodes, N) && Covers(nodes, N) && keys == Ids(nodes) && Distinct(keys)
      modifies query`predicates, query.ctx`fields, N`usageLogs
      ensures fresh(S)
      ensures LeafFieldsValid(old(query.Denote())) ==> err.None?
      ensures err.None? ==> LogsAreShown(db, Some(old(query.Denote())), nodes, keys, N, S)
      ensures err.Some? || SameLogs(db, old(query.Denote()), query.Denote(), keys)
    {
      InitUsageLogs(nodes, N);
      var ids, nodeids := IndexById(nodes, N);
      err, S := FillUsageLogs(db, query, nodes, ids, nodeids, N);
    }

    /** Each node receives the join rows that hold its id. */
    static method GiveJoins(ghost db: Database, ghost p: AccountGroupPlan, ghost q: AccountGroupPlan, nodes: seq<AccountNode>, ids: seq<int>,
                            nodeids: map<int, AccountNode>, neighbors: seq<AccountGroupNode>, ghost N: set<AccountNode>, ghost S: set<object>)
        returns (err: Option<QueryError>)
      requires Within(nodes, N) && N !! S && JoinBatch(db, p, q, ids, neighbors, S)
      requires ids == Ids(nodes) && IdIndex(nodeids, N) && (forall k :: k in nodeids <==> k in ids)
      requires forall i | 0 <= i < |nodes| :: Indexed(nodeids, nodes[i], ids[i])
      requires forall x | x in N :: x.accountGroups == Some([])
      modifies N`accountGroups
      ensures err.None? && JoinsAreShown(db, Some(p), nodes, ids, N, S)
    {
      hide ShowsJoins, JoinJoins, ShowsJoinBatch, Within, IdIndex, Indexed;
      err := ScatterAccountGroups(nodes, ids, nodeids, neighbors, N);
      AllJoinsShown(db, p, q, ids, neighbors, S);
    }

    /** The part of `loadAccountGroups` after its index is built. */
    static method FillAccountGroups(db: Database, query: AccountGroupQuery, nodes: seq<AccountNode>, ids: seq<int>,
                       nodeids: map<int, AccountNode>, ghost N: set<AccountNode>)
        returns (err: Option<QueryError>, ghost S: set<object>)
      requires query.Valid() && ValidDatabase(db) && Whole(query.Denote()) && JoinEdgesLoadable(query.Denote())
      requires Within(nodes, N) && N !! query.Repr()
      requires ids == Ids(nodes) && IdIndex(nodeids, N) && (forall k :: k in nodeids <==> k in ids)
      requires forall i | 0 <= i < |nodes| :: Indexed(nodeids, nodes[i], ids[i])
      requires forall x | x in N :: x.accountGroups == Some([])
      modifies query.Repr(), N`accountGroups
      decreases query.Repr(), 7
      ensures query.Valid() && query.Repr() == old(query.Repr())
      ensures fresh(S)
      ensures JoinPlanFieldsValid(old(query.Denote())) ==> err.None?
      ensures err.None? ==> JoinsAreShown(db, Some(old(query.Denote())), nodes, ids, N, S)
      ensures err.Some? || SameJoins(db, old(query.Denote()), query.Denote(), ids)
    {
      hide AccountGroupQuery.Valid, AccountGroupQuery.Denote, JoinEdgesLoadable, JoinPlanFieldsValid, ValidDatabase, Unwindowed, JoinReruns, SameJoins, ShowsJoins, JoinJoins;
      hide JoinBatch, JoinsAreShown, IdIndex, Indexed;
      ghost var p := query.Denote();
      var neighbors;
      ghost var q;
      err, neighbors, q, S := query.AllOf(db, ids);
      if err.None? {
        JoinsRerunBatch(db, p, q, query.Denote(), ids);
        err := GiveJoins(db, p, q, nodes, ids, nodeids, neighbors, N, S);
      }
    }

    /** Distinct ids: the index keeps every node. */
    static lemma IndexesAll(nodes: seq<AccountNode>, ids: seq<int>, nodeids: map<int, AccountNode>)
      requires |ids| == |nodes| && Distinct(ids) && forall k :: k in nodeids <==> k in ids
      requires forall i | 0 <= i < |nodes| && LastOf(ids, i) :: ids[i] in nodeids && nodeids[ids[i]] == nodes[i]
      ensures forall i | 0 <= i < |nodes| :: Indexed(nodeids, nodes[i], ids[i])
    {
      forall i | 0 <= i < |nodes| ensures Indexed(nodeids, nodes[i], ids[i]) {
        assert LastOf(ids, i);
      }
    }

    /** `loadAccountGroups`. */
    static method LoadAccountGroups(db: Database, query: AccountGroupQuery, nodes: seq<AccountNode>, ghost keys: seq<int>, ghost N: set<AccountNode>)
        returns (err: Option<QueryError>, ghost S: set<object>)
      requires query.Valid() && ValidDatabase(db) && Whole(query.Denote()) && JoinEdgesLoadable(query.Denote())
      requires Within(nodes, N) && Covers(nodes, N) && keys == Ids(nodes) && Distinct(keys) && N !! query.Repr()
      modifies query.Repr(), N`accountGroups
      decreases query.Repr(), 8
      ensures query.Valid() && query.Repr() == old(query.Repr())
      ensures fresh(S)
      ensures JoinPlanFieldsValid(old(query.Denote())) ==> err.None?
      ensures err.None? ==> JoinsAreShown(db, Some(old(query.Denote())), nodes, keys, N, S)
      ensures err.Some? || SameJoins(db, old(query.Denote()), query.Denote(), keys)
    {
      hide AccountGroupQuery.Valid, AccountGroupQuery.Denote, JoinEdgesLoadable, JoinPlanFieldsValid, ValidDatabase, Unwindowed, SameJoins, JoinsAreShown, Indexed, LastOf, Covers, IdIndex;
      InitAccountGroups(nodes, N);
      var ids, nodeids := IndexById(nodes, N);
      assert ids == keys;
      IndexesAll(nodes, ids, nodeids);
      err, S := FillAccountGroups(db, query, nodes, ids, nodeids, N);
    }

    /** The `withGroups` step of `sqlAll`. */
    method EdgeGroups(db: Database, ghost rows: seq<Account>, nodes: seq<AccountNode>, ghost N: set<AccountNode>)
        returns (err: Option<QueryError>, ghost S: set<object>)
      requires this !in Below() && EdgesValid() && ValidDatabase(db)
      requires LeafLoadable(GroupsPlan())
      requires Within(nodes, N) && Covers(nodes, N) && Distinct(nodes) && N !! Below()
      requires Keyed(nodes, rows, withProxy != null, withParent != null, N) && UniqueBy(rows, AccountId)
      requires GroupsShown(db, None, nodes, RowIds(rows), N, {})
      modifies groupsRepr, N`groups
      decreases Repr(), 3, 0
      ensures this !in Below() && EdgesValid() && Edges() == old(Edges()).(groups := GroupsPlan())
      ensures fresh(S)
      ensures LeafOptionValid(old(GroupsPlan())) ==> err.None?
      ensures err.None? ==> GroupsShown(db, old(GroupsPlan()), nodes, RowIds(rows), N, S)
      ensures GroupsPlan().Some? == old(GroupsPlan()).Some?
    {
      hide ProxyValid, ProxyPlan, ParentValid, ParentPlan, ChildrenValid, ChildrenPlan, LogsValid, LogsPlan, JoinsValid, JoinsPlan;
      err, S := None, {};
      if withGroups != null {
        ghost var p := GroupsPlan();
        assert Ids(nodes) == RowIds(rows);
        err, S := LoadGroups(db, withGroups, nodes, RowIds(rows), N);
      }
    }

    /** The `withProxy` step of `sqlAll`. */
    method EdgeProxy(db: Database, ghost rows: seq<Account>, nodes: seq<AccountNode>, ghost N: set<AccountNode>)
        returns (err: Option<QueryError>, ghost S: set<object>)
      requires this !in Below() && EdgesValid() && ValidDatabase(db)
      requires LeafLoadable(ProxyPlan())
      requires Within(nodes, N) && Covers(nodes, N) && Distinct(nodes) && N !! Below()
      requires Keyed(nodes, rows, withProxy != null, withParent != null, N) && UniqueBy(rows, AccountId)
      requires ProxiesShown(db, None, nodes, Keys(rows, ProxyKey), N, {})
      modifies proxyRepr, N`proxy
      decreases Repr(), 3, 0
      ensures this !in Below() && EdgesValid() && Edges() == old(Edges()).(proxy := ProxyPlan())
      ensures fresh(S)
      ensures LeafOptionValid(old(ProxyPlan())) ==> err.None?
      ensures err.None? ==> ProxiesShown(db, old(ProxyPlan()), nodes, Keys(rows, ProxyKey), N, S)
      ensures err.Some? || LeafReruns(db, old(ProxyPlan()), ProxyPlan(), Keys(rows, ProxyKey))
    {
      hide GroupsValid, GroupsPlan, ParentValid, ParentPlan, ChildrenValid, ChildrenPlan, LogsValid, LogsPlan, JoinsValid, JoinsPlan;
      err, S := None, {};
      if withProxy != null {
        ghost var p := ProxyPlan();
        assert ProxyKeys(nodes) == Keys(rows, ProxyKey);
        err, S := LoadProxy(db, withProxy, nodes, Keys(rows, ProxyKey), N);
      }
    }

    /** The `withParent` step of `sqlAll`. */
    method EdgeParent(db: Database, ghost rows: seq<Account>, nodes: seq<AccountNode>, ghost N: set<AccountNode>)
        returns (err: Option<QueryError>, ghost S: set<object>)
      requires this !in Below() && EdgesValid() && ValidDatabase(db)
      requires AccountLoadable(ParentPlan())
      requires Within(nodes, N) && Covers(nodes, N) && Distinct(nodes) && N !! Below()
      requires Keyed(nodes, rows, withProxy != null, withParent != null, N) && UniqueBy(rows, AccountId)
      requires ParentsShown(db, None, nodes, Keys(rows, ParentKey), N, {})
      modifies parentRepr, N`parent
      decreases Repr(), 3, 0
      ensures this !in Below() && EdgesValid() && Edges() == old(Edges()).(parent := ParentPlan())
      ensures fresh(S)
      ensures AccountOptionValid(old(ParentPlan())) ==> err.None?
      ensures err.None? ==> ParentsShown(db, old(ParentPlan()), nodes, Keys(rows, ParentKey), N, S)
      ensures err.Some? || ParentReruns(db, old(ParentPlan()), ParentPlan(), Keys(rows, ParentKey))
    {
      hide EdgesLoadable, PlanFieldsValid, SameByKey, ShowsOption, ValidDatabase;
      hide GroupsValid, GroupsPlan, ProxyValid, ProxyPlan, ChildrenValid, ChildrenPlan, LogsValid, LogsPlan, JoinsValid, JoinsPlan;
      err, S := None, {};
      if withParent != null {
        ghost var p := ParentPlan();
        assert ParentKeys(nodes) == Keys(rows, ParentKey);
        err, S := LoadParent(db, withParent, nodes, Keys(rows, ParentKey), N);
      }
    }

    /** The `withChildren` step of `sqlAll`. */
    method EdgeChildren(db: Database, ghost rows: seq<Account>, nodes: seq<AccountNode>, ghost N: set<AccountNode>)
        returns (err: Option<QueryError>, ghost S: set<object>)
      requires this !in Below() && EdgesValid() && ValidDatabase(db)
      requires AccountLoadable(ChildrenPlan())
      requires Within(nodes, N) && Covers(nodes, N) && Distinct(nodes) && N !! Below()
      requires Keyed(nodes, rows, withProxy != null, withParent != null, N) && UniqueBy(rows, AccountId)
      requires ChildrenAreShown(db, None, nodes, RowIds(rows), N, {})
      modifies childrenRepr, N`children
      decreases Repr(), 3, 0
      ensures this !in Below() && EdgesValid() && Edges() == old(Edges()).(children := ChildrenPlan())
      ensures fresh(S)
      ensures AccountOptionValid(old(ChildrenPlan())) ==> err.None?
      ensures err.None? ==> ChildrenAreShown(db, old(ChildrenPlan()), nodes, RowIds(rows), N, S)
      ensures err.Some? || ChildrenRerun(db, old(ChildrenPlan()), ChildrenPlan(), RowIds(rows))
    {
      hide EdgesLoadable, PlanFieldsValid, SameChildren, ShowsAll, ValidDatabase;
      hide GroupsValid, GroupsPlan, ProxyValid, ProxyPlan, ParentValid, ParentPlan, LogsValid, LogsPlan, JoinsValid, JoinsPlan;
      err, S := None, {};
      if withChildren != null {
        ghost var p := ChildrenPlan();
        assert Ids(nodes) == RowIds(rows);
        err, S := LoadChildren(db, withChildren, nodes, RowIds(rows), N);
      }
    }

    /** The `withUsageLogs` step of `sqlAll`. */
    method EdgeLogs(db: Database, ghost rows: seq<Account>, nodes: seq<AccountNode>, ghost N: set<AccountNode>)
        returns (err: Option<QueryError>, ghost S: set<object>)
      requires this !in Below() && EdgesValid() && ValidDatabase(db)
      requires LeafLoadable(LogsPlan())
      requires Within(nodes, N) && Covers(nodes, N) && Distinct(nodes) && N !! Below()
      requires Keyed(nodes, rows, withProxy != null, withParent != null, N) && UniqueBy(rows, AccountId)
      requires LogsAreShown(db, None, nodes, RowIds(rows), N, {})
      modifies logsRepr, N`usageLogs
      decreases Repr(), 3, 0
      ensures this !in Below() && EdgesValid() && Edges() == old(Edges()).(usageLogs := LogsPlan())
      ensures fresh(S)
      ensures LeafOptionValid(old(LogsPlan())) ==> err.None?
      ensures err.None? ==> LogsAreShown(db, old(LogsPlan()), nodes, RowIds(rows), N, S)
      ensures err.Some? || LogsRerun(db, old(LogsPlan()), LogsPlan(), RowIds(rows))
    {
      hide GroupsValid, GroupsPlan, ProxyValid, ProxyPlan, ParentValid, ParentPlan, ChildrenValid, ChildrenPlan, JoinsValid, JoinsPlan;
      err, S := None, {};
      if withUsageLogs != null {
        ghost var p := LogsPlan();
        assert Ids(nodes) == RowIds(rows);
        err, S := LoadUsageLogs(db, withUsageLogs, nodes, RowIds(rows), N);
      }
    }

    /** The `withAccountGroups` step of `sqlAll`. */
    method EdgeJoins(db: Database, ghost rows: seq<Account>, nodes: seq<AccountNode>, ghost N: set<AccountNode>)
        returns (err: Option<QueryError>, ghost S: set<object>)
      requires this !in Below() && EdgesValid() && ValidDatabase(db)
      requires JoinLoadable(JoinsPlan())
      requires Within(nodes, N) && Covers(nodes, N) && Distinct(nodes) && N !! Below()
      requires Keyed(nodes, rows, withProxy != null, withParent != null, N) && UniqueBy(rows, AccountId)
      requires JoinsAreShown(db, None, nodes, RowIds(rows), N, {})
      modifies joinsRepr, N`accountGroups
      decreases Repr(), 3, 0
      ensures this !in Below() && EdgesValid() && Edges() == old(Edges()).(accountGroups := JoinsPlan())
      ensures fresh(S)
      ensures JoinOptionValid(old(JoinsPlan())) ==> err.None?
      ensures err.None? ==> JoinsAreShown(db, old(JoinsPlan()), nodes, RowIds(rows), N, S)
      ensures err.Some? || JoinsRerun(db, old(JoinsPlan()), JoinsPlan(), RowIds(rows))
    {
      hide JoinEdgesLoadable, JoinPlanFieldsValid, SameJoins, ShowsJoins, ValidDatabase;
      hide GroupsValid, GroupsPlan, ProxyValid, ProxyPlan, ParentValid, ParentPlan, ChildrenValid, ChildrenPlan, LogsValid, LogsPlan;
      err, S := None, {};
      if withAccountGroups != null {
        ghost var p := JoinsPlan();
        assert Ids(nodes) == RowIds(rows);
        err, S := LoadAccountGroups(db, withAccountGroups, nodes, RowIds(rows), N);
      }
    }

    /** The first three steps of `sqlAll`. */
    method LoadFirstThree(db: Database, ghost rows: seq<Account>, nodes: seq<AccountNode>, ghost N: set<AccountNode>)
        returns (err: Option<QueryError>, ghost S1: set<object>, ghost S2: set<object>, ghost S3: set<object>)
      requires this !in Below() && EdgesValid() && ValidDatabase(db)
      requires LeafLoadable(GroupsPlan()) && LeafLoadable(ProxyPlan()) && AccountLoadable(ParentPlan())
      requires Within(nodes, N) && Covers(nodes, N) && Distinct(nodes) && N !! Below()
      requires Keyed(nodes, rows, withProxy != null, withParent != null, N) && UniqueBy(rows, AccountId)
      requires GroupsShown(db, None, nodes, RowIds(rows), N, {})
      requires ProxiesShown(db, None, nodes, Keys(rows, ProxyKey), N, {})
      requires ParentsShown(db, None, nodes, Keys(rows, ParentKey), N, {})
      modifies groupsRepr, proxyRepr, parentRepr, N`groups, N`proxy, N`parent
      decreases Repr(), 3, 1
      ensures this !in Below() && EdgesValid()
      ensures Edges() == old(Edges()).(groups := GroupsPlan(), proxy := ProxyPlan(), parent := ParentPlan())
      ensures fresh(S1 + S2 + S3)
      ensures LeafOptionValid(old(GroupsPlan())) && LeafOptionValid(old(ProxyPlan())) && AccountOptionValid(old(ParentPlan())) ==> err.None?
      ensures err.None? ==> GroupsShown(db, old(GroupsPlan()), nodes, RowIds(rows), N, S1)
      ensures GroupsPlan().Some? == old(GroupsPlan()).Some?
      ensures err.None? ==> ProxiesShown(db, old(ProxyPlan()), nodes, Keys(rows, ProxyKey), N, S2)
      ensures err.Some? || LeafReruns(db, old(ProxyPlan()), ProxyPlan(), Keys(rows, ProxyKey))
      ensures err.None? ==> ParentsShown(db, old(ParentPlan()), nodes, Keys(rows, ParentKey), N, S3)
      ensures err.Some? || ParentReruns(db, old(ParentPlan()), ParentPlan(), Keys(rows, ParentKey))
    {
      hide GroupsShown, ProxiesShown, ParentsShown, ChildrenAreShown, LogsAreShown, JoinsAreShown;
      hide GroupsPlan, ProxyPlan, ParentPlan, ChildrenPlan, LogsPlan, JoinsPlan, EdgesValid;
      hide LeafLoadable, AccountLoadable, JoinLoadable, LeafOptionValid, AccountOptionValid, JoinOptionValid;
      hide ValidDatabase, UniqueBy, Keyed, Within, Covers, Distinct;
      S1, S2, S3 := {}, {}, {};
      err, S1 := EdgeGroups(db, rows, nodes, N);
      if err.Some? { return; }
      err, S2 := EdgeProxy(db, rows, nodes, N);
      if err.Some? { return; }
      err, S3 := EdgeParent(db, rows, nodes, N);
    }

    /** The last three steps of `sqlAll`. */
    method LoadLastThree(db: Database, ghost rows: seq<Account>, nodes: seq<AccountNode>, ghost N: set<AccountNode>)
        returns (err: Option<QueryError>, ghost S4: set<object>, ghost S5: set<object>, ghost S6: set<object>)
      requires this !in Below() && EdgesValid() && ValidDatabase(db)
      requires AccountLoadable(ChildrenPlan()) && LeafLoadable(LogsPlan()) && JoinLoadable(JoinsPlan())
      requires Within(nodes, N) && Covers(nodes, N) && Distinct(nodes) && N !! Below()
      requires Keyed(nodes, rows, withProxy != null, withParent != null, N) && UniqueBy(rows, AccountId)
      requires ChildrenAreShown(db, None, nodes, RowIds(rows), N, {})
      requires LogsAreShown(db, None, nodes, RowIds(rows), N, {})
      requires JoinsAreShown(db, None, nodes, RowIds(rows), N, {})
      modifies childrenRepr, logsRepr, joinsRepr, N`children, N`usageLogs, N`accountGroups
      decreases Repr(), 3, 1
      ensures this !in Below() && EdgesValid()
      ensures Edges() == old(Edges()).(children := ChildrenPlan(), usageLogs := LogsPlan(), accountGroups := JoinsPlan())
      ensures fresh(S4 + S5 + S6)
      ensures AccountOptionValid(old(ChildrenPlan())) && LeafOptionValid(old(LogsPlan())) && JoinOptionValid(old(JoinsPlan())) ==> err.None?
      ensures err.None? ==> ChildrenAreShown(db, old(ChildrenPlan()), nodes, RowIds(rows), N, S4)
      ensures err.Some? || ChildrenRerun(db, old(ChildrenPlan()), ChildrenPlan(), RowIds(rows))
      ensures err.None? ==> LogsAreShown(db, old(LogsPlan()), nodes, RowIds(rows), N, S5)
      ensures err.Some? || LogsRerun(db, old(LogsPlan()), LogsPlan(), RowIds(rows))
      ensures err.None? ==> JoinsAreShown(db, old(JoinsPlan()), nodes, RowIds(rows), N, S6)
      ensures err.Some? || JoinsRerun(db, old(JoinsPlan()), JoinsPlan(), RowIds(rows))
    {
      hide GroupsShown, ProxiesShown, ParentsShown, ChildrenAreShown, LogsAreShown, JoinsAreShown;
      hide GroupsPlan, ProxyPlan, ParentPlan, ChildrenPlan, LogsPlan, JoinsPlan, EdgesValid;
      hide LeafLoadable, AccountLoadable, JoinLoadable, LeafOptionValid, AccountOptionValid, JoinOptionValid;
      hide ValidDatabase, UniqueBy, Keyed, Within, Covers, Distinct;
      S4, S5, S6 := {}, {}, {};
      err, S4 := EdgeChildren(db, rows, nodes, N);
      if err.Some? { return; }
      err, S5 := EdgeLogs(db, rows, nodes, N);
      if err.Some? { return; }
      err, S6 := EdgeJoins(db, rows, nodes, N);
    }

    /** The six steps of `sqlAll`, in its order; the first error ends them. */
    method LoadEdges(db: Database, ghost rows: seq<Account>, nodes: seq<AccountNode>, ghost N: set<AccountNode>)
        returns (err: Option<QueryError>, ghost S1: set<object>, ghost S2: set<object>, ghost S3: set<object>, ghost S4: set<object>, ghost S5: set<object>, ghost S6: set<object>)
      requires this !in Below() && EdgesValid() && ValidDatabase(db)
      requires LeafLoadable(GroupsPlan()) && LeafLoadable(ProxyPlan()) && AccountLoadable(ParentPlan()) && AccountLoadable(ChildrenPlan()) && LeafLoadable(LogsPlan()) && JoinLoadable(JoinsPlan())
      requires Within(nodes, N) && Covers(nodes, N) && Distinct(nodes) && N !! Below()
      requires Keyed(nodes, rows, withProxy != null, withParent != null, N) && UniqueBy(rows, AccountId)
      requires GroupsShown(db, None, nodes, RowIds(rows), N, {})
      requires ProxiesShown(db, None, nodes, Keys(rows, ProxyKey), N, {})
      requires ParentsShown(db, None, nodes, Keys(rows, ParentKey), N, {})
      requires ChildrenAreShown(db, None, nodes, RowIds(rows), N, {})
      requires LogsAreShown(db, None, nodes, RowIds(rows), N, {})
      requires JoinsAreShown(db, None, nodes, RowIds(rows), N, {})
      modifies groupsRepr, proxyRepr, parentRepr, childrenRepr, logsRepr, joinsRepr, N`groups, N`proxy, N`parent, N`children, N`usageLogs, N`accountGroups
      decreases Repr(), 3, 3
      ensures this !in Below() && EdgesValid()
      ensures Edges() == old(Edges()).(groups := GroupsPlan(), proxy := ProxyPlan(), parent := ParentPlan(), children := ChildrenPlan(), usageLogs := LogsPlan(), accountGroups := JoinsPlan())
      ensures fresh(S1 + S2 + S3 + S4 + S5 + S6)
      ensures LeafOptionValid(old(GroupsPlan())) && LeafOptionValid(old(ProxyPlan())) && AccountOptionValid(old(ParentPlan())) && AccountOptionValid(old(ChildrenPlan())) && LeafOptionValid(old(LogsPlan())) && JoinOptionValid(old(JoinsPlan())) ==> err.None?
      ensures err.None? ==> GroupsShown(db, old(GroupsPlan()), nodes, RowIds(rows), N, S1)
      ensures GroupsPlan().Some? == old(GroupsPlan()).Some?
      ensures err.None? ==> ProxiesShown(db, old(ProxyPlan()), nodes, Keys(rows, ProxyKey), N, S2)
      ensures err.Some? || LeafReruns(db, old(ProxyPlan()), ProxyPlan(), Keys(rows, ProxyKey))
      ensures err.None? ==> ParentsShown(db, old(ParentPlan()), nodes, Keys(rows, ParentKey), N, S3)
      ensures err.Some? || ParentReruns(db, old(ParentPlan()), ParentPlan(), Keys(rows, ParentKey))
      ensures err.None? ==> ChildrenAreShown(db, old(ChildrenPlan()), nodes, RowIds(rows), N, S4)
      ensures err.Some? || ChildrenRerun(db, old(ChildrenPlan()), ChildrenPlan(), RowIds(rows))
      ensures err.None? ==> LogsAreShown(db, old(LogsPlan()), nodes, RowIds(rows), N, S5)
      ensures err.Some? || LogsRerun(db, old(LogsPlan()), LogsPlan(), RowIds(rows))
      ensures err.None? ==> JoinsAreShown(db, old(JoinsPlan()), nodes, RowIds(rows), N, S6)
      ensures err.Some? || JoinsRerun(db, old(JoinsPlan()), JoinsPlan(), RowIds(rows))
    {
      hide GroupsShown, ProxiesShown, ParentsShown, ChildrenAreShown, LogsAreShown, JoinsAreShown;
      hide GroupsPlan, ProxyPlan, ParentPlan, ChildrenPlan, LogsPlan, JoinsPlan, EdgesValid;
      hide LeafLoadable, AccountLoadable, JoinLoadable, LeafOptionValid, AccountOptionValid, JoinOptionValid;
      hide ValidDatabase, UniqueBy, Keyed, Within, Covers, Distinct;
      S1, S2, S3, S4, S5, S6 := {}, {}, {}, {}, {}, {};
      err, S1, S2, S3 := LoadFirstThree(db, rows, nodes, N);
      if err.Some? { return; }
      err, S4, S5, S6 := LoadLastThree(db, rows, nodes, N);
    }

    lemma TypesOfPlan()
      requires Valid()
      ensures var p := Denote();
              LoadedTypes() == [p.groups.Some?, p.proxy.Some?, p.parent.Some?, p.children.Some?, p.usageLogs.Some?, p.accountGroups.Some?]
    {
      assert EdgesValid();
      var e := Edges();
      assert e == EdgePlans(GroupsPlan(), ProxyPlan(), ParentPlan(), ChildrenPlan(), LogsPlan(), JoinsPlan());
    }

    /** The edges of new objects: `S` is what lies below them. */
    method FillNodes(db: Database, ghost rows: seq<Account>, nodes: seq<AccountNode>, ghost N: set<AccountNode>)
        returns (err: Option<QueryError>, ghost S: set<object>)
      requires Valid() && ValidDatabase(db) && EdgesLoadable(Denote())
      requires Within(nodes, N) && Covers(nodes, N) && Distinct(nodes) && N !! Repr() && UniqueBy(rows, AccountId)
      requires BareNodes(nodes, rows, AccountColumns(ctx.fields, withProxy != null, withParent != null), LoadedTypes())
      modifies Below(), N
      decreases Repr(), 3, 4
      ensures Valid()
      ensures fresh(S)
      ensures PlanFieldsValid(old(Denote())) ==> err.None?
      ensures err.Some? || forall L: set<object> | S <= L && (forall x | x in N :: x in L) :: ShowsBatch(db, old(Denote()), rows, nodes, L)
      ensures err.Some? || Reruns(db, old(Denote()), Denote(), rows)
    {
      hide GroupsShown, ProxiesShown, ParentsShown, ChildrenAreShown, LogsAreShown, JoinsAreShown;
      hide GroupsPlan, ProxyPlan, ParentPlan, ChildrenPlan, LogsPlan, JoinsPlan, EdgesValid;
      hide LeafLoadable, AccountLoadable, JoinLoadable, LeafOptionValid, AccountOptionValid, JoinOptionValid;
      hide ValidDatabase, UniqueBy, Keyed, Within, Covers, Distinct, BareNodes, Fielded, ShowsBatch, Selected, Window;
      ghost var p := Denote();
      TypesOfPlan();
      BareIsKeyed(nodes, rows, ctx.fields, withProxy != null, withParent != null, LoadedTypes(), N, db);
      ghost var S1, S2, S3, S4, S5, S6;
      err, S1, S2, S3, S4, S5, S6 := LoadEdges(db, rows, nodes, N);
      S := S1 + S2 + S3 + S4 + S5 + S6;
      if err.None? {
        EdgesRerun(db, p, Denote(), rows);
        forall L: set<object> | S <= L && (forall x | x in N :: x in L)
          ensures ShowsBatch(db, p, rows, nodes, L)
        {
          GraphShown(db, p, rows, nodes, N, S1, S2, S3, S4, S5, S6, L);
        }
      }
    }

    /** `sqlAll`: one object per selected row, then every requested edge for all objects at once. */
    method SqlAll(db: Database) returns (err: Option<QueryError>, nodes: seq<AccountNode>, ghost S: set<object>)
      requires Valid() && ValidDatabase(db) && EdgesLoadable(Denote())
      modifies Repr()
      decreases Repr(), 4
      ensures Valid() && Repr() == old(Repr())
      ensures inters == old(inters) && order == old(order) && ctx == old(ctx) && ctx.Value() == old(ctx.Value())
      ensures predicates == old(predicates)
      ensures fresh(S)
      ensures PlanFieldsValid(old(Denote())) ==> err.None?
      ensures err.None? ==> ShowsBatch(db, old(Denote()), old(Window(Selected(db.accounts, predicates, order), ctx.offset, ctx.limit)), nodes, S)
      ensures err.Some? || Reruns(db, old(Denote()), Denote(), old(Window(Selected(db.accounts, predicates, order), ctx.offset, ctx.limit)))
    {
      hide GroupsShown, ProxiesShown, ParentsShown, ChildrenAreShown, LogsAreShown, JoinsAreShown;
      hide GroupsPlan, ProxyPlan, ParentPlan, ChildrenPlan, LogsPlan, JoinsPlan, EdgesValid;
      hide LeafLoadable, AccountLoadable, JoinLoadable, LeafOptionValid, AccountOptionValid, JoinOptionValid;
      hide ValidDatabase, UniqueBy, Keyed, Within, Covers, Distinct, BareNodes, Fielded, ShowsBatch, Selected, Window;
      hide Edges;
      ghost var p := Denote();
      ghost var rows := Window(Selected(db.accounts, predicates, order), ctx.offset, ctx.limit);
      ghost var N;
      TypesOfPlan();
      nodes, N, S := Nodes(db);
      if |nodes| == 0 {
        NothingShown(db, p, rows, nodes, N, LoadedTypes(), S);
        RerunsSelf(db, p, rows);
        return None, nodes, S;
      }
      RowsUnique(db, p.ctx, predicates, order);
      ghost var S1;
      err, S1 := FillNodes(db, rows, nodes, N);
      S := S + S1;
    }

    method All(db: Database) returns (err: Option<QueryError>, nodes: seq<AccountNode>, ghost S: set<object>)
      requires Valid() && ValidDatabase(db) && EdgesLoadable(Denote())
      modifies Repr()
      decreases Repr(), 5
      ensures Valid() && Repr() == old(Repr())
      ensures inters == old(inters) && order == old(order) && ctx == old(ctx) && ctx.Value() == old(ctx.Value())
      ensures fresh(S)
      ensures !AccountFieldsValid(old(ctx.fields)) ==> err == Some(InvalidField)
      ensures PlanFieldsValid(old(Denote())) ==> err.None?
      ensures err.None? ==> ShowsBatch(db, old(Denote()), AccountRows(db, old(Denote())), nodes, S)
      ensures err.Some? || Reruns(db, old(Denote()), Denote(), AccountRows(db, old(Denote())))
      ensures err.None? ==> GraphMeans(db, old(Denote()), old(predicates + inters), nodes, S)
    {
      hide RightTables, GraphMeans;
      ghost var p, before := Denote(), predicates;
      RightPlan();
      err := PrepareQuery();
      ghost var q := Denote();
      SelectedTraversed(db.accounts, before, inters, order);
      nodes, S := [], {};
      if err.None? {
        err, nodes, S := SqlAll(db);
      }
      if err.None? {
        SameTrees(db, p, q, AccountRows(db, p), nodes, S);
        RerunsFrom(db, p, q, Denote(), AccountRows(db, p));
        BatchMeans(db, p, before + inters, nodes, S);
      }
    }

    method Limit(n: nat)
      requires Valid()
      modifies ctx`limit
      ensures Valid() && Repr() == old(Repr())
      ensures Denote() == old(Denote()).(ctx := old(ctx.Value()).(limit := Some(n)))
    {
      ctx.limit := Some(n);
    }

    /** The first row behind the offset, with its edges; the limit of the builder is overwritten. */
    method First(db: Database) returns (err: Option<QueryError>, node: AccountNode?, ghost S: set<object>)
      requires Valid() && ValidDatabase(db) && EdgesLoadable(Denote())
      modifies Repr()
      ensures Valid() && fresh(S) && ctx.Value() == old(ctx.Value()).(limit := Some(1))
      ensures var p := old(Denote());
              var rows := Skip(SelectedAccounts(db, p), p.ctx.offset);
              PlanFieldsValid(p) ==>
                if rows == [] then err == Some(QueryError.NotFound)
                else err == None && node != null && Shows(node, JoinAccount(db, p, p.ctx.fields, rows[0]), S)
      ensures err.None? ==> node != null && GraphMeans(db, old(Denote()).(ctx := ctx.Value()), old(predicates + inters), [node], S)
      ensures PlanFieldsValid(old(Denote())) && err.Some? ==> Answer(db.accounts, old(predicates + inters), old(order), old(ctx.offset), Some(1), [])
    {
      hide EdgesValid, ValidDatabase, Reruns, JoinAccount, Shows, Selected, Edges, Means, Answer;
      ghost var p := Denote();
      Limit(1);
      ghost var q := Denote();
      assert SelectedAccounts(db, q) == SelectedAccounts(db, p);
      var nodes;
      err, nodes, S := All(db);
      node := null;
      if err.Some? {
        return;
      }
      if |nodes| == 0 {
        EmptyAnswer(db, q, p.filters, nodes, S);
        return Some(QueryError.NotFound), null, S;
      }
      node := nodes[0];
      assert nodes == [node];
      JoinIgnoresFilters(db, p, q, p.ctx.fields, AccountRows(db, q)[0]);
    }

    /** The one row behind the offset: none is an error, and so are two or more. */
    method Only(db: Database) returns (err: Option<QueryError>, node: AccountNode?, ghost S: set<object>)
      requires Valid() && ValidDatabase(db) && EdgesLoadable(Denote())
      modifies Repr()
      ensures Valid() && fresh(S) && ctx.Value() == old(ctx.Value()).(limit := Some(2))
      ensures var p := old(Denote());
              var rows := Skip(SelectedAccounts(db, p), p.ctx.offset);
              PlanFieldsValid(p) ==>
                if rows == [] then err == Some(QueryError.NotFound)
                else if |rows| > 1 then err == Some(NotSingular)
                else err == None && node != null && Shows(node, JoinAccount(db, p, p.ctx.fields, rows[0]), S)
      ensures err.None? ==> node != null && GraphMeans(db, old(Denote()).(ctx := ctx.Value()), old(predicates + inters), [node], S)
      ensures PlanFieldsValid(old(Denote())) && err == Some(QueryError.NotFound) ==>
                Answer(db.accounts, old(predicates + inters), old(order), old(ctx.offset), Some(2), [])
      ensures PlanFieldsValid(old(Denote())) && err == Some(NotSingular) ==>
                exists r, s :: Answer(db.accounts, old(predicates + inters), old(order), old(ctx.offset), Some(2), [r, s])
      ensures PlanFieldsValid(old(Denote())) ==> err in {None, Some(QueryError.NotFound), Some(NotSingular)}
    {
      hide EdgesValid, ValidDatabase, Reruns, JoinAccount, Shows, Selected, Edges, Means, Answer;
      ghost var p := Denote();
      Limit(2);
      ghost var q := Denote();
      assert SelectedAccounts(db, q) == SelectedAccounts(db, p);
      var nodes;
      err, nodes, S := All(db);
      node := null;
      if err.Some? {
        return;
      }
      if |nodes| == 0 {
        EmptyAnswer(db, q, p.filters, nodes, S);
        return Some(QueryError.NotFound), null, S;
      }
      if |nodes| > 1 {
        TwoAnswers(db, q, p.filters, nodes, S);
        return Some(NotSingular), null, S;
      }
      node := nodes[0];
      assert nodes == [node];
      JoinIgnoresFilters(db, p, q, p.ctx.fields, AccountRows(db, q)[0]);
    }
  }

  class AccountGroupQuery {
    var ctx: QueryContext<JoinColumn>
    var order: seq<AccountGroup -> int>
    var inters: seq<AccountGroup -> bool>
    var predicates: seq<AccountGroup -> bool>
    var withAccount: AccountQuery?
    var withGroup: LeafQuery?
    var modifiers: seq<LockMode>
    ghost var accountRepr: set<object>
    ghost var groupRepr: set<object>

    constructor (inters: seq<AccountGroup -> bool>)
      ensures Valid() && fresh(Repr())
      ensures Denote() == AccountGroupPlan(Context([], None, None, None), [], inters, None, None)
      ensures predicates == [] && this.inters == inters && modifiers == []
    {
      this.inters := inters;
      order, predicates, modifiers := [], [], [];
      withAccount, withGroup := null, null;
      accountRepr, groupRepr := {}, {};
      ctx := new QueryContext(Context([], None, None, None));
    }

    ghost function Repr(): set<object>
      reads this
    {
      {this, ctx} + accountRepr + groupRepr
    }

    ghost predicate Valid()
      reads this, Repr()
      decreases Repr(), 2
    {
      && {this, ctx} !! accountRepr !! groupRepr
      && AccountValid() && GroupValid()
    }

    ghost predicate AccountValid()
      reads this`withAccount, this`accountRepr, accountRepr
      decreases accountRepr + {this}, 0
    {
      withAccount != null ==>
        && this !in accountRepr && withAccount in accountRepr
        && withAccount.Repr() == accountRepr && withAccount.Valid()
    }

    ghost predicate GroupValid()
      reads this`withGroup, this`groupRepr, groupRepr
    {
      withGroup != null ==> withGroup in groupRepr && withGroup.Owns(groupRepr, Groups)
    }

    ghost function Denote(): AccountGroupPlan
      reads this, Repr()
      decreases Repr(), 8
    {
      AccountGroupPlan(ctx.Value(), order, predicates + inters, AccountPlanBelow(), GroupPlan())
    }

    ghost function AccountPlanBelow(): Option<AccountPlan>
      reads this`withAccount, this`accountRepr, accountRepr
      decreases accountRepr + {this}, 5
    {
      if withAccount == null || !AccountValid() then None else Some(withAccount.Denote())
    }

    ghost function GroupPlan(): Option<LeafPlan>
      reads this`withGroup, this`groupRepr, groupRepr
    {
      if withGroup == null || !GroupValid() then None else Some(withGroup.Denote())
    }

    /** Every builder below reads the table of its edge. */
    lemma RightPlan()
      requires Valid()
      ensures RightJoinTables(Denote())
      decreases Repr(), 9
    {
      if withAccount != null {
        withAccount.RightPlan();
      }
    }

    method Where(p: AccountGroup -> bool)
      requires Valid()
      modifies this`predicates
      ensures Valid() && predicates == old(predicates) + [p]
      ensures Denote() == old(Denote()).(filters := predicates + inters)
    {
      predicates := predicates + [p];
    }

    method WithAccount(query: AccountQuery)
      requires Valid() && query.Valid() && query.Repr() !! Repr()
      modifies this`withAccount, this`accountRepr
      ensures Valid() && Repr() <= old(Repr()) + query.Repr()
      ensures Denote() == old(Denote()).(account := Some(old(query.Denote())))
    {
      hide GroupValid, GroupPlan;
      withAccount := query;
      accountRepr := query.Repr();
      assert AccountPlanBelow() == Some(query.Denote());
    }

    method WithGroup(query: LeafQuery)
      requires Valid() && query.Owns({query, query.ctx}, Groups) && {query, query.ctx} !! Repr()
      modifies this`withGroup, this`groupRepr
      ensures Valid() && Repr() <= old(Repr()) + {query, query.ctx}
      ensures Denote() == old(Denote()).(group := Some(old(query.Denote())))
    {
      hide AccountValid, AccountPlanBelow;
      withGroup := query;
      groupRepr := {query, query.ctx};
    }

    method CloneBelow() returns (e: AccountQuery?)
      requires Valid()
      decreases Repr(), 0
      ensures e == null ==> AccountPlanBelow() == None
      ensures e != null ==> e.Valid() && fresh(e.Repr()) && AccountPlanBelow() == Some(e.Denote())
    {
      hide GroupValid, GroupPlan;
      e := null;
      if withAccount != null {
        assert AccountValid();
        e := withAccount.Clone();
      }
    }

    method CloneAccount(c: AccountGroupQuery)
      requires Valid() && c.Valid() && c.Repr() !! Repr() && c.Denote().account == None
      modifies c`withAccount, c`accountRepr
      decreases Repr(), 1
      ensures c.Valid() && fresh(c.Repr() - old(c.Repr()))
      ensures c.Denote() == old(c.Denote()).(account := Denote().account)
    {
      hide AccountValid, GroupValid, AccountPlanBelow, GroupPlan;
      var e := CloneBelow();
      if e != null {
        c.WithAccount(e);
      }
    }

    method CloneGroup(c: AccountGroupQuery)
      requires Valid() && c.Valid() && c.Repr() !! Repr() && c.Denote().group == None
      modifies c`withGroup, c`groupRepr
      decreases Repr(), 0
      ensures c.Valid() && fresh(c.Repr() - old(c.Repr()))
      ensures c.Denote() == old(c.Denote()).(group := Denote().group)
    {
      if withGroup != null {
        ghost var p := GroupPlan();
        var e := withGroup.Clone();
        c.WithGroup(e);
      }
    }

    method Clone() returns (c: AccountGroupQuery)
      requires Valid()
      decreases Repr(), 3
      ensures c.Valid() && fresh(c.Repr()) && c.Denote() == Denote()
      ensures c.predicates == predicates && c.inters == inters && c.modifiers == []
    {
      hide AccountValid, GroupValid, AccountPlanBelow, GroupPlan;
      c := CloneSelf();
      CloneAccount(c);
      CloneGroup(c);
    }

    method CloneSelf() returns (c: AccountGroupQuery)
      ensures c.Valid() && fresh(c.Repr())
      ensures c.Denote() == AccountGroupPlan(ctx.Value(), order, predicates + inters, None, None)
      ensures c.predicates == predicates && c.inters == inters && c.modifiers == []
    {
      c := new AccountGroupQuery(inters);
      c.ctx := ctx.Clone();
      c.order, c.predicates := order, predicates;
    }

    /** The traverser loop of `prepareQuery`. */
    method Traverse()
      modifies this`predicates
      ensures predicates == old(predicates) + inters
    {
      for i := 0 to |inters|
        invariant predicates == old(predicates) + inters[..i]
      {
        predicates := predicates + [inters[i]];
      }
      assert inters[..|inters|] == inters;
    }

    method PrepareQuery() returns (err: Option<QueryError>)
      requires Valid()
      modifies this`predicates
      ensures Valid() && predicates == old(predicates) + inters
      ensures Denote() == old(Denote()).(filters := predicates + inters)
      ensures err == if JoinFieldsValid(ctx.fields) then None else Some(InvalidField)
    {
      Traverse();
      err := CheckJoinFields(ctx.fields);
    }

    method AppendFieldOnce(c: JoinColumn)
      requires Valid()
      modifies ctx`fields
      ensures Valid()
      ensures Denote() == old(Denote()).(ctx := old(ctx.Value()).(fields := WithForeignKey(old(ctx.fields), c)))
    {
      if |ctx.fields| > 0 {
        ctx.AppendFieldOnce(c);
      }
    }

    /** The query of `loadAccountGroups`. */
    method AllOf(db: Database, ids: seq<int>)
        returns (err: Option<QueryError>, neighbors: seq<AccountGroupNode>, ghost q: AccountGroupPlan, ghost S: set<object>)
      requires Valid() && ValidDatabase(db) && Whole(Denote()) && JoinEdgesLoadable(Denote())
      modifies Repr()
      decreases Repr(), 6
      ensures Valid() && Repr() == old(Repr())
      ensures fresh(S)
      ensures JoinPlanFieldsValid(old(Denote())) ==> err.None?
      ensures err.None? ==> JoinBatch(db, old(Denote()), q, ids, neighbors, S)
      ensures q == old(Denote()).(ctx := old(Denote()).ctx.(fields := WithForeignKey(old(Denote()).ctx.fields, AccountID)), filters := q.filters)
      ensures SelectedJoins(db, q) == JoinBatchRows(db, old(Denote()), ids)
      ensures JoinPlanFieldsValid(old(Denote())) ==> JoinPlanFieldsValid(q)
      ensures err.Some? || JoinReruns(db, q, Denote(), SelectedJoins(db, q))
    {
      ghost var p, before := Denote(), predicates;
      AppendFieldOnce(AccountID);
      Where(JoinAccountIn(ids));
      q := Denote();
      SelectedLoadFilter(db.accountGroups, before, JoinAccountIn(ids), inters, order);
      assert ALL_JOIN_COLUMNS[0] == AccountID;
      StaysWhole(p, q);
      WholeRows(db, q);
      err, neighbors, S := All(db);
      if err.None? {
        JoinBatchKeys(db, p, q, ids, neighbors, S);
      }
    }

    /** Each join row receives the neighbour that its key names. */
    static method GiveAccount(ghost db: Database, ghost p: AccountPlan, ghost q: AccountPlan, nodes: seq<AccountGroupNode>, fks: seq<Option<int>>,
                              ghost ids: seq<int>, nodeids: map<int, seq<AccountGroupNode>>, neighbors: seq<AccountNode>,
                              ghost N: set<AccountGroupNode>, ghost S: set<object>)
        returns (err: Option<QueryError>)
      requires ValidDatabase(db) && Within(nodes, N) && IndexOf(nodes, fks, nodeids, N) && N !! S && IdBatch(db, p, q, ids, neighbors, S)
      requires (forall k :: k in nodeids <==> k in ids) && KeysIn(fks, ids)
      requires forall i | 0 <= i < |nodes| :: nodes[i].account == null
      modifies N`account
      ensures err.None? && AccountsShown(db, Some(p), nodes, fks, N, S)
    {
      hide ValidDatabase, ShowsOption, JoinByKey, ShowsBatch;
      assert |nodes| == |fks|;
      hide IndexOf, KeysIn;
      err := ScatterAccount(nodes, fks, nodeids, neighbors, N);
      AccountsByKeyShown(db, p, q, ids, fks, neighbors, S);
    }

    /** The part of `loadAccount` after its index is built. */
    static method FillAccount(db: Database, query: AccountQuery, nodes: seq<AccountGroupNode>, fks: seq<Option<int>>, ids: seq<int>,
                       nodeids: map<int, seq<AccountGroupNode>>, ghost N: set<AccountGroupNode>)
        returns (err: Option<QueryError>, ghost S: set<object>)
      requires query.Valid() && ValidDatabase(db) && Unwindowed(query.Denote().ctx) && EdgesLoadable(query.Denote())
      requires Within(nodes, N) && IndexOf(nodes, fks, nodeids, N) && N !! query.Repr()
      requires (forall k :: k in nodeids <==> k in ids) && KeysIn(fks, ids)
      requires forall i | 0 <= i < |nodes| :: nodes[i].account == null
      modifies query.Repr(), N`account
      decreases query.Repr(), 7
      ensures query.Valid() && query.Repr() == old(query.Repr())
      ensures fresh(S)
      ensures PlanFieldsValid(old(query.Denote())) ==> err.None?
      ensures err.None? ==> AccountsShown(db, Some(old(query.Denote())), nodes, fks, N, S)
      ensures err.Some? || SameByKey(db, old(query.Denote()), query.Denote(), fks)
    {
      hide AccountQuery.Valid, AccountQuery.Denote, EdgesLoadable, PlanFieldsValid, ValidDatabase, Unwindowed, Reruns, SameByKey, ShowsOption, JoinByKey;
      hide IdBatch, AccountsShown, IndexOf;
      ghost var p := query.Denote();
      var neighbors;
      ghost var q;
      err, neighbors, q, S := query.AllWithIds(db, ids);
      if err.None? {
        ByKeyReruns(db, p, q, query.Denote(), ids, fks);
        err := GiveAccount(db, p, q, nodes, fks, ids, nodeids, neighbors, N, S);
      }
    }

    /** `loadAccount`. */
    static method LoadAccount(db: Database, query: AccountQuery, nodes: seq<AccountGroupNode>, ghost keys: seq<Option<int>>, ghost N: set<AccountGroupNode>)
        returns (err: Option<QueryError>, ghost S: set<object>)
      requires query.Valid() && ValidDatabase(db) && Unwindowed(query.Denote().ctx) && EdgesLoadable(query.Denote())
      requires Within(nodes, N) && Distinct(nodes) && keys == JoinKeys(nodes) && N !! query.Repr()
      requires forall i | 0 <= i < |nodes| :: nodes[i].account == null
      modifies query.Repr(), N`account
      decreases query.Repr(), 8
      ensures query.Valid() && query.Repr() == old(query.Repr())
      ensures fresh(S)
      ensures PlanFieldsValid(old(query.Denote())) ==> err.None?
      ensures err.None? ==> AccountsShown(db, Some(old(query.Denote())), nodes, keys, N, S)
      ensures err.Some? || SameByKey(db, old(query.Denote()), query.Denote(), keys)
    {
      hide AccountQuery.Valid, EdgesLoadable, PlanFieldsValid, ValidDatabase, AccountQuery.Denote, DistinctKeys, Positions, Pick;
      var fks := JoinKeys(nodes);
      var ids, nodeids := IndexByForeignKey(nodes, fks);
      if |ids| == 0 {
        NoAccounts(db, query.Denote(), nodes, fks, N);
        return None, {};
      }
      PickedIndex(nodes, fks, nodeids, N);
      err, S := FillAccount(db, query, nodes, fks, ids, nodeids, N);
    }

    /** The part of `loadGroup` after its index is built. */
    static method FillGroup(db: Database, query: LeafQuery, nodes: seq<AccountGroupNode>, fks: seq<Option<int>>, ids: seq<int>,
                       nodeids: map<int, seq<AccountGroupNode>>, ghost N: set<AccountGroupNode>)
        returns (err: Option<QueryError>, ghost S: set<object>)
      requires query.Valid() && Unwindowed(query.ctx.Value()) && ValidDatabase(db)
      requires Within(nodes, N) && IndexOf(nodes, fks, nodeids, N)
      requires (forall k :: k in nodeids <==> k in ids) && KeysIn(fks, ids)
      requires forall i | 0 <= i < |nodes| :: nodes[i].group == null
      modifies query`predicates, N`group
      ensures fresh(S)
      ensures LeafFieldsValid(old(query.Denote())) ==> err.None?
      ensures err.None? ==> GroupEdgesShown(db, Some(old(query.Denote())), nodes, fks, N, S)
      ensures err.Some? || SameLeaves(db, old(query.Denote()), query.Denote(), fks)
    {
      ghost var p := query.Denote();
      var neighbors;
      err, neighbors, S := query.AllWithIds(db, ids);
      if err.None? {
        err := ScatterGroup(nodes, fks, nodeids, neighbors, N);
        LeavesByKeyShown(db, p, ids, fks, neighbors, S);
        LeavesRerun(db, p, query.Denote(), ids, fks);
      }
    }

    /** `loadGroup`. */
    static method LoadGroup(db: Database, query: LeafQuery, nodes: seq<AccountGroupNode>, ghost keys: seq<Option<int>>, ghost N: set<AccountGroupNode>)
        returns (err: Option<QueryError>, ghost S: set<object>)
      requires query.Valid() && Unwindowed(query.ctx.Value()) && ValidDatabase(db)
      requires Within(nodes, N) && Distinct(nodes) && keys == OwnGroupKeys(nodes)
      requires forall i | 0 <= i < |nodes| :: nodes[i].group == null
      modifies query`predicates, N`group
      ensures fresh(S)
      ensures LeafFieldsValid(old(query.Denote())) ==> err.None?
      ensures err.None? ==> GroupEdgesShown(db, Some(old(query.Denote())), nodes, keys, N, S)
      ensures err.Some? || SameLeaves(db, old(query.Denote()), query.Denote(), keys)
    {
      var fks := OwnGroupKeys(nodes);
      var ids, nodeids := IndexByForeignKey(nodes, fks);
      if |ids| == 0 {
        NoGroupEdges(db, query.Denote(), nodes, fks, N);
        return None, {};
      }
      PickedIndex(nodes, fks, nodeids, N);
      err, S := FillGroup(db, query, nodes, fks, ids, nodeids, N);
    }

    /** Which edges this builder loads. */
    function LoadedTypes(): (r: seq<bool>)
      reads this
    {
      [withAccount != null, withGroup != null]
    }

    /** `QueryNodes`: one object per selected row. */
    method Nodes(db: Database) returns (nodes: seq<AccountGroupNode>, ghost N: set<AccountGroupNode>, ghost S: set<object>)
      ensures fresh(N) && fresh(S) && (forall x | x in N :: x in S)
      ensures Within(nodes, N) && Distinct(nodes)
      ensures BareJoinNodes(nodes, RowsOfJoinQuery(db, ctx.Value(), predicates, order, withAccount != null, withGroup != null),
                            JoinColumns(ctx.fields, withAccount != null, withGroup != null), LoadedTypes())
    {
      hide RowsOfJoinQuery, JoinColumns, DecodeJoin;
      var columns := JoinSpecColumns(ctx.fields, withAccount != null, withGroup != null);
      var rows := RowsOfJoinQuery(db, ctx.Value(), predicates, order, withAccount != null, withGroup != null);
      nodes, N, S := [], {}, {};
      for i := 0 to |rows|
        invariant fresh(N) && fresh(S) && (forall x | x in N :: x in S)
        invariant |nodes| == i && Within(nodes, N) && Distinct(nodes)
        invariant forall k | 0 <= k < i :: BareJoinNode(nodes[k], rows[k], columns, LoadedTypes())
      {
        var node := new AccountGroupNode(DecodeJoin(rows[i], columns), LoadedTypes());
        nodes, N, S := nodes + [node], N + {node}, S + {node};
      }
    }

    lemma TypesOfPlan()
      requires Valid()
      ensures LoadedTypes() == [Denote().account.Some?, Denote().group.Some?]
    {
    }

    /** The `withAccount` step of `sqlAll`. */
    method EdgeAccount(db: Database, ghost rows: seq<AccountGroup>, nodes: seq<AccountGroupNode>, ghost N: set<AccountGroupNode>)
        returns (err: Option<QueryError>, ghost S: set<object>)
      requires Valid() && ValidDatabase(db) && AccountLoadable(AccountPlanBelow())
      requires Within(nodes, N) && Distinct(nodes) && N !! Repr()
      requires JoinKeyed(nodes, rows, withAccount != null, withGroup != null, N)
      requires AccountsShown(db, None, nodes, Keys(rows, JoinKey), N, {})
      modifies accountRepr, N`account
      decreases Repr(), 3, 0
      ensures Valid() && Denote() == old(Denote()).(account := AccountPlanBelow())
      ensures fresh(S)
      ensures AccountOptionValid(old(AccountPlanBelow())) ==> err.None?
      ensures err.Some? || AccountsShown(db, old(AccountPlanBelow()), nodes, Keys(rows, JoinKey), N, S)
      ensures err.Some? || ParentReruns(db, old(AccountPlanBelow()), AccountPlanBelow(), Keys(rows, JoinKey))
    {
      err, S := None, {};
      if withAccount != null {
        ghost var p := AccountPlanBelow();
        assert JoinKeys(nodes) == Keys(rows, JoinKey);
        err, S := LoadAccount(db, withAccount, nodes, Keys(rows, JoinKey), N);
      }
    }

    /** The `withGroup` step of `sqlAll`. */
    method EdgeGroup(db: Database, ghost rows: seq<AccountGroup>, nodes: seq<AccountGroupNode>, ghost N: set<AccountGroupNode>)
        returns (err: Option<QueryError>, ghost S: set<object>)
      requires Valid() && ValidDatabase(db) && LeafLoadable(GroupPlan())
      requires Within(nodes, N) && Distinct(nodes) && N !! Repr()
      requires JoinKeyed(nodes, rows, withAccount != null, withGroup != null, N)
      requires GroupEdgesShown(db, None, nodes, Keys(rows, JoinedGroupKey), N, {})
      modifies groupRepr, N`group
      decreases Repr(), 3, 0
      ensures Valid() && Denote() == old(Denote()).(group := GroupPlan())
      ensures fresh(S)
      ensures LeafOptionValid(old(GroupPlan())) ==> err.None?
      ensures err.Some? || GroupEdgesShown(db, old(GroupPlan()), nodes, Keys(rows, JoinedGroupKey), N, S)
      ensures err.Some? || LeafReruns(db, old(GroupPlan()), GroupPlan(), Keys(rows, JoinedGroupKey))
    {
      err, S := None, {};
      if withGroup != null {
        ghost var p := GroupPlan();
        assert OwnGroupKeys(nodes) == Keys(rows, JoinedGroupKey);
        err, S := LoadGroup(db, withGroup, nodes, Keys(rows, JoinedGroupKey), N);
      }
    }

    /** The edges of new objects, in the order of `sqlAll`; the first error ends them. */
    method FillNodes(db: Database, ghost rows: seq<AccountGroup>, nodes: seq<AccountGroupNode>, ghost N: set<AccountGroupNode>)
        returns (err: Option<QueryError>, ghost S: set<object>)
      requires Valid() && ValidDatabase(db) && JoinEdgesLoadable(Denote())
      requires Within(nodes, N) && Distinct(nodes) && N !! Repr()
      requires BareJoinNodes(nodes, rows, JoinColumns(ctx.fields, withAccount != null, withGroup != null), LoadedTypes())
      modifies accountRepr, groupRepr, N`account, N`group
      decreases Repr(), 3, 4
      ensures Valid()
      ensures fresh(S)
      ensures JoinPlanFieldsValid(old(Denote())) ==> err.None?
      ensures err.Some? || forall L: set<object> | S <= L && (forall x | x in N :: x in L) :: ShowsJoinBatch(db, old(Denote()), rows, nodes, L)
      ensures err.Some? || JoinReruns(db, old(Denote()), Denote(), rows)
    {
      hide AccountsShown, GroupEdgesShown, AccountValid, GroupValid, AccountPlanBelow, GroupPlan;
      hide LeafLoadable, AccountLoadable, LeafOptionValid, AccountOptionValid;
      hide ValidDatabase, JoinKeyed, Within, Distinct, BareJoinNodes, JoinFielded, ShowsJoinBatch;
      ghost var p := Denote();
      TypesOfPlan();
      BareIsJoinKeyed(nodes, rows, ctx.fields, withAccount != null, withGroup != null, LoadedTypes(), N, db);
      ghost var S1, S2 := {}, {};
      S := {};
      err, S1 := EdgeAccount(db, rows, nodes, N);
      if err.Some? { return; }
      err, S2 := EdgeGroup(db, rows, nodes, N);
      S := S1 + S2;
      if err.None? {
        JoinEdgesRerun(db, p, Denote(), rows);
        forall L: set<object> | S <= L && (forall x | x in N :: x in L)
          ensures ShowsJoinBatch(db, p, rows, nodes, L)
        {
          JoinGraphShown(db, p, rows, nodes, N, S1, S2, L);
        }
      }
    }

    /** `sqlAll`: one object per selected row, then every requested edge for all objects at once. */
    method SqlAll(db: Database) returns (err: Option<QueryError>, nodes: seq<AccountGroupNode>, ghost S: set<object>)
      requires Valid() && ValidDatabase(db) && JoinEdgesLoadable(Denote())
      modifies Repr()
      decreases Repr(), 4
      ensures Valid() && Repr() == old(Repr())
      ensures inters == old(inters) && order == old(order) && ctx == old(ctx) && ctx.Value() == old(ctx.Value())
      ensures predicates == old(predicates)
      ensures fresh(S)
      ensures JoinPlanFieldsValid(old(Denote())) ==> err.None?
      ensures err.None? ==> ShowsJoinBatch(db, old(Denote()), old(RowsOfJoinQuery(db, ctx.Value(), predicates, order, withAccount != null, withGroup != null)), nodes, S)
      ensures err.Some? || JoinReruns(db, old(Denote()), Denote(), old(RowsOfJoinQuery(db, ctx.Value(), predicates, order, withAccount != null, withGroup != null)))
    {
      hide AccountValid, GroupValid, AccountPlanBelow, GroupPlan, AccountLoadable, LeafLoadable, JoinFieldsValid;
      hide ValidDatabase, Within, Distinct, BareJoinNodes, RowsOfJoinQuery;
      ghost var p := Denote();
      ghost var rows := RowsOfJoinQuery(db, ctx.Value(), predicates, order, withAccount != null, withGroup != null);
      ghost var N, S1;
      TypesOfPlan();
      nodes, N, S := Nodes(db);
      if |nodes| == 0 {
        NoJoinsShown(db, p, rows, nodes, N, LoadedTypes(), S);
        JoinRerunsSelf(db, p, rows);
        return None, nodes, S;
      }
      err, S1 := FillNodes(db, rows, nodes, N);
      S := S + S1;
    }

    method All(db: Database) returns (err: Option<QueryError>, nodes: seq<AccountGroupNode>, ghost S: set<object>)
      requires Valid() && ValidDatabase(db) && JoinEdgesLoadable(Denote())
      modifies Repr()
      decreases Repr(), 5
      ensures Valid() && Repr() == old(Repr())
      ensures inters == old(inters) && order == old(order) && ctx == old(ctx) && ctx.Value() == old(ctx.Value())
      ensures fresh(S)
      ensures JoinPlanFieldsValid(old(Denote())) ==> err.None?
      ensures err.None? ==> ShowsJoinBatch(db, old(Denote()), AccountGroupRows(db, old(Denote())), nodes, S)
      ensures err.Some? || JoinReruns(db, old(Denote()), Denote(), AccountGroupRows(db, old(Denote())))
      ensures err.None? ==> JoinGraphMeans(db, old(Denote()), old(predicates + inters), nodes, S)
    {
      hide RightJoinTables, JoinGraphMeans;
      RightPlan();
      ghost var p, before := Denote(), predicates;
      err := PrepareQuery();
      ghost var q := Denote();
      SelectedTraversed(db.accountGroups, before, inters, order);
      nodes, S := [], {};
      if err.None? {
        err, nodes, S := SqlAll(db);
      }
      if err.None? {
        SameJoinTrees(db, p, q, AccountGroupRows(db, p), nodes, S);
        JoinRerunsFrom(db, p, q, Denote(), AccountGroupRows(db, p));
        JoinBatchMeans(db, p, before + inters, nodes, S);
      }
    }
  }
}
