/**
 What the scatter loops leave behind is what one look-up per object returns.  The loaders' batches
 are described by predicates over the neighbour list; one lemma per kind of edge turns a batch into
 the tree of `JoinAccount`.
 */
module Batches {
  import opened Wrappers
  import opened Rows
  import opened AccountCodec
  import opened QueryPlans
  import opened Entities
  import opened Scattering

  /** The column list of a leaf table starts with the id, and a usage log has its foreign key. */
  ghost predicate WellFormed(table: LeafTable, columns: seq<string>) {
    |columns| > 0 && columns[0] == "id" && (table == UsageLogs ==> "account_id" in columns)
  }

  // ---------------------------------------------------- edges show the join

  /** The neighbours show the trees of the rows of the batch. */
  ghost predicate ShowsBatch(db: Database, q: AccountPlan, rows: seq<Account>, neighbors: seq<AccountNode>, S: set<object>)
    reads S
  {
    && |neighbors| == |rows|
    && forall j | 0 <= j < |rows| :: Shows(neighbors[j], JoinAccount(db, q, q.ctx.fields, rows[j]), S)
  }

  /** The neighbours carry the ids of their rows, and the parent keys if those are selected. */
  lemma BatchKeys(db: Database, q: AccountPlan, rows: seq<Account>, neighbors: seq<AccountNode>, S: set<object>)
    requires ShowsBatch(db, q, rows, neighbors, S)
    ensures forall j | 0 <= j < |rows| :: neighbors[j] in S && neighbors[j].fields.id == rows[j].id
    ensures |q.ctx.fields| == 0 || ParentAccountID in q.ctx.fields ==>
              forall j | 0 <= j < |rows| :: neighbors[j].fields.numbers.parentAccountID == rows[j].numbers.parentAccountID
  {
    var columns := AccountColumns(q.ctx.fields, q.proxy.Some?, q.parent.Some?);
    ForcedColumns(q.ctx.fields, q.proxy.Some?, q.parent.Some?, ParentAccountID);
    assert ALL_COLUMNS[30] == ParentAccountID;
    forall j | 0 <= j < |rows|
      ensures neighbors[j] in S && neighbors[j].fields.id == rows[j].id
      ensures ParentAccountID in columns ==> neighbors[j].fields.numbers.parentAccountID == rows[j].numbers.parentAccountID
    {
      ProjectionKeys(neighbors[j].fields, rows[j], columns);
    }
  }

  /** A many-to-one edge filled from the batch shows what a look-up by its key returns. */
  lemma AccountByKeyShown(db: Database, p: AccountPlan, q: AccountPlan, ids: seq<int>, fk: Option<int>,
                          rows: seq<Account>, neighbors: seq<AccountNode>, S: set<object>)
    requires ValidDatabase(db) && q == p.(filters := q.filters)
    requires fk.Some? ==> fk.value in ids
    requires rows == Selected(db.accounts, p.filters + [IdIn(ids)], p.order)
    requires ShowsBatch(db, q, rows, neighbors, S) && IdKeys(neighbors) == Keys(rows, AccountKey)
    ensures var t := LastWith(IdKeys(neighbors), fk, |neighbors|);
            ShowsOption(if t.Some? then neighbors[t.value] else null, JoinByKey(db, p, fk), S)
  {
    JoinByKeyFromBatch(db, p, q, ids, fk);
  }

  /** A one-to-many edge gathered from the batch shows the children that a query per node returns. */
  lemma ChildrenShown(db: Database, p: AccountPlan, q: AccountPlan, ids: seq<int>, id: int,
                      rows: seq<Account>, neighbors: seq<AccountNode>, S: set<object>)
    requires id in ids
    requires q == p.(ctx := q.ctx, filters := q.filters)
    requires q.ctx.fields == WithForeignKey(p.ctx.fields, ParentAccountID)
    requires rows == Selected(db.accounts, p.filters + [ParentIn(ids)], p.order)
    requires ShowsBatch(db, q, rows, neighbors, S) && ParentKeys(neighbors) == Keys(rows, ParentKey)
    ensures ShowsAll(Some(Gathered(neighbors, ParentKeys(neighbors), id, |neighbors|)), JoinChildren(db, p, id), S)
  {
    ChildrenFromBatch(db, p, q, ids, id);
    GatheredAll(neighbors, ParentKeys(neighbors), id);
  }

  lemma LeafByKeyShown(db: Database, p: LeafPlan, ids: seq<int>, fk: Option<int>, neighbors: seq<LeafNode>, S: set<object>)
    requires ValidDatabase(db) && WellFormed(p.table, p.columns)
    requires fk.Some? ==> fk.value in ids
    requires ShowsLeaves(Some(neighbors),
               DecodeLeaves(Selected(LeafRows(db, p.table), p.filters + [LeafIdIn(ids)], p.order), LeafColumns(p.columns, p.ctx.fields)), S)
    ensures var t := LastWith(LeafIdKeys(neighbors), fk, |neighbors|);
            ShowsLeaf(if t.Some? then neighbors[t.value] else null, JoinLeaf(db, p, fk), S)
  {
    var rows := Selected(LeafRows(db, p.table), p.filters + [LeafIdIn(ids)], p.order);
    var columns := LeafColumns(p.columns, p.ctx.fields);
    assert columns[0] == "id";
    assert LeafIdKeys(neighbors) == Keys(rows, LeafKey);
    if fk.Some? {
      LookupInBatch(LeafRows(db, p.table), p.filters, p.order, LeafId, LeafKey, ids, LeafIdIn(ids), fk.value, LeafIdIs(fk.value));
    }
  }

  lemma LogsShown(db: Database, p: LeafPlan, ids: seq<int>, id: int, rows: seq<LeafRow>, neighbors: seq<LeafNode>, S: set<object>)
    requires id in ids && p.table == UsageLogs && WellFormed(p.table, p.columns)
    requires rows == Selected(LeafRows(db, p.table), p.filters + [OwnerIn(ids)], p.order)
    requires ShowsLeaves(Some(neighbors),
               DecodeLeaves(rows, LeafColumns(p.columns, WithForeignKey(p.ctx.fields, "account_id"))), S)
    requires OwnerKeys(neighbors) == Keys(rows, OwnerKey)
    ensures ShowsLeaves(Some(Gathered(neighbors, OwnerKeys(neighbors), id, |neighbors|)), JoinLogs(db, p, id), S)
  {
    BatchThenPick(LeafRows(db, p.table), p.filters, p.order, OwnerKey, ids, OwnerIn(ids), id, OwnerIs(id));
    GatheredAll(neighbors, OwnerKeys(neighbors), id);
  }

  lemma PickedIndex<X>(nodes: seq<X>, fks: seq<Option<int>>, nodeids: map<int, seq<X>>, N: set<X>)
    requires |nodes| == |fks| && Distinct(nodes) && Within(nodes, N)
    requires forall k | k in nodeids :: nodeids[k] == Pick(nodes, Positions(fks, k))
    ensures IndexOf(nodes, fks, nodeids, N)
  {
    forall k | k in nodeids ensures CarriersOf(nodes, fks, k, nodeids[k], N) {
      PickedEntry(nodes, fks, k, N);
    }
  }

  /** An object with the selected fields of its row and no edges yet. */
  ghost predicate BareNode(n: AccountNode, row: Account, columns: seq<Column>, loadedTypes: seq<bool>)
    reads n
  {
    && IsProjection(n.fields, row, columns) && n.loadedTypes == loadedTypes
    && n.groups == None && n.proxy == null && n.parent == null && n.children == None
    && n.usageLogs == None && n.accountGroups == None
  }

  ghost predicate BareNodes(nodes: seq<AccountNode>, rows: seq<Account>, columns: seq<Column>, loadedTypes: seq<bool>)
    reads nodes
  {
    |nodes| == |rows| && forall i | 0 <= i < |rows| :: BareNode(nodes[i], rows[i], columns, loadedTypes)
  }

  /** The same graph answers two plans that differ in their filters. */
  lemma SameTrees(db: Database, p: AccountPlan, q: AccountPlan, rows: seq<Account>, nodes: seq<AccountNode>, S: set<object>)
    requires q == p.(filters := q.filters) && ShowsBatch(db, q, rows, nodes, S)
    ensures ShowsBatch(db, p, rows, nodes, S)
  {
    forall i | 0 <= i < |rows| ensures Shows(nodes[i], JoinAccount(db, p, p.ctx.fields, rows[i]), S) {
      JoinIgnoresFilters(db, p, q, p.ctx.fields, rows[i]);
    }
  }

  /** The neighbours of a many-to-one load: plan `p` restricted to the ids, one neighbour per row. */
  ghost predicate IdBatch(db: Database, p: AccountPlan, q: AccountPlan, ids: seq<int>, neighbors: seq<AccountNode>, S: set<object>)
    reads S, neighbors
  {
    && q == p.(filters := q.filters)
    && ShowsBatch(db, q, IdBatchRows(db, p, ids), neighbors, S)
    && IdKeys(neighbors) == Keys(IdBatchRows(db, p, ids), AccountKey)
    && forall j | 0 <= j < |neighbors| :: neighbors[j] in S && neighbors[j].fields.id in ids
  }

  function IdBatchRows(db: Database, p: AccountPlan, ids: seq<int>): seq<Account> {
    Selected(db.accounts, p.filters + [IdIn(ids)], p.order)
  }

  lemma IdBatchKeys(db: Database, p: AccountPlan, q: AccountPlan, ids: seq<int>, neighbors: seq<AccountNode>, S: set<object>)
    requires q == p.(filters := q.filters) && ShowsBatch(db, q, IdBatchRows(db, p, ids), neighbors, S)
    ensures IdBatch(db, p, q, ids, neighbors, S)
  {
    var rows := IdBatchRows(db, p, ids);
    BatchMember(db.accounts, p.filters, p.order, IdIn(ids));
    BatchKeys(db, q, rows, neighbors, S);
    assert IdKeys(neighbors) == Keys(rows, AccountKey);
  }

  /** The nodes carry the keys of their rows that the loaders read. */
  ghost predicate Keyed(nodes: seq<AccountNode>, rows: seq<Account>, proxy: bool, parent: bool, N: set<AccountNode>)
    requires Within(nodes, N)
    reads N`fields
  {
    && |nodes| == |rows|
    && forall i | 0 <= i < |nodes| ::
         && nodes[i].fields.id == rows[i].id
         && (proxy ==> nodes[i].fields.numbers.proxyID == rows[i].numbers.proxyID)
         && (parent ==> nodes[i].fields.numbers.parentAccountID == rows[i].numbers.parentAccountID)
  }

  // Each edge of the nodes `nodes` shows what one look-up per node returns.  `N` is the set of the
  // nodes and `S` the set of objects below the edge.

  ghost predicate ParentsShown(db: Database, p: Option<AccountPlan>, nodes: seq<AccountNode>, fks: seq<Option<int>>,
                               N: set<AccountNode>, S: set<object>)
    requires |nodes| == |fks| && Within(nodes, N)
    reads N`parent, S
  {
    forall i | 0 <= i < |nodes| ::
      if p.None? then nodes[i].parent == null else ShowsOption(nodes[i].parent, JoinByKey(db, p.value, fks[i]), S)
  }

  ghost predicate ProxiesShown(db: Database, p: Option<LeafPlan>, nodes: seq<AccountNode>, fks: seq<Option<int>>,
                               N: set<AccountNode>, S: set<object>)
    requires |nodes| == |fks| && Within(nodes, N)
    reads N`proxy, S
  {
    forall i | 0 <= i < |nodes| ::
      if p.None? then nodes[i].proxy == null else ShowsLeaf(nodes[i].proxy, JoinLeaf(db, p.value, fks[i]), S)
  }

  ghost predicate GroupsShown(db: Database, p: Option<LeafPlan>, nodes: seq<AccountNode>, ids: seq<int>,
                              N: set<AccountNode>, S: set<object>)
    requires |nodes| == |ids| && Within(nodes, N)
    reads N`groups, S
  {
    forall i | 0 <= i < |nodes| ::
      if p.None? then nodes[i].groups == None else ShowsLeaves(nodes[i].groups, JoinGroups(db, p.value, ids[i]), S)
  }

  ghost predicate ChildrenAreShown(db: Database, p: Option<AccountPlan>, nodes: seq<AccountNode>, ids: seq<int>,
                                   N: set<AccountNode>, S: set<object>)
    requires |nodes| == |ids| && Within(nodes, N)
    reads N`children, S
  {
    forall i | 0 <= i < |nodes| ::
      if p.None? then nodes[i].children == None else ShowsAll(nodes[i].children, JoinChildren(db, p.value, ids[i]), S)
  }

  ghost predicate LogsAreShown(db: Database, p: Option<LeafPlan>, nodes: seq<AccountNode>, ids: seq<int>,
                               N: set<AccountNode>, S: set<object>)
    requires |nodes| == |ids| && Within(nodes, N)
    reads N`usageLogs, S
  {
    forall i | 0 <= i < |nodes| ::
      if p.None? then nodes[i].usageLogs == None else ShowsLeaves(nodes[i].usageLogs, JoinLogs(db, p.value, ids[i]), S)
  }

  ghost predicate JoinsAreShown(db: Database, p: Option<AccountGroupPlan>, nodes: seq<AccountNode>, ids: seq<int>,
                                N: set<AccountNode>, S: set<object>)
    requires |nodes| == |ids| && Within(nodes, N)
    reads N`accountGroups, S
  {
    forall i | 0 <= i < |nodes| ::
      if p.None? then nodes[i].accountGroups == None
      else ShowsJoins(nodes[i].accountGroups, JoinJoins(db, p.value, ids[i]), S)
  }

  ghost predicate AccountsShown(db: Database, p: Option<AccountPlan>, nodes: seq<AccountGroupNode>, fks: seq<Option<int>>,
                                N: set<AccountGroupNode>, S: set<object>)
    requires |nodes| == |fks| && Within(nodes, N)
    reads N`account, S
  {
    forall i | 0 <= i < |nodes| ::
      if p.None? then nodes[i].account == null else ShowsOption(nodes[i].account, JoinByKey(db, p.value, fks[i]), S)
  }

  ghost predicate GroupEdgesShown(db: Database, p: Option<LeafPlan>, nodes: seq<AccountGroupNode>, fks: seq<Option<int>>,
                                  N: set<AccountGroupNode>, S: set<object>)
    requires |nodes| == |fks| && Within(nodes, N)
    reads N`group, S
  {
    forall i | 0 <= i < |nodes| ::
      if p.None? then nodes[i].group == null else ShowsLeaf(nodes[i].group, JoinLeaf(db, p.value, fks[i]), S)
  }

  lemma RowsUnique(db: Database, c: Context<Column>, filters: seq<Account -> bool>, order: seq<Account -> int>)
    requires ValidDatabase(db)
    ensures UniqueBy(Window(Selected(db.accounts, filters, order), c.offset, c.limit), AccountId)
  {
    SelectedUnique(db.accounts, filters, order, AccountId);
    WindowUnique(Selected(db.accounts, filters, order), c.offset, c.limit, AccountId);
  }

  /** The fields of the objects, which no loader changes. */
  ghost predicate Fielded(nodes: seq<AccountNode>, rows: seq<Account>, columns: seq<Column>, types: seq<bool>, N: set<AccountNode>)
    requires Within(nodes, N)
    reads N`fields, N`loadedTypes
  {
    && |nodes| == |rows|
    && forall i | 0 <= i < |nodes| :: IsProjection(nodes[i].fields, rows[i], columns) && nodes[i].loadedTypes == types
  }

  /** New objects carry the keys of their rows, whatever fields are selected, and show no edge. */
  lemma BareIsKeyed(nodes: seq<AccountNode>, rows: seq<Account>, fields: seq<Column>, proxy: bool, parent: bool,
                    types: seq<bool>, N: set<AccountNode>, db: Database)
    requires Within(nodes, N) && BareNodes(nodes, rows, AccountColumns(fields, proxy, parent), types)
    ensures Fielded(nodes, rows, AccountColumns(fields, proxy, parent), types, N)
    ensures Keyed(nodes, rows, proxy, parent, N)
    ensures GroupsShown(db, None, nodes, RowIds(rows), N, {}) && ProxiesShown(db, None, nodes, Keys(rows, ProxyKey), N, {})
    ensures ParentsShown(db, None, nodes, Keys(rows, ParentKey), N, {}) && ChildrenAreShown(db, None, nodes, RowIds(rows), N, {})
    ensures LogsAreShown(db, None, nodes, RowIds(rows), N, {}) && JoinsAreShown(db, None, nodes, RowIds(rows), N, {})
  {
    ForcedColumns(fields, proxy, parent, ID);
    forall i | 0 <= i < |nodes|
      ensures nodes[i].fields.id == rows[i].id
      ensures proxy ==> nodes[i].fields.numbers.proxyID == rows[i].numbers.proxyID
      ensures parent ==> nodes[i].fields.numbers.parentAccountID == rows[i].numbers.parentAccountID
    {
      ProjectionKeys(nodes[i].fields, rows[i], AccountColumns(fields, proxy, parent));
    }
  }

  lemma NothingShown(db: Database, p: AccountPlan, rows: seq<Account>, nodes: seq<AccountNode>,
                     N: set<AccountNode>, types: seq<bool>, S: set<object>)
    requires nodes == [] && BareNodes(nodes, rows, AccountColumns(p.ctx.fields, p.proxy.Some?, p.parent.Some?), types)
    ensures ShowsBatch(db, p, rows, nodes, S)
  {
  }

  /** The fields and six edges of a node are its tree. */
  lemma NodeShown(n: AccountNode, t: AccountTree, S: set<object>)
    requires n in S && IsProjection(n.fields, t.row, t.columns)
    requires n.loadedTypes == [t.groups.Some?, t.proxy.Some?, t.parent.Some?, t.children.Children?, t.usageLogs.Some?, t.accountGroups.Joins?]
    requires if t.groups.None? then n.groups == None else ShowsLeaves(n.groups, t.groups.value, S)
    requires if t.proxy.None? then n.proxy == null else ShowsLeaf(n.proxy, t.proxy.value, S)
    requires if t.parent.None? then n.parent == null else ShowsOption(n.parent, t.parent.value, S)
    requires if t.children.NoChildren? then n.children == None else ShowsAll(n.children, t.children.list, S)
    requires if t.usageLogs.None? then n.usageLogs == None else ShowsLeaves(n.usageLogs, t.usageLogs.value, S)
    requires if t.accountGroups.NoJoins? then n.accountGroups == None else ShowsJoins(n.accountGroups, t.accountGroups.list, S)
    ensures Shows(n, t, S)
  {
  }

  /** Six filled edges and the fields make up the tree of every row. */
  lemma GraphShown(db: Database, p: AccountPlan, rows: seq<Account>, nodes: seq<AccountNode>,
                   N: set<AccountNode>, S1: set<object>, S2: set<object>, S3: set<object>, S4: set<object>,
                   S5: set<object>, S6: set<object>, S: set<object>)
    requires Within(nodes, N) && |nodes| == |rows|
    requires Fielded(nodes, rows, AccountColumns(p.ctx.fields, p.proxy.Some?, p.parent.Some?),
               [p.groups.Some?, p.proxy.Some?, p.parent.Some?, p.children.Some?, p.usageLogs.Some?, p.accountGroups.Some?], N)
    requires GroupsShown(db, p.groups, nodes, RowIds(rows), N, S1)
    requires ProxiesShown(db, p.proxy, nodes, Keys(rows, ProxyKey), N, S2)
    requires ParentsShown(db, p.parent, nodes, Keys(rows, ParentKey), N, S3)
    requires ChildrenAreShown(db, p.children, nodes, RowIds(rows), N, S4)
    requires LogsAreShown(db, p.usageLogs, nodes, RowIds(rows), N, S5)
    requires JoinsAreShown(db, p.accountGroups, nodes, RowIds(rows), N, S6)
    requires (forall x | x in N :: x in S) && S1 + S2 + S3 + S4 + S5 + S6 <= S
    ensures ShowsBatch(db, p, rows, nodes, S)
  {
    hide JoinByKey, JoinChildren, JoinJoins, JoinGroups, JoinLeaf, JoinLogs, AccountColumns, IsProjection;
    hide Shows, ShowsOption, ShowsAll, ShowsJoins;
    forall i | 0 <= i < |rows|
      ensures Shows(nodes[i], JoinAccount(db, p, p.ctx.fields, rows[i]), S)
    {
      var n, r := nodes[i], rows[i];
      if p.parent.Some? {
        ParentInLarger(n, JoinByKey(db, p.parent.value, r.numbers.parentAccountID), S3, S);
      }
      if p.children.Some? {
        ChildrenInLarger(n, JoinChildren(db, p.children.value, r.id), S4, S);
      }
      if p.accountGroups.Some? {
        JoinsInLarger(n, JoinJoins(db, p.accountGroups.value, r.id), S6, S);
      }
      NodeShown(n, JoinAccount(db, p, p.ctx.fields, r), S);
    }
  }

  lemma ParentInLarger(n: AccountNode, t: Option<AccountTree>, S: set<object>, L: set<object>)
    requires ShowsOption(n.parent, t, S) && S <= L
    ensures ShowsOption(n.parent, t, L)
  {
    if t.Some? {
      ShowsInLarger(n.parent, t.value, S, L);
    }
  }

  lemma ChildrenInLarger(n: AccountNode, ts: seq<AccountTree>, S: set<object>, L: set<object>)
    requires ShowsAll(n.children, ts, S) && S <= L
    ensures ShowsAll(n.children, ts, L)
  {
    forall i | 0 <= i < |ts| ensures Shows(n.children.value[i], ts[i], L) {
      ShowsInLarger(n.children.value[i], ts[i], S, L);
    }
  }

  lemma JoinsInLarger(n: AccountNode, ts: seq<AccountGroupTree>, S: set<object>, L: set<object>)
    requires ShowsJoins(n.accountGroups, ts, S) && S <= L
    ensures ShowsJoins(n.accountGroups, ts, L)
  {
    forall i | 0 <= i < |ts| ensures ShowsJoin(n.accountGroups.value[i], ts[i], L) {
      ShowsJoinInLarger(n.accountGroups.value[i], ts[i], S, L);
    }
  }

  // Without any foreign key there is nothing to load.

  lemma NoParents(db: Database, p: AccountPlan, nodes: seq<AccountNode>, fks: seq<Option<int>>, N: set<AccountNode>)
    requires |nodes| == |fks| && Within(nodes, N) && KeysIn(fks, [])
    requires forall i | 0 <= i < |nodes| :: nodes[i].parent == null
    ensures ParentsShown(db, Some(p), nodes, fks, N, {})
  {
    forall i | 0 <= i < |nodes| ensures fks[i].None? { }
  }

  lemma NoProxies(db: Database, p: LeafPlan, nodes: seq<AccountNode>, fks: seq<Option<int>>, N: set<AccountNode>)
    requires |nodes| == |fks| && Within(nodes, N) && KeysIn(fks, [])
    requires forall i | 0 <= i < |nodes| :: nodes[i].proxy == null
    ensures ProxiesShown(db, Some(p), nodes, fks, N, {})
  {
    forall i | 0 <= i < |nodes| ensures fks[i].None? { }
  }

  lemma NoAccounts(db: Database, p: AccountPlan, nodes: seq<AccountGroupNode>, fks: seq<Option<int>>, N: set<AccountGroupNode>)
    requires |nodes| == |fks| && Within(nodes, N) && KeysIn(fks, [])
    requires forall i | 0 <= i < |nodes| :: nodes[i].account == null
    ensures AccountsShown(db, Some(p), nodes, fks, N, {})
  {
    forall i | 0 <= i < |nodes| ensures fks[i].None? { }
  }

  lemma NoGroupEdges(db: Database, p: LeafPlan, nodes: seq<AccountGroupNode>, fks: seq<Option<int>>, N: set<AccountGroupNode>)
    requires |nodes| == |fks| && Within(nodes, N) && KeysIn(fks, [])
    requires forall i | 0 <= i < |nodes| :: nodes[i].group == null
    ensures GroupEdgesShown(db, Some(p), nodes, fks, N, {})
  {
    forall i | 0 <= i < |nodes| ensures fks[i].None? { }
  }

  // -------------------------------------------------------- batches per edge

  /** Every many-to-one edge filled from the batch shows what a look-up for its node returns. */
  lemma AccountsByKeyShown(db: Database, p: AccountPlan, q: AccountPlan, ids: seq<int>, fks: seq<Option<int>>,
                           neighbors: seq<AccountNode>, S: set<object>)
    requires ValidDatabase(db) && IdBatch(db, p, q, ids, neighbors, S) && KeysIn(fks, ids)
    ensures forall i | 0 <= i < |fks| ::
              var t := LastWith(IdKeys(neighbors), fks[i], |neighbors|);
              ShowsOption(if t.Some? then neighbors[t.value] else null, JoinByKey(db, p, fks[i]), S)
  {
    forall i | 0 <= i < |fks|
      ensures var t := LastWith(IdKeys(neighbors), fks[i], |neighbors|);
              ShowsOption(if t.Some? then neighbors[t.value] else null, JoinByKey(db, p, fks[i]), S)
    {
      AccountByKeyShown(db, p, q, ids, fks[i], IdBatchRows(db, p, ids), neighbors, S);
    }
  }

  /** The neighbours of a many-to-one load of leaves. */
  ghost predicate LeafIdBatch(db: Database, p: LeafPlan, ids: seq<int>, neighbors: seq<LeafNode>, S: set<object>)
    reads S, neighbors
  {
    && ShowsLeaves(Some(neighbors),
         DecodeLeaves(Selected(LeafRows(db, p.table), p.filters + [LeafIdIn(ids)], p.order), LeafColumns(p.columns, p.ctx.fields)), S)
    && forall j | 0 <= j < |neighbors| :: neighbors[j].fields.id in ids
  }

  lemma LeavesByKeyShown(db: Database, p: LeafPlan, ids: seq<int>, fks: seq<Option<int>>, neighbors: seq<LeafNode>, S: set<object>)
    requires ValidDatabase(db) && WellFormed(p.table, p.columns)
    requires LeafIdBatch(db, p, ids, neighbors, S) && KeysIn(fks, ids)
    ensures forall i | 0 <= i < |fks| ::
              var t := LastWith(LeafIdKeys(neighbors), fks[i], |neighbors|);
              ShowsLeaf(if t.Some? then neighbors[t.value] else null, JoinLeaf(db, p, fks[i]), S)
  {
    forall i | 0 <= i < |fks|
      ensures var t := LastWith(LeafIdKeys(neighbors), fks[i], |neighbors|);
              ShowsLeaf(if t.Some? then neighbors[t.value] else null, JoinLeaf(db, p, fks[i]), S)
    {
      LeafByKeyShown(db, p, ids, fks[i], neighbors, S);
    }
  }

  /** The neighbours of `loadUsageLogs`. */
  ghost predicate LogBatch(db: Database, p: LeafPlan, ids: seq<int>, neighbors: seq<LeafNode>, S: set<object>)
    reads S, neighbors
  {
    var rows := Selected(LeafRows(db, p.table), p.filters + [OwnerIn(ids)], p.order);
    && ShowsLeaves(Some(neighbors), DecodeLeaves(rows, LeafColumns(p.columns, WithForeignKey(p.ctx.fields, "account_id"))), S)
    && OwnerKeys(neighbors) == Keys(rows, OwnerKey)
    && forall j | 0 <= j < |neighbors| :: neighbors[j].fields.accountID in ids
  }

  lemma AllLogsShown(db: Database, p: LeafPlan, ids: seq<int>, neighbors: seq<LeafNode>, S: set<object>)
    requires p.table == UsageLogs && WellFormed(p.table, p.columns) && LogBatch(db, p, ids, neighbors, S)
    ensures forall i | 0 <= i < |ids| ::
              ShowsLeaves(Some(Gathered(neighbors, OwnerKeys(neighbors), ids[i], |neighbors|)), JoinLogs(db, p, ids[i]), S)
  {
    forall i | 0 <= i < |ids|
      ensures ShowsLeaves(Some(Gathered(neighbors, OwnerKeys(neighbors), ids[i], |neighbors|)), JoinLogs(db, p, ids[i]), S)
    {
      LogsShown(db, p, ids, ids[i], Selected(LeafRows(db, p.table), p.filters + [OwnerIn(ids)], p.order), neighbors, S);
    }
  }

  function ChildBatchRows(db: Database, p: AccountPlan, ids: seq<int>): seq<Account> {
    Selected(db.accounts, p.filters + [ParentIn(ids)], p.order)
  }

  /** The neighbours of `loadChildren`. */
  ghost predicate ChildBatch(db: Database, p: AccountPlan, q: AccountPlan, ids: seq<int>, neighbors: seq<AccountNode>, S: set<object>)
    reads S, neighbors
  {
    && q == p.(ctx := q.ctx, filters := q.filters)
    && q.ctx.fields == WithForeignKey(p.ctx.fields, ParentAccountID)
    && ShowsBatch(db, q, ChildBatchRows(db, p, ids), neighbors, S)
    && ParentKeys(neighbors) == Keys(ChildBatchRows(db, p, ids), ParentKey)
    && forall j | 0 <= j < |neighbors| ::
         neighbors[j] in S && neighbors[j].fields.numbers.parentAccountID.Some? && neighbors[j].fields.numbers.parentAccountID.value in ids
  }

  /** Plan `q` is plan `p` restricted to the children of the ids, with the foreign key selected. */
  ghost predicate ChildPlan(db: Database, p: AccountPlan, q: AccountPlan, ids: seq<int>) {
    && q == p.(ctx := q.ctx, filters := q.filters)
    && q.ctx == p.ctx.(fields := WithForeignKey(p.ctx.fields, ParentAccountID))
    && AccountRows(db, q) == ChildBatchRows(db, p, ids)
    && SelectedAccounts(db, q) == ChildBatchRows(db, p, ids)
    && (PlanFieldsValid(p) ==> PlanFieldsValid(q))
  }

  lemma ChildBatchKeys(db: Database, p: AccountPlan, q: AccountPlan, ids: seq<int>, neighbors: seq<AccountNode>, S: set<object>)
    requires q == p.(ctx := q.ctx, filters := q.filters)
    requires q.ctx.fields == WithForeignKey(p.ctx.fields, ParentAccountID)
    requires ShowsBatch(db, q, ChildBatchRows(db, p, ids), neighbors, S)
    ensures ChildBatch(db, p, q, ids, neighbors, S)
  {
    var rows := ChildBatchRows(db, p, ids);
    BatchMember(db.accounts, p.filters, p.order, ParentIn(ids));
    BatchKeys(db, q, rows, neighbors, S);
    assert ParentKeys(neighbors) == Keys(rows, ParentKey);
  }

  lemma AllChildrenShown(db: Database, p: AccountPlan, q: AccountPlan, ids: seq<int>, neighbors: seq<AccountNode>, S: set<object>)
    requires ChildBatch(db, p, q, ids, neighbors, S)
    ensures forall i | 0 <= i < |ids| ::
              ShowsAll(Some(Gathered(neighbors, ParentKeys(neighbors), ids[i], |neighbors|)), JoinChildren(db, p, ids[i]), S)
  {
    forall i | 0 <= i < |ids|
      ensures ShowsAll(Some(Gathered(neighbors, ParentKeys(neighbors), ids[i], |neighbors|)), JoinChildren(db, p, ids[i]), S)
    {
      ChildrenShown(db, p, q, ids, ids[i], ChildBatchRows(db, p, ids), neighbors, S);
    }
  }

  /** The neighbours show the trees of the rows of a batch of `account_groups`. */
  ghost predicate ShowsJoinBatch(db: Database, q: AccountGroupPlan, rows: seq<AccountGroup>, neighbors: seq<AccountGroupNode>, S: set<object>)
    reads S
  {
    && |neighbors| == |rows|
    && forall j | 0 <= j < |rows| :: ShowsJoin(neighbors[j], JoinAccountGroup(db, q, q.ctx.fields, rows[j]), S)
  }

  function JoinBatchRows(db: Database, p: AccountGroupPlan, ids: seq<int>): seq<AccountGroup> {
    Selected(db.accountGroups, p.filters + [JoinAccountIn(ids)], p.order)
  }

  /** The neighbours of `loadAccountGroups`. */
  ghost predicate JoinBatch(db: Database, p: AccountGroupPlan, q: AccountGroupPlan, ids: seq<int>,
                            neighbors: seq<AccountGroupNode>, S: set<object>)
    reads S, neighbors
  {
    && q == p.(ctx := q.ctx, filters := q.filters)
    && q.ctx.fields == WithForeignKey(p.ctx.fields, AccountID)
    && ShowsJoinBatch(db, q, JoinBatchRows(db, p, ids), neighbors, S)
    && JoinKeys(neighbors) == Keys(JoinBatchRows(db, p, ids), JoinKey)
    && forall j | 0 <= j < |neighbors| :: neighbors[j] in S && neighbors[j].fields.accountID in ids
  }

  lemma JoinBatchKeys(db: Database, p: AccountGroupPlan, q: AccountGroupPlan, ids: seq<int>,
                      neighbors: seq<AccountGroupNode>, S: set<object>)
    requires q == p.(ctx := q.ctx, filters := q.filters)
    requires q.ctx.fields == WithForeignKey(p.ctx.fields, AccountID)
    requires ShowsJoinBatch(db, q, JoinBatchRows(db, p, ids), neighbors, S)
    ensures JoinBatch(db, p, q, ids, neighbors, S)
  {
    var rows := JoinBatchRows(db, p, ids);
    BatchMember(db.accountGroups, p.filters, p.order, JoinAccountIn(ids));
    assert AccountID in JoinColumns(q.ctx.fields, q.account.Some?, q.group.Some?);
    forall j | 0 <= j < |rows|
      ensures neighbors[j] in S && neighbors[j].fields.accountID == rows[j].accountID
    {
      assert ShowsJoin(neighbors[j], JoinAccountGroup(db, q, q.ctx.fields, rows[j]), S);
    }
    assert JoinKeys(neighbors) == Keys(rows, JoinKey);
  }

  lemma AllJoinsShown(db: Database, p: AccountGroupPlan, q: AccountGroupPlan, ids: seq<int>,
                      neighbors: seq<AccountGroupNode>, S: set<object>)
    requires JoinBatch(db, p, q, ids, neighbors, S)
    ensures forall i | 0 <= i < |ids| ::
              ShowsJoins(Some(Gathered(neighbors, JoinKeys(neighbors), ids[i], |neighbors|)), JoinJoins(db, p, ids[i]), S)
  {
    forall i | 0 <= i < |ids|
      ensures ShowsJoins(Some(Gathered(neighbors, JoinKeys(neighbors), ids[i], |neighbors|)), JoinJoins(db, p, ids[i]), S)
    {
      JoinsFromBatch(db, p, q, ids, ids[i]);
      GatheredAll(neighbors, JoinKeys(neighbors), ids[i]);
    }
  }

  function GroupJoinRows(db: Database, p: LeafPlan, ids: seq<int>): seq<JoinedRow> {
    JoinRows(SelectedLeaves(db, p), db.accountGroups, ids)
  }

  /** The neighbours of `loadGroups` and the accounts each of them is for. */
  ghost predicate GroupBatch(db: Database, p: LeafPlan, ids: seq<int>, byID: map<int, AccountNode>,
                             neighbors: seq<LeafNode>, nids: map<int, set<AccountNode>>, S: set<object>)
    reads S
  {
    var rows := GroupJoinRows(db, p, ids);
    && (forall i | 0 <= i < |rows| :: rows[i].account in byID)
    && ShowsLeaves(Some(neighbors), DecodeLeaves(FirstRows(rows, |rows|), LeafColumns(p.columns, p.ctx.fields)), S)
    && (forall g :: g in nids <==> SeenGroup(rows, |rows|, g))
    && forall g | g in nids :: nids[g] == MembersOf(rows, byID, g, |rows|)
  }

  /** A node is recorded for a group exactly if its account is joined to the group. */
  lemma RecordedIfJoined(db: Database, p: LeafPlan, ids: seq<int>, byID: map<int, AccountNode>,
                         neighbors: seq<LeafNode>, nids: map<int, set<AccountNode>>, S: set<object>,
                         N: set<AccountNode>, a: int, g: LeafRow)
    requires GroupBatch(db, p, ids, byID, neighbors, nids, S) && IdIndex(byID, N)
    requires a in ids && a in byID && g in SelectedLeaves(db, p)
    ensures g.id in nids && byID[a] in nids[g.id] <==> JoinedTo(db.accountGroups, a, g.id)
  {
    var rows := GroupJoinRows(db, p, ids);
    MembersOfLinked(rows, byID, g.id, |rows|, byID[a]);
    if g.id in nids && byID[a] in nids[g.id] {
      var i :| 0 <= i < |rows| && rows[i].group.id == g.id && byID[rows[i].account] == byID[a];
      JoinRowsValid(SelectedLeaves(db, p), db.accountGroups, ids, i);
    }
    if JoinedTo(db.accountGroups, a, g.id) {
      JoinRowsComplete(SelectedLeaves(db, p), db.accountGroups, ids, g, a);
      var i :| 0 <= i < |rows| && rows[i].account == a && rows[i].group.id == g.id;
      assert SeenGroup(rows, |rows|, g.id);
    }
  }

  /** The list of one account shows exactly the groups joined to it, each once. */
  lemma GroupListShown(db: Database, p: LeafPlan, ids: seq<int>, byID: map<int, AccountNode>,
                       neighbors: seq<LeafNode>, nids: map<int, set<AccountNode>>, S: set<object>,
                       N: set<AccountNode>, a: int)
    requires ValidDatabase(db) && WellFormed(p.table, p.columns)
    requires GroupBatch(db, p, ids, byID, neighbors, nids, S) && IdIndex(byID, N) && a in ids && a in byID
    ensures ShowsLeaves(Some(LinkedTo(neighbors, LeafIds(neighbors), nids, byID[a], |neighbors|)), JoinGroups(db, p, a), S)
  {
    var rows := GroupJoinRows(db, p, ids);
    var sel := SelectedLeaves(db, p);
    var first := FirstRows(rows, |rows|);
    var columns := LeafColumns(p.columns, p.ctx.fields);
    SelectedUnique(LeafRows(db, p.table), p.filters, p.order, LeafId);
    FirstRowsOfJoin(sel, db.accountGroups, ids);
    GroupsOfOneAccount(sel, db.accountGroups, ids, a);
    assert columns[0] == "id";
    var keep := InGroupOf(db.accountGroups, a);
    forall i | 0 <= i < |first|
      ensures keep(first[i]) <==> LeafIds(neighbors)[i] in nids && byID[a] in nids[LeafIds(neighbors)[i]]
    {
      assert first[i] in first;
      FilterMember(sel, AnyJoined(db.accountGroups, ids), first[i]);
      RecordedIfJoined(db, p, ids, byID, neighbors, nids, S, N, a, first[i]);
    }
    LinkedShows(neighbors, LeafIds(neighbors), nids, byID[a], first, columns, keep, S, |neighbors|);
    assert first[..|first|] == first;
  }

  /** No neighbour of `loadGroups` is unexpected. */
  lemma GroupsExpected(db: Database, p: LeafPlan, ids: seq<int>, byID: map<int, AccountNode>,
                       neighbors: seq<LeafNode>, nids: map<int, set<AccountNode>>, S: set<object>)
    requires WellFormed(p.table, p.columns) && GroupBatch(db, p, ids, byID, neighbors, nids, S)
    ensures forall j | 0 <= j < |neighbors| :: neighbors[j] in S && neighbors[j].fields.id in nids
  {
    var rows := GroupJoinRows(db, p, ids);
    var first := FirstRows(rows, |rows|);
    assert LeafColumns(p.columns, p.ctx.fields)[0] == "id";
    forall j | 0 <= j < |neighbors| ensures neighbors[j] in S && neighbors[j].fields.id in nids {
      FirstRowsSeen(rows, |rows|, j);
      assert neighbors[j].fields.id == first[j].id;
    }
  }

  lemma {:induction false} FirstRowsSeen(rows: seq<JoinedRow>, j: nat, i: nat)
    requires j <= |rows| && i < |FirstRows(rows, j)|
    ensures SeenGroup(rows, j, FirstRows(rows, j)[i].id)
  {
    if i < |FirstRows(rows, j - 1)| {
      FirstRowsSeen(rows, j - 1, i);
    } else {
      assert rows[j - 1].group.id == FirstRows(rows, j)[i].id;
    }
  }

  lemma MembersInN(db: Database, p: LeafPlan, ids: seq<int>, byID: map<int, AccountNode>,
                   neighbors: seq<LeafNode>, nids: map<int, set<AccountNode>>, S: set<object>, N: set<AccountNode>)
    requires GroupBatch(db, p, ids, byID, neighbors, nids, S) && IdIndex(byID, N)
    ensures forall g | g in nids :: nids[g] <= N
  {
    var rows := GroupJoinRows(db, p, ids);
    forall g | g in nids ensures nids[g] <= N {
      forall x | x in nids[g] ensures x in N {
        MembersOfLinked(rows, byID, g, |rows|, x);
      }
    }
  }

  lemma GroupListsShown(db: Database, p: LeafPlan, ids: seq<int>, byID: map<int, AccountNode>,
                        neighbors: seq<LeafNode>, nids: map<int, set<AccountNode>>, S: set<object>,
                        N: set<AccountNode>, nodes: seq<AccountNode>)
    requires ValidDatabase(db) && WellFormed(p.table, p.columns)
    requires GroupBatch(db, p, ids, byID, neighbors, nids, S) && IdIndex(byID, N) && |ids| == |nodes|
    requires forall i | 0 <= i < |nodes| :: Indexed(byID, nodes[i], ids[i])
    ensures forall i | 0 <= i < |nodes| ::
              ShowsLeaves(Some(LinkedTo(neighbors, LeafIds(neighbors), nids, nodes[i], |neighbors|)), JoinGroups(db, p, ids[i]), S)
  {
    forall i | 0 <= i < |nodes|
      ensures ShowsLeaves(Some(LinkedTo(neighbors, LeafIds(neighbors), nids, nodes[i], |neighbors|)), JoinGroups(db, p, ids[i]), S)
    {
      GroupListShown(db, p, ids, byID, neighbors, nids, S, N, ids[i]);
    }
  }

  function OwnGroupKeys(nodes: seq<AccountGroupNode>): (r: seq<Option<int>>)
    reads nodes
    ensures |r| == |nodes| && forall i | 0 <= i < |nodes| :: r[i] == Some(nodes[i].fields.groupID)
  {
    seq(|nodes|, i requires 0 <= i < |nodes| reads nodes => Some(nodes[i].fields.groupID))
  }

  lemma SameJoinTrees(db: Database, p: AccountGroupPlan, q: AccountGroupPlan, rows: seq<AccountGroup>,
                      nodes: seq<AccountGroupNode>, S: set<object>)
    requires q == p.(filters := q.filters) && ShowsJoinBatch(db, q, rows, nodes, S)
    ensures ShowsJoinBatch(db, p, rows, nodes, S)
  {
    forall i | 0 <= i < |rows| ensures ShowsJoin(nodes[i], JoinAccountGroup(db, p, p.ctx.fields, rows[i]), S) {
      JoinGroupIgnoresFilters(db, p, q, p.ctx.fields, rows[i]);
    }
  }

  // ------------------------------------------------- objects of a join table

  ghost predicate BareJoinNode(n: AccountGroupNode, row: AccountGroup, columns: seq<JoinColumn>, types: seq<bool>)
    reads n
  {
    n.fields == DecodeJoin(row, columns) && n.loadedTypes == types && n.account == null && n.group == null
  }

  ghost predicate BareJoinNodes(nodes: seq<AccountGroupNode>, rows: seq<AccountGroup>, columns: seq<JoinColumn>, types: seq<bool>)
    reads nodes
  {
    |nodes| == |rows| && forall i | 0 <= i < |rows| :: BareJoinNode(nodes[i], rows[i], columns, types)
  }

  ghost predicate JoinKeyed(nodes: seq<AccountGroupNode>, rows: seq<AccountGroup>, account: bool, group: bool, N: set<AccountGroupNode>)
    requires Within(nodes, N)
    reads N`fields
  {
    && |nodes| == |rows|
    && forall i | 0 <= i < |nodes| ::
         && (account ==> nodes[i].fields.accountID == rows[i].accountID)
         && (group ==> nodes[i].fields.groupID == rows[i].groupID)
  }

  ghost predicate JoinFielded(nodes: seq<AccountGroupNode>, rows: seq<AccountGroup>, columns: seq<JoinColumn>, types: seq<bool>,
                              N: set<AccountGroupNode>)
    requires Within(nodes, N)
    reads N`fields, N`loadedTypes
  {
    && |nodes| == |rows|
    && forall i | 0 <= i < |nodes| :: nodes[i].fields == DecodeJoin(rows[i], columns) && nodes[i].loadedTypes == types
  }

  lemma BareIsJoinKeyed(nodes: seq<AccountGroupNode>, rows: seq<AccountGroup>, fields: seq<JoinColumn>, account: bool, group: bool,
                        types: seq<bool>, N: set<AccountGroupNode>, db: Database)
    requires Within(nodes, N) && BareJoinNodes(nodes, rows, JoinColumns(fields, account, group), types)
    ensures JoinFielded(nodes, rows, JoinColumns(fields, account, group), types, N)
    ensures JoinKeyed(nodes, rows, account, group, N)
    ensures AccountsShown(db, None, nodes, Keys(rows, JoinKey), N, {})
    ensures GroupEdgesShown(db, None, nodes, Keys(rows, JoinedGroupKey), N, {})
  {
    assert ALL_JOIN_COLUMNS[0] == AccountID && ALL_JOIN_COLUMNS[1] == GroupID;
  }

  lemma NoJoinsShown(db: Database, p: AccountGroupPlan, rows: seq<AccountGroup>, nodes: seq<AccountGroupNode>,
                     N: set<AccountGroupNode>, types: seq<bool>, S: set<object>)
    requires nodes == [] && BareJoinNodes(nodes, rows, JoinColumns(p.ctx.fields, p.account.Some?, p.group.Some?), types)
    ensures ShowsJoinBatch(db, p, rows, nodes, S)
  {
  }

  /** Two filled edges and the fields make up the tree of every row. */
  lemma JoinGraphShown(db: Database, p: AccountGroupPlan, rows: seq<AccountGroup>, nodes: seq<AccountGroupNode>,
                       N: set<AccountGroupNode>, S1: set<object>, S2: set<object>, S: set<object>)
    requires Within(nodes, N) && |nodes| == |rows|
    requires JoinFielded(nodes, rows, JoinColumns(p.ctx.fields, p.account.Some?, p.group.Some?), [p.account.Some?, p.group.Some?], N)
    requires AccountsShown(db, p.account, nodes, Keys(rows, JoinKey), N, S1)
    requires GroupEdgesShown(db, p.group, nodes, Keys(rows, JoinedGroupKey), N, S2)
    requires (forall x | x in N :: x in S) && S1 + S2 <= S
    ensures ShowsJoinBatch(db, p, rows, nodes, S)
  {
    forall i | 0 <= i < |rows|
      ensures ShowsJoin(nodes[i], JoinAccountGroup(db, p, p.ctx.fields, rows[i]), S)
    {
      if p.account.Some? {
        AccountInLarger(nodes[i], JoinByKey(db, p.account.value, Some(rows[i].accountID)), S1, S);
      }
    }
  }

  lemma AccountInLarger(n: AccountGroupNode, t: Option<AccountTree>, S: set<object>, L: set<object>)
    requires ShowsOption(n.account, t, S) && S <= L
    ensures ShowsOption(n.account, t, L)
  {
    if t.Some? {
      ShowsInLarger(n.account, t.value, S, L);
    }
  }
}
