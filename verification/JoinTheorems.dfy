/** What the answers of the naive join, and so the loaded graphs, satisfy whatever the database holds. */
module JoinTheorems {
  import opened Wrappers
  import opened Rows
  import opened AccountCodec
  import opened QueryPlans
  import opened Entities
  import opened Scattering
  import opened Batches

  // ------------------------------------------------ parent against children

  /** The tree of the parent has the foreign key of the child as its id. */
  lemma ParentHasKey(db: Database, p: AccountPlan, a: Account, c: Account)
    requires a in SelectedAccounts(db, p)
    ensures var parent := JoinByKey(db, p, c.numbers.parentAccountID);
            parent.Some? && parent.value.row.id == a.id <==> c.numbers.parentAccountID == Some(a.id)
  {
    if c.numbers.parentAccountID.Some? {
      var k: int := c.numbers.parentAccountID.value;
      var hits := Filter(SelectedAccounts(db, p), IdIs(k));
      FilterMember(SelectedAccounts(db, p), IdIs(k), a);
      if hits != [] {
        FilterMember(SelectedAccounts(db, p), IdIs(k), hits[0]);
      }
    }
  }

  /** Among the children of `a` the id of `c` occurs once if `c` holds the id of `a` as its key, and never otherwise. */
  lemma ChildOccursOnce(db: Database, p: AccountPlan, a: Account, c: Account)
    requires ValidDatabase(db) && c in SelectedAccounts(db, p)
    ensures |Positions(Keys(ChildRows(db, p, a.id), AccountKey), c.id)| == if c.numbers.parentAccountID == Some(a.id) then 1 else 0
  {
    var all, rows := SelectedAccounts(db, p), ChildRows(db, p, a.id);
    var keys := Keys(rows, AccountKey);
    SelectedUnique(db.accounts, p.filters, p.order, AccountId);
    UniqueFilter(all, AccountId, ParentIs(a.id));
    UniquePositions(rows, AccountId, AccountKey, c.id);
    FilterMember(all, ParentIs(a.id), c);
    var at := Positions(keys, c.id);
    if c in rows {
      var i :| 0 <= i < |rows| && rows[i] == c;
      PositionsComplete(keys, c.id, i);
    }
    if at != [] {
      var r := rows[at[0]];
      FilterMember(all, ParentIs(a.id), r);
      SameIdSameRow(all, AccountId, r, c);
    }
  }

  lemma SameIdSameRow<T>(rows: seq<T>, id: T -> int, x: T, y: T)
    requires UniqueBy(rows, id) && x in rows && y in rows && id(x) == id(y)
    ensures x == y
  {
    var i :| 0 <= i < |rows| && rows[i] == x;
    var j :| 0 <= j < |rows| && rows[j] == y;
  }

  /**
   The parent and children edges of a loaded graph are inverse: node `j` is the parent of node `i`
   exactly if the id of `i` occurs among the children of `j`, and then it occurs once.
   */
  lemma ParentIffChild(db: Database, p: AccountPlan, nodes: seq<AccountNode>, S: set<object>, i: nat, j: nat)
    requires ValidDatabase(db) && p.parent.Some? && p.children.Some?
    requires ShowsBatch(db, p, AccountRows(db, p), nodes, S) && i < |nodes| && j < |nodes|
    requires AccountRows(db, p)[j] in SelectedAccounts(db, p.parent.value)
    requires AccountRows(db, p)[i] in SelectedAccounts(db, p.children.value)
    ensures nodes[j].children.Some?
    ensures |Positions(IdKeys(nodes[j].children.value), nodes[i].fields.id)|
         == if nodes[i].parent != null && nodes[i].parent.fields.id == nodes[j].fields.id then 1 else 0
  {
    var a, c := AccountRows(db, p)[j], AccountRows(db, p)[i];
    BatchKeys(db, p, AccountRows(db, p), nodes, S);
    ParentHasKey(db, p.parent.value, a, c);
    ChildOccursOnce(db, p.children.value, a, c);
    ParentNode(db, p, c, nodes[i], S);
    ChildNodes(db, p, a, nodes[j], S);
  }

  lemma ParentNode(db: Database, p: AccountPlan, c: Account, n: AccountNode, S: set<object>)
    requires p.parent.Some? && Shows(n, JoinAccount(db, p, p.ctx.fields, c), S)
    ensures var parent := JoinByKey(db, p.parent.value, c.numbers.parentAccountID);
            (n.parent != null <==> parent.Some?) && (n.parent != null ==> n.parent.fields.id == parent.value.row.id)
  {
    var q := p.parent.value;
    var parent := JoinByKey(db, q, c.numbers.parentAccountID);
    if parent.Some? {
      ForcedColumns(q.ctx.fields, q.proxy.Some?, q.parent.Some?, ID);
      ProjectionKeys(n.parent.fields, parent.value.row, parent.value.columns);
    }
  }

  lemma NodeHasId(db: Database, p: AccountPlan, fields: seq<Column>, r: Account, n: AccountNode, S: set<object>)
    requires Shows(n, JoinAccount(db, p, fields, r), S)
    ensures n.fields.id == r.id
  {
    ForcedColumns(fields, p.proxy.Some?, p.parent.Some?, ID);
    ProjectionKeys(n.fields, r, JoinAccount(db, p, fields, r).columns);
  }

  lemma ChildNodes(db: Database, p: AccountPlan, a: Account, n: AccountNode, S: set<object>)
    requires p.children.Some? && Shows(n, JoinAccount(db, p, p.ctx.fields, a), S)
    ensures n.children.Some? && IdKeys(n.children.value) == Keys(ChildRows(db, p.children.value, a.id), AccountKey)
  {
    hide ChildRows, IsProjection, JoinByKey, JoinLeaf, JoinLogs, JoinGroups, JoinJoins;
    var q := p.children.value;
    var trees, rows := JoinChildren(db, q, a.id), ChildRows(db, q, a.id);
    var fields := WithForeignKey(q.ctx.fields, ParentAccountID);
    assert n.children.Some? && |n.children.value| == |rows|;
    forall k | 0 <= k < |rows| ensures n.children.value[k].fields.id == rows[k].id {
      assert Shows(n.children.value[k], trees[k], S);
      NodeHasId(db, q, fields, rows[k], n.children.value[k], S);
    }
  }

  // ------------------------------------------------ one-to-many partitions

  /** The total length of the lists that the first `n` ids gather from the first `j` neighbours. */
  function TotalGathered(keys: seq<Option<int>>, ids: seq<int>, n: nat, j: nat): nat
    requires n <= |ids| && j <= |keys|
  {
    if n == 0 then 0 else TotalGathered(keys, ids, n - 1, j) + |Gathered(keys, keys, ids[n - 1], j)|
  }

  /** The lists' lengths do not depend on what is gathered. */
  lemma {:induction false} GatheredLength<X>(xs: seq<X>, keys: seq<Option<int>>, k: int, j: nat)
    requires |xs| == |keys| && j <= |xs|
    ensures |Gathered(xs, keys, k, j)| == |Gathered(keys, keys, k, j)|
  {
    if j > 0 {
      GatheredLength(xs, keys, k, j - 1);
    }
  }

  /** One more neighbour makes the list of its own id longer by one, and no other. */
  lemma {:induction false} TotalStep(keys: seq<Option<int>>, ids: seq<int>, n: nat, j: nat)
    requires n <= |ids| && j < |keys| && keys[j].Some?
    requires forall i, k | 0 <= i < k < |ids| :: ids[i] != ids[k]
    ensures TotalGathered(keys, ids, n, j + 1)
         == TotalGathered(keys, ids, n, j) + if keys[j].value in ids[..n] then 1 else 0
  {
    if n > 0 {
      TotalStep(keys, ids, n - 1, j);
      assert ids[..n] == ids[..n - 1] + [ids[n - 1]];
      assert ids[n - 1] !in ids[..n - 1];
    }
  }

  /** Every neighbour lands in exactly one list: the lengths add up to the number of neighbours. */
  lemma {:induction false} GatheredPartition(keys: seq<Option<int>>, ids: seq<int>, j: nat)
    requires j <= |keys|
    requires forall i, k | 0 <= i < k < |ids| :: ids[i] != ids[k]
    requires forall i | 0 <= i < |keys| :: keys[i].Some? && keys[i].value in ids
    ensures TotalGathered(keys, ids, |ids|, j) == j
  {
    if j == 0 {
      NothingGathered(keys, ids, |ids|);
    } else {
      GatheredPartition(keys, ids, j - 1);
      TotalStep(keys, ids, |ids|, j - 1);
      assert ids[..|ids|] == ids;
    }
  }

  lemma {:induction false} NothingGathered(keys: seq<Option<int>>, ids: seq<int>, n: nat)
    requires n <= |ids|
    ensures TotalGathered(keys, ids, n, 0) == 0
  {
    if n > 0 {
      NothingGathered(keys, ids, n - 1);
    }
  }

  /** The children of the first `n` nodes, counted. */
  function ChildCount(nodes: seq<AccountNode>, n: nat): nat
    reads nodes
    requires n <= |nodes|
  {
    if n == 0 then 0
    else ChildCount(nodes, n - 1) + if nodes[n - 1].children.Some? then |nodes[n - 1].children.value| else 0
  }

  /** After `ScatterChildren` over nodes with distinct ids no child is lost and none is listed twice. */
  lemma ChildrenPartition(nodes: seq<AccountNode>, neighbors: seq<AccountNode>)
    requires forall i, k | 0 <= i < k < |nodes| :: nodes[i].fields.id != nodes[k].fields.id
    requires forall i | 0 <= i < |nodes| :: nodes[i].children
               == Some(Gathered(neighbors, ParentKeys(neighbors), nodes[i].fields.id, |neighbors|))
    requires forall i | 0 <= i < |neighbors| :: neighbors[i].fields.numbers.parentAccountID.Some? && neighbors[i].fields.numbers.parentAccountID.value in Ids(nodes)
    ensures ChildCount(nodes, |nodes|) == |neighbors|
  {
    hide Gathered, ParentKeys, Ids;
    var keys, ids := ParentKeys(neighbors), Ids(nodes);
    forall i | 0 <= i < |keys| ensures keys[i].Some? && keys[i].value in ids {
      assert keys[i] == neighbors[i].fields.numbers.parentAccountID;
    }
    GatheredPartition(keys, ids, |neighbors|);
    CountIsTotal(nodes, neighbors, |nodes|);
  }

  lemma {:induction false} CountIsTotal(nodes: seq<AccountNode>, neighbors: seq<AccountNode>, n: nat)
    requires n <= |nodes|
    requires forall i | 0 <= i < |nodes| :: nodes[i].children
               == Some(Gathered(neighbors, ParentKeys(neighbors), nodes[i].fields.id, |neighbors|))
    ensures ChildCount(nodes, n) == TotalGathered(ParentKeys(neighbors), Ids(nodes), n, |neighbors|)
  {
    if n > 0 {
      CountIsTotal(nodes, neighbors, n - 1);
      GatheredLength(neighbors, ParentKeys(neighbors), nodes[n - 1].fields.id, |neighbors|);
    }
  }

  // ------------------------------------------- many-to-many, any row order

  /** The groups of account `a`: those that some join row joins to it. */
  function LinkedGroup(rows: seq<JoinedRow>, a: int): LeafRow -> bool {
    (g: LeafRow) => Linked(rows, a, g.id)
  }

  /** Each group appears once among the first rows. */
  lemma {:induction false} FirstRowsUnique(rows: seq<JoinedRow>, j: nat)
    requires j <= |rows|
    ensures UniqueBy(FirstRows(rows, j), LeafId)
    ensures forall g :: (exists i :: 0 <= i < |FirstRows(rows, j)| && FirstRows(rows, j)[i].id == g) <==> SeenGroup(rows, j, g)
  {
    if j > 0 {
      FirstRowsUnique(rows, j - 1);
      SeenStep(rows, j - 1);
      var init, all := FirstRows(rows, j - 1), FirstRows(rows, j);
      forall g
        ensures (exists i :: 0 <= i < |all| && all[i].id == g) <==> SeenGroup(rows, j, g)
      {
        if SeenGroup(rows, j - 1, g) {
          var i :| 0 <= i < |init| && init[i].id == g;
          assert all[i].id == g;
        } else if SeenGroup(rows, j, g) {
          assert all[|init|].id == g;
        }
        if i :| 0 <= i < |all| && all[i].id == g {
          if i < |init| {
            assert init[i].id == g;
          }
        }
      }
    }
  }

  /** Among distinct ids every one is the last of its kind. */
  lemma EveryLast(ids: seq<int>)
    requires Distinct(ids)
    ensures forall i | 0 <= i < |ids| :: LastOf(ids, i)
  {
  }

  /**
   `loadGroups` on join rows in any order and with any repetitions: every account ends with exactly
   the groups joined to it, each once, in order of first appearance over all rows.
   */
  method LoadGroupsFromRows(rows: seq<JoinedRow>, columns: seq<string>, nodes: seq<AccountNode>, ghost N: set<AccountNode>)
      returns (err: Option<QueryError>, ghost S: set<object>)
    requires |columns| > 0 && columns[0] == "id"
    requires Within(nodes, N) && Covers(nodes, N) && Distinct(Ids(nodes))
    requires forall i | 0 <= i < |rows| :: rows[i].account in Ids(nodes)
    modifies N`groups
    ensures err.None? && fresh(S)
    ensures forall i | 0 <= i < |nodes| ::
              ShowsLeaves(nodes[i].groups, DecodeLeaves(Filter(FirstRows(rows, |rows|), LinkedGroup(rows, nodes[i].fields.id)), columns), S)
  {
    hide FirstRows, DecodeLeaves, LinkedGroup, LinkedTo, MembersOf, SeenGroup, ShowsLeaves, LastOf;
    InitGroups(nodes, N);
    var ids, byID := IndexById(nodes, N);
    EveryLast(ids);
    var neighbors, nids;
    neighbors, nids, S := CollectJoined(rows, columns, byID);
    RecordedAndLinked(rows, byID, neighbors, nids, columns, S, N);
    forall i | 0 <= i < |nodes|
      ensures ShowsLeaves(Some(LinkedTo(neighbors, LeafIds(neighbors), nids, nodes[i], |neighbors|)),
                          DecodeLeaves(Filter(FirstRows(rows, |rows|), LinkedGroup(rows, ids[i])), columns), S)
    {
      assert byID[ids[i]] == nodes[i];
      LinkedList(rows, byID, neighbors, nids, columns, S, N, ids[i]);
    }
    err := ScatterGroups(neighbors, nids, N);
  }

  /** No group is unexpected, and only indexed nodes are recorded. */
  lemma {:induction false} RecordedAndLinked(rows: seq<JoinedRow>, byID: map<int, AccountNode>, neighbors: seq<LeafNode>,
                          nids: map<int, set<AccountNode>>, columns: seq<string>, S: set<object>, N: set<AccountNode>)
    requires |columns| > 0 && columns[0] == "id" && IdIndex(byID, N)
    requires forall i | 0 <= i < |rows| :: rows[i].account in byID
    requires ShowsLeaves(Some(neighbors), DecodeLeaves(FirstRows(rows, |rows|), columns), S)
    requires forall g :: g in nids <==> SeenGroup(rows, |rows|, g)
    requires forall g | g in nids :: nids[g] == MembersOf(rows, byID, g, |rows|)
    ensures forall g | g in nids :: nids[g] <= N
    ensures forall j | 0 <= j < |neighbors| :: neighbors[j].fields.id in nids
  {
    forall g, x | g in nids && x in nids[g] ensures x in N {
      MembersOfLinked(rows, byID, g, |rows|, x);
    }
    forall j | 0 <= j < |neighbors| ensures neighbors[j].fields.id in nids {
      FirstRowsSeen(rows, |rows|, j);
      assert neighbors[j].fields.id == FirstRows(rows, |rows|)[j].id;
    }
  }

  /** The list of one account. */
  lemma {:induction false} LinkedList(rows: seq<JoinedRow>, byID: map<int, AccountNode>, neighbors: seq<LeafNode>,
                   nids: map<int, set<AccountNode>>, columns: seq<string>, S: set<object>, N: set<AccountNode>, a: int)
    requires |columns| > 0 && columns[0] == "id" && IdIndex(byID, N) && a in byID
    requires forall i | 0 <= i < |rows| :: rows[i].account in byID
    requires ShowsLeaves(Some(neighbors), DecodeLeaves(FirstRows(rows, |rows|), columns), S)
    requires forall g :: g in nids <==> SeenGroup(rows, |rows|, g)
    requires forall g | g in nids :: nids[g] == MembersOf(rows, byID, g, |rows|)
    ensures ShowsLeaves(Some(LinkedTo(neighbors, LeafIds(neighbors), nids, byID[a], |neighbors|)),
                        DecodeLeaves(Filter(FirstRows(rows, |rows|), LinkedGroup(rows, a)), columns), S)
  {
    var first, gids := FirstRows(rows, |rows|), LeafIds(neighbors);
    forall i | 0 <= i < |first|
      ensures LinkedGroup(rows, a)(first[i]) <==> gids[i] in nids && byID[a] in nids[gids[i]]
    {
      FirstRowsSeen(rows, |rows|, i);
      assert gids[i] == first[i].id;
      MembersOfLinked(rows, byID, first[i].id, |rows|, byID[a]);
    }
    LinkedShows(neighbors, gids, nids, byID[a], first, columns, LinkedGroup(rows, a), S, |neighbors|);
    assert first[..|first|] == first;
  }

  /** The list of one account: a group is in it exactly if a row joins the two, and then once. */
  lemma ExactGroups(rows: seq<JoinedRow>, a: int, g: int)
    ensures var list := Filter(FirstRows(rows, |rows|), LinkedGroup(rows, a));
            UniqueBy(list, LeafId) && ((exists i :: 0 <= i < |list| && list[i].id == g) <==> Linked(rows, a, g))
  {
    var first := FirstRows(rows, |rows|);
    var list := Filter(first, LinkedGroup(rows, a));
    FirstRowsUnique(rows, |rows|);
    UniqueFilter(first, LeafId, LinkedGroup(rows, a));
    if i :| 0 <= i < |list| && list[i].id == g {
      assert list[i] in list;
      FilterMember(first, LinkedGroup(rows, a), list[i]);
    }
    if Linked(rows, a, g) {
      var k :| 0 <= k < |rows| && rows[k].account == a && rows[k].group.id == g;
      assert SeenGroup(rows, |rows|, g);
      var i :| 0 <= i < |first| && first[i].id == g;
      assert first[i] in first;
      FilterMember(first, LinkedGroup(rows, a), first[i]);
      var m :| 0 <= m < |list| && list[m] == first[i];
    }
  }

  // ------------------------------------------------- projection invariance

  /** The plan with every `Select` removed. */
  function Unselected(p: AccountPlan): AccountPlan
    decreases p, 1
  {
    p.(ctx := p.ctx.(fields := []),
       groups := UnselectedLeaf(p.groups), proxy := UnselectedLeaf(p.proxy), usageLogs := UnselectedLeaf(p.usageLogs),
       parent := UnselectedOption(p.parent), children := UnselectedOption(p.children),
       accountGroups := if p.accountGroups.None? then None else Some(UnselectedJoin(p.accountGroups.value)))
  }

  function UnselectedOption(p: Option<AccountPlan>): Option<AccountPlan>
    decreases p, 0
  {
    if p.None? then None else Some(Unselected(p.value))
  }

  function UnselectedJoin(p: AccountGroupPlan): AccountGroupPlan
    decreases p, 1
  {
    p.(ctx := p.ctx.(fields := []), account := UnselectedOption(p.account), group := UnselectedLeaf(p.group))
  }

  function UnselectedLeaf(p: Option<LeafPlan>): Option<LeafPlan> {
    if p.None? then None else Some(p.value.(ctx := p.value.ctx.(fields := [])))
  }

  /** Every leaf builder's column list has the id. */
  predicate HasIds(p: AccountPlan) {
    && LeafHasId(p.groups) && LeafHasId(p.proxy) && LeafHasId(p.usageLogs)
    && (p.parent.Some? ==> HasIds(p.parent.value)) && (p.children.Some? ==> HasIds(p.children.value))
    && (p.accountGroups.Some? ==> JoinHasIds(p.accountGroups.value))
  }

  predicate JoinHasIds(p: AccountGroupPlan) {
    (p.account.Some? ==> HasIds(p.account.value)) && LeafHasId(p.group)
  }

  predicate LeafHasId(p: Option<LeafPlan>) {
    p.Some? ==> "id" in p.value.columns
  }

  predicate SameIds(s: seq<LeafRow>, t: seq<LeafRow>) {
    |s| == |t| && forall i | 0 <= i < |s| :: s[i].id == t[i].id
  }

  predicate SameIdLists(s: Option<seq<LeafRow>>, t: Option<seq<LeafRow>>) {
    s.Some? == t.Some? && (s.Some? ==> SameIds(s.value, t.value))
  }

  predicate SameIdOption(s: Option<Option<LeafRow>>, t: Option<Option<LeafRow>>) {
    && s.Some? == t.Some? && (s.Some? ==> s.value.Some? == t.value.Some?)
    && (s.Some? && s.value.Some? ==> s.value.value.id == t.value.value.id)
  }

  /** The same rows along the same edges, to any depth; the selected columns may differ. */
  predicate SameEdges(s: AccountTree, t: AccountTree)
    decreases s
  {
    && s.row == t.row
    && SameIdLists(s.groups, t.groups) && SameIdLists(s.usageLogs, t.usageLogs) && SameIdOption(s.proxy, t.proxy)
    && s.parent.Some? == t.parent.Some? && (s.parent.Some? ==> s.parent.value.Some? == t.parent.value.Some?)
    && (s.parent.Some? && s.parent.value.Some? ==> SameEdges(s.parent.value.value, t.parent.value.value))
    && s.children.Children? == t.children.Children?
    && (s.children.Children? ==>
          && |s.children.list| == |t.children.list|
          && forall i | 0 <= i < |s.children.list| :: SameEdges(s.children.list[i], t.children.list[i]))
    && s.accountGroups.Joins? == t.accountGroups.Joins?
    && (s.accountGroups.Joins? ==>
          && |s.accountGroups.list| == |t.accountGroups.list|
          && forall i | 0 <= i < |s.accountGroups.list| :: SameJoinEdges(s.accountGroups.list[i], t.accountGroups.list[i]))
  }

  predicate SameJoinEdges(s: AccountGroupTree, t: AccountGroupTree)
    decreases s
  {
    && SameIdOption(s.group, t.group)
    && s.account.Some? == t.account.Some? && (s.account.Some? ==> s.account.value.Some? == t.account.value.Some?)
    && (s.account.Some? && s.account.value.Some? ==> SameEdges(s.account.value.value, t.account.value.value))
  }

  /**
   Whatever is selected on the query and on the queries of its edges, the same rows are loaded along
   the same edges as with all columns: ids are forced into the selection and needed foreign keys added.
   */
  lemma {:induction false} ProjectionInvariance(db: Database, p: AccountPlan, f: seq<Column>, g: seq<Column>, r: Account)
    requires HasIds(p)
    ensures SameEdges(JoinAccount(db, p, f, r), JoinAccount(db, Unselected(p), g, r))
    decreases p, 0
  {
    hide JoinByKey, JoinChildren, JoinJoins, JoinGroups, JoinLogs, JoinLeaf, AccountColumns;
    SameLeafEdges(db, p, f, g, r);
    if p.parent.Some? {
      SameParent(db, p.parent.value, r.numbers.parentAccountID);
    }
    if p.children.Some? {
      SameChildEdges(db, p.children.value, r.id);
    }
    if p.accountGroups.Some? {
      SameJoinLists(db, p.accountGroups.value, r.id);
    }
  }

  lemma SameLeafEdges(db: Database, p: AccountPlan, f: seq<Column>, g: seq<Column>, r: Account)
    requires HasIds(p)
    ensures var s, t := JoinAccount(db, p, f, r), JoinAccount(db, Unselected(p), g, r);
            SameIdLists(s.groups, t.groups) && SameIdLists(s.usageLogs, t.usageLogs) && SameIdOption(s.proxy, t.proxy)
  {
    hide JoinByKey, JoinChildren, JoinJoins, AccountColumns;
  }

  lemma {:induction false} SameParent(db: Database, p: AccountPlan, fk: Option<int>)
    requires HasIds(p)
    ensures var s, t := JoinByKey(db, p, fk), JoinByKey(db, Unselected(p), fk);
            s.Some? == t.Some? && (s.Some? ==> SameEdges(s.value, t.value))
    decreases p, 1
  {
    if fk.Some? {
      var hits := Filter(SelectedAccounts(db, p), IdIs(fk.value));
      if hits != [] {
        ProjectionInvariance(db, p, p.ctx.fields, [], hits[0]);
      }
    }
  }

  lemma {:induction false} SameChildEdges(db: Database, p: AccountPlan, id: int)
    requires HasIds(p)
    ensures var s, t := JoinChildren(db, p, id), JoinChildren(db, Unselected(p), id);
            |s| == |t| && forall i | 0 <= i < |s| :: SameEdges(s[i], t[i])
    decreases p, 1
  {
    var rows := ChildRows(db, p, id);
    forall i | 0 <= i < |rows|
      ensures SameEdges(JoinChildren(db, p, id)[i], JoinChildren(db, Unselected(p), id)[i])
    {
      ProjectionInvariance(db, p, WithForeignKey(p.ctx.fields, ParentAccountID), [], rows[i]);
    }
  }

  lemma {:induction false} SameJoinLists(db: Database, p: AccountGroupPlan, id: int)
    requires JoinHasIds(p)
    ensures var s, t := JoinJoins(db, p, id), JoinJoins(db, UnselectedJoin(p), id);
            |s| == |t| && forall i | 0 <= i < |s| :: SameJoinEdges(s[i], t[i])
    decreases p, 1
  {
    var rows := JoinRowsOf(db, p, id);
    forall i | 0 <= i < |rows|
      ensures SameJoinEdges(JoinJoins(db, p, id)[i], JoinJoins(db, UnselectedJoin(p), id)[i])
    {
      if p.account.Some? {
        SameParent(db, p.account.value, Some(rows[i].accountID));
      }
    }
  }
}
