/**
 The in-place part of the eager loaders: an index over the objects that wait for an edge, and the
 scatter loop that hands every loaded neighbour to the objects its key names.
 */
module Scattering {
  import opened Wrappers
  import opened Rows
  import opened QueryPlans
  import opened Entities

  datatype QueryError = InvalidField | UnexpectedNode(id: int) | NilForeignKey(id: int) | NotFound | NotSingular

  // ---------------------------------------------------------------- indexes

  lemma KeyStep<N>(nodes: seq<N>, fks: seq<Option<int>>, i: nat, k: int)
    requires i < |nodes| == |fks|
    ensures Pick(nodes, Positions(fks[..i + 1], k)) == Pick(nodes, Positions(fks[..i], k)) + if fks[i] == Some(k) then [nodes[i]] else []
  {
    assert fks[..i + 1][..i] == fks[..i];
  }

  lemma KeysStep(fks: seq<Option<int>>, i: nat)
    requires i < |fks|
    ensures DistinctKeys(fks[..i + 1])
         == DistinctKeys(fks[..i]) + if fks[i].Some? && fks[i].value !in DistinctKeys(fks[..i]) then [fks[i].value] else []
  {
    assert fks[..i + 1][..i] == fks[..i];
  }

  lemma NewKey<N>(nodes: seq<N>, fks: seq<Option<int>>, i: nat, k: int)
    requires i <= |nodes| == |fks| && k !in DistinctKeys(fks[..i])
    ensures Pick(nodes, Positions(fks[..i], k)) == []
  {
    NoPosition(fks[..i], k);
  }

  /**
   The first loop of the many-to-one loaders: the distinct foreign keys in order of appearance,
   and for each key the nodes that carry it.
   */
  method IndexByForeignKey<N>(nodes: seq<N>, fks: seq<Option<int>>) returns (ids: seq<int>, nodeids: map<int, seq<N>>)
    requires |nodes| == |fks|
    ensures ids == DistinctKeys(fks) && KeysIn(fks, ids)
    ensures forall k :: k in nodeids <==> k in ids
    ensures forall k | k in nodeids :: nodeids[k] == Pick(nodes, Positions(fks, k))
  {
    ids, nodeids := [], map[];
    for i := 0 to |nodes|
      invariant ids == DistinctKeys(fks[..i])
      invariant forall k :: k in nodeids <==> k in ids
      invariant forall k | k in nodeids :: nodeids[k] == Pick(nodes, Positions(fks[..i], k))
    {
      KeysStep(fks, i);
      forall k ensures Pick(nodes, Positions(fks[..i + 1], k)) == Pick(nodes, Positions(fks[..i], k)) + if fks[i] == Some(k) then [nodes[i]] else [] {
        KeyStep(nodes, fks, i, k);
      }
      hide Positions, Pick, DistinctKeys;
      if fks[i].Some? {
        var fk := fks[i].value;
        if fk !in nodeids {
          ids := ids + [fk];
          NewKey(nodes, fks, i, fk);
          nodeids := nodeids[fk := []];
        }
        nodeids := nodeids[fk := nodeids[fk] + [nodes[i]]];
      }
    }
    assert fks[..|fks|] == fks;
    forall i | 0 <= i < |fks| && fks[i].Some? ensures fks[i].value in ids {
      assert fks[i] in fks;
    }
  }

  // ------------------------------------------------- scattering over edges

  function Ids(nodes: seq<AccountNode>): (r: seq<int>)
    reads nodes
    ensures |r| == |nodes| && forall i | 0 <= i < |nodes| :: r[i] == nodes[i].fields.id
  {
    seq(|nodes|, i requires 0 <= i < |nodes| reads nodes => nodes[i].fields.id)
  }

  function IdKeys(nodes: seq<AccountNode>): (r: seq<Option<int>>)
    reads nodes
    ensures |r| == |nodes| && forall i | 0 <= i < |nodes| :: r[i] == Some(nodes[i].fields.id)
  {
    seq(|nodes|, i requires 0 <= i < |nodes| reads nodes => Some(nodes[i].fields.id))
  }

  function ParentKeys(nodes: seq<AccountNode>): (r: seq<Option<int>>)
    reads nodes
    ensures |r| == |nodes| && forall i | 0 <= i < |nodes| :: r[i] == nodes[i].fields.numbers.parentAccountID
  {
    seq(|nodes|, i requires 0 <= i < |nodes| reads nodes => nodes[i].fields.numbers.parentAccountID)
  }

  function ProxyKeys(nodes: seq<AccountNode>): (r: seq<Option<int>>)
    reads nodes
    ensures |r| == |nodes| && forall i | 0 <= i < |nodes| :: r[i] == nodes[i].fields.numbers.proxyID
  {
    seq(|nodes|, i requires 0 <= i < |nodes| reads nodes => nodes[i].fields.numbers.proxyID)
  }

  function LeafIdKeys(nodes: seq<LeafNode>): (r: seq<Option<int>>)
    reads nodes
    ensures |r| == |nodes| && forall i | 0 <= i < |nodes| :: r[i] == Some(nodes[i].fields.id)
  {
    seq(|nodes|, i requires 0 <= i < |nodes| reads nodes => Some(nodes[i].fields.id))
  }

  function OwnerKeys(nodes: seq<LeafNode>): (r: seq<Option<int>>)
    reads nodes
    ensures |r| == |nodes| && forall i | 0 <= i < |nodes| :: r[i] == Some(nodes[i].fields.accountID)
  {
    seq(|nodes|, i requires 0 <= i < |nodes| reads nodes => Some(nodes[i].fields.accountID))
  }

  function JoinKeys(nodes: seq<AccountGroupNode>): (r: seq<Option<int>>)
    reads nodes
    ensures |r| == |nodes| && forall i | 0 <= i < |nodes| :: r[i] == Some(nodes[i].fields.accountID)
  {
    seq(|nodes|, i requires 0 <= i < |nodes| reads nodes => Some(nodes[i].fields.accountID))
  }

  ghost predicate Distinct<N>(nodes: seq<N>) {
    forall i, j | 0 <= i < j < |nodes| :: nodes[i] != nodes[j]
  }

  /** `N` contains the given nodes. */
  ghost predicate Within<X>(nodes: seq<X>, N: set<X>) {
    forall i | 0 <= i < |nodes| :: nodes[i] in N
  }

  ghost predicate Covers<X>(nodes: seq<X>, N: set<X>) {
    forall x | x in N :: x in nodes
  }

  ghost predicate Outside<X>(nodes: seq<X>, N: set<X>) {
    forall i | 0 <= i < |nodes| :: nodes[i] !in N
  }

  /** `entry` holds the nodes with key `k` and no others. */
  ghost predicate CarriersOf<X>(nodes: seq<X>, fks: seq<Option<int>>, k: int, entry: seq<X>, N: set<X>)
    requires |nodes| == |fks|
  {
    && (forall i | 0 <= i < |nodes| :: nodes[i] in entry <==> fks[i] == Some(k))
    && Within(entry, N)
  }

  /** Every foreign key that is set is one of the ids. */
  ghost predicate KeysIn(fks: seq<Option<int>>, ids: seq<int>) {
    forall i | 0 <= i < |fks| && fks[i].Some? :: fks[i].value in ids
  }

  /** `nodeids` maps a key to the nodes that carry it. */
  ghost predicate IndexOf<X>(nodes: seq<X>, fks: seq<Option<int>>, nodeids: map<int, seq<X>>, N: set<X>) {
    && |nodes| == |fks|
    && forall k | k in nodeids :: CarriersOf(nodes, fks, k, nodeids[k], N)
  }

  lemma PickedEntry<X>(nodes: seq<X>, fks: seq<Option<int>>, k: int, N: set<X>)
    requires |nodes| == |fks| && Distinct(nodes) && Within(nodes, N)
    ensures CarriersOf(nodes, fks, k, Pick(nodes, Positions(fks, k)), N)
  {
    var at := Positions(fks, k);
    var entry := Pick(nodes, at);
    forall i | 0 <= i < |nodes|
      ensures nodes[i] in entry <==> fks[i] == Some(k)
    {
      if fks[i] == Some(k) {
        PositionsComplete(fks, k, i);
        var m :| 0 <= m < |at| && at[m] == i;
        assert entry[m] == nodes[i];
      }
      if nodes[i] in entry {
        var m :| 0 <= m < |at| && entry[m] == nodes[i];
        assert nodes[at[m]] == nodes[i];
      }
    }
  }

  /** One more neighbour takes over the nodes that carry its key. */
  lemma LastWithStep(keys: seq<Option<int>>, fks: seq<Option<int>>, j: nat, k: int)
    requires j < |keys| && keys[j] == Some(k)
    ensures forall i | 0 <= i < |fks| ::
              LastWith(keys, fks[i], j + 1) == if fks[i] == Some(k) then Some(j) else LastWith(keys, fks[i], j)
  {
  }

  /** One neighbour of `loadParent`: all nodes of its index entry get the neighbour. */
  method AssignParent(nodes: seq<AccountNode>, fks: seq<Option<int>>, entry: seq<AccountNode>, n: AccountNode,
                      ghost N: set<AccountNode>)
    requires |nodes| == |fks| && CarriersOf(nodes, fks, n.fields.id, entry, N)
    modifies N`parent
    ensures forall i | 0 <= i < |nodes| ::
              nodes[i].parent == if fks[i] == Some(n.fields.id) then n else old(nodes[i].parent)
  {
    for m := 0 to |entry|
      invariant forall x | x in nodes :: x.parent == if x in entry[..m] then n else old(x.parent)
    {
      entry[m].parent := n;
    }
    assert entry[..|entry|] == entry;
  }

  /** The second loop of `loadParent`: every node of the neighbour's index entry gets the neighbour. */
  method ScatterParent(nodes: seq<AccountNode>, fks: seq<Option<int>>, nodeids: map<int, seq<AccountNode>>,
                       neighbors: seq<AccountNode>, ghost N: set<AccountNode>) returns (err: Option<QueryError>)
    requires IndexOf(nodes, fks, nodeids, N) && Within(nodes, N) && Outside(neighbors, N)
    requires forall i | 0 <= i < |nodes| :: nodes[i].parent == null
    modifies N`parent
    ensures err.None? <==> forall j | 0 <= j < |neighbors| :: neighbors[j].fields.id in nodeids
    ensures err.None? ==> forall i | 0 <= i < |nodes| ::
              var n := LastWith(IdKeys(neighbors), fks[i], |neighbors|);
              nodes[i].parent == if n.Some? then neighbors[n.value] else null
  {
    hide LastWith;
    ghost var keys := IdKeys(neighbors);
    for j := 0 to |neighbors|
      invariant forall k | 0 <= k < j :: neighbors[k].fields.id in nodeids
      invariant forall i | 0 <= i < |nodes| ::
                  var n := LastWith(keys, fks[i], j);
                  nodes[i].parent == if n.Some? then neighbors[n.value] else null
    {
      var n := neighbors[j];
      LastWithStep(keys, fks, j, n.fields.id);
      if n.fields.id !in nodeids {
        return Some(UnexpectedNode(n.fields.id));
      }
      AssignParent(nodes, fks, nodeids[n.fields.id], n, N);
    }
    return None;
  }

  /** One neighbour of `loadProxy`: all nodes of its index entry get the neighbour. */
  method AssignProxy(nodes: seq<AccountNode>, fks: seq<Option<int>>, entry: seq<AccountNode>, n: LeafNode,
                      ghost N: set<AccountNode>)
    requires |nodes| == |fks| && CarriersOf(nodes, fks, n.fields.id, entry, N)
    modifies N`proxy
    ensures forall i | 0 <= i < |nodes| ::
              nodes[i].proxy == if fks[i] == Some(n.fields.id) then n else old(nodes[i].proxy)
  {
    for m := 0 to |entry|
      invariant forall x | x in nodes :: x.proxy == if x in entry[..m] then n else old(x.proxy)
    {
      entry[m].proxy := n;
    }
    assert entry[..|entry|] == entry;
  }

  /** The second loop of `loadProxy`: every node of the neighbour's index entry gets the neighbour. */
  method ScatterProxy(nodes: seq<AccountNode>, fks: seq<Option<int>>, nodeids: map<int, seq<AccountNode>>,
                       neighbors: seq<LeafNode>, ghost N: set<AccountNode>) returns (err: Option<QueryError>)
    requires IndexOf(nodes, fks, nodeids, N) && Within(nodes, N)
    requires forall i | 0 <= i < |nodes| :: nodes[i].proxy == null
    modifies N`proxy
    ensures err.None? <==> forall j | 0 <= j < |neighbors| :: neighbors[j].fields.id in nodeids
    ensures err.None? ==> forall i | 0 <= i < |nodes| ::
              var n := LastWith(LeafIdKeys(neighbors), fks[i], |neighbors|);
              nodes[i].proxy == if n.Some? then neighbors[n.value] else null
  {
    hide LastWith;
    ghost var keys := LeafIdKeys(neighbors);
    for j := 0 to |neighbors|
      invariant forall k | 0 <= k < j :: neighbors[k].fields.id in nodeids
      invariant forall i | 0 <= i < |nodes| ::
                  var n := LastWith(keys, fks[i], j);
                  nodes[i].proxy == if n.Some? then neighbors[n.value] else null
    {
      var n := neighbors[j];
      LastWithStep(keys, fks, j, n.fields.id);
      if n.fields.id !in nodeids {
        return Some(UnexpectedNode(n.fields.id));
      }
      AssignProxy(nodes, fks, nodeids[n.fields.id], n, N);
    }
    return None;
  }

  /** One neighbour of `loadAccount`: all nodes of its index entry get the neighbour. */
  method AssignAccount(nodes: seq<AccountGroupNode>, fks: seq<Option<int>>, entry: seq<AccountGroupNode>, n: AccountNode,
                      ghost N: set<AccountGroupNode>)
    requires |nodes| == |fks| && CarriersOf(nodes, fks, n.fields.id, entry, N)
    modifies N`account
    ensures forall i | 0 <= i < |nodes| ::
              nodes[i].account == if fks[i] == Some(n.fields.id) then n else old(nodes[i].account)
  {
    for m := 0 to |entry|
      invariant forall x | x in nodes :: x.account == if x in entry[..m] then n else old(x.account)
    {
      entry[m].account := n;
    }
    assert entry[..|entry|] == entry;
  }

  /** The second loop of `loadAccount`: every node of the neighbour's index entry gets the neighbour. */
  method ScatterAccount(nodes: seq<AccountGroupNode>, fks: seq<Option<int>>, nodeids: map<int, seq<AccountGroupNode>>,
                       neighbors: seq<AccountNode>, ghost N: set<AccountGroupNode>) returns (err: Option<QueryError>)
    requires IndexOf(nodes, fks, nodeids, N) && Within(nodes, N)
    requires forall i | 0 <= i < |nodes| :: nodes[i].account == null
    modifies N`account
    ensures err.None? <==> forall j | 0 <= j < |neighbors| :: neighbors[j].fields.id in nodeids
    ensures err.None? ==> forall i | 0 <= i < |nodes| ::
              var n := LastWith(IdKeys(neighbors), fks[i], |neighbors|);
              nodes[i].account == if n.Some? then neighbors[n.value] else null
  {
    hide LastWith;
    ghost var keys := IdKeys(neighbors);
    for j := 0 to |neighbors|
      invariant forall k | 0 <= k < j :: keys[k].Some? && keys[k].value in nodeids
      invariant forall i | 0 <= i < |nodes| ::
                  var n := LastWith(keys, fks[i], j);
                  nodes[i].account == if n.Some? then neighbors[n.value] else null
    {
      var n := neighbors[j];
      LastWithStep(keys, fks, j, n.fields.id);
      if n.fields.id !in nodeids {
        return Some(UnexpectedNode(n.fields.id));
      }
      AssignAccount(nodes, fks, nodeids[n.fields.id], n, N);
    }
    return None;
  }

  /** One neighbour of `loadGroup`: all nodes of its index entry get the neighbour. */
  method AssignGroup(nodes: seq<AccountGroupNode>, fks: seq<Option<int>>, entry: seq<AccountGroupNode>, n: LeafNode,
                      ghost N: set<AccountGroupNode>)
    requires |nodes| == |fks| && CarriersOf(nodes, fks, n.fields.id, entry, N)
    modifies N`group
    ensures forall i | 0 <= i < |nodes| ::
              nodes[i].group == if fks[i] == Some(n.fields.id) then n else old(nodes[i].group)
  {
    for m := 0 to |entry|
      invariant forall x | x in nodes :: x.group == if x in entry[..m] then n else old(x.group)
    {
      entry[m].group := n;
    }
    assert entry[..|entry|] == entry;
  }

  /** The second loop of `loadGroup`: every node of the neighbour's index entry gets the neighbour. */
  method ScatterGroup(nodes: seq<AccountGroupNode>, fks: seq<Option<int>>, nodeids: map<int, seq<AccountGroupNode>>,
                       neighbors: seq<LeafNode>, ghost N: set<AccountGroupNode>) returns (err: Option<QueryError>)
    requires IndexOf(nodes, fks, nodeids, N) && Within(nodes, N)
    requires forall i | 0 <= i < |nodes| :: nodes[i].group == null
    modifies N`group
    ensures err.None? <==> forall j | 0 <= j < |neighbors| :: neighbors[j].fields.id in nodeids
    ensures err.None? ==> forall i | 0 <= i < |nodes| ::
              var n := LastWith(LeafIdKeys(neighbors), fks[i], |neighbors|);
              nodes[i].group == if n.Some? then neighbors[n.value] else null
  {
    hide LastWith;
    ghost var keys := LeafIdKeys(neighbors);
    for j := 0 to |neighbors|
      invariant forall k | 0 <= k < j :: neighbors[k].fields.id in nodeids
      invariant forall i | 0 <= i < |nodes| ::
                  var n := LastWith(keys, fks[i], j);
                  nodes[i].group == if n.Some? then neighbors[n.value] else null
    {
      var n := neighbors[j];
      LastWithStep(keys, fks, j, n.fields.id);
      if n.fields.id !in nodeids {
        return Some(UnexpectedNode(n.fields.id));
      }
      AssignGroup(nodes, fks, nodeids[n.fields.id], n, N);
    }
    return None;
  }

  // ------------------------------------------------------ one-to-many edges

  /** The first loop of the one-to-many loaders: the ids, and for each id the last node that has it. */
  method IndexById(nodes: seq<AccountNode>, ghost N: set<AccountNode>) returns (ids: seq<int>, nodeids: map<int, AccountNode>)
    requires Within(nodes, N)
    ensures ids == Ids(nodes)
    ensures forall k :: k in nodeids <==> k in ids
    ensures IdIndex(nodeids, N)
    ensures forall i | 0 <= i < |nodes| && LastOf(ids, i) :: nodeids[ids[i]] == nodes[i]
  {
    ids, nodeids := [], map[];
    for i := 0 to |nodes|
      invariant |ids| == i && forall k | 0 <= k < i :: ids[k] == nodes[k].fields.id
      invariant forall k :: k in nodeids <==> k in ids
      invariant IdIndex(nodeids, N)
      invariant forall k | 0 <= k < i && LastOf(ids, k) :: nodeids[ids[k]] == nodes[k]
    {
      ghost var before := ids;
      ids := ids + [nodes[i].fields.id];
      nodeids := nodeids[nodes[i].fields.id := nodes[i]];
      forall k | 0 <= k < i && LastOf(ids, k)
        ensures LastOf(before, k) && ids[k] != nodes[i].fields.id
      {
        assert ids[i] != ids[k];
        forall l | k < l < i ensures before[l] != before[k] {
          assert ids[l] != ids[k];
        }
      }
    }
  }

  /** No later node has the id of node `i`. */
  ghost predicate LastOf(ids: seq<int>, i: nat)
    requires i < |ids|
  {
    forall k | i < k < |ids| :: ids[k] != ids[i]
  }

  ghost predicate IdIndex(nodeids: map<int, AccountNode>, N: set<AccountNode>)
    reads N
  {
    forall k | k in nodeids :: nodeids[k] in N && nodeids[k].fields.id == k
  }

  /** Node `x` is the one that the index keeps for id `k`. */
  ghost predicate Indexed(nodeids: map<int, AccountNode>, x: AccountNode, k: int) {
    k in nodeids && nodeids[k] == x
  }

  /** The neighbours among the first `j` whose key is `k`, in their order. */
  function Gathered<X>(xs: seq<X>, keys: seq<Option<int>>, k: int, j: nat): seq<X>
    requires |xs| == |keys| && j <= |xs|
  {
    if j == 0 then []
    else if keys[j - 1] == Some(k) then Gathered(xs, keys, k, j - 1) + [xs[j - 1]]
    else Gathered(xs, keys, k, j - 1)
  }

  lemma GatheredAll<X>(xs: seq<X>, keys: seq<Option<int>>, k: int)
    requires |xs| == |keys|
    ensures Gathered(xs, keys, k, |xs|) == Pick(xs, Positions(keys, k))
  {
    GatheredIsPick(xs, keys, k, |xs|);
    assert xs[..|xs|] == xs && keys[..|xs|] == keys;
  }

  lemma {:induction false} GatheredIsPick<X>(xs: seq<X>, keys: seq<Option<int>>, k: int, j: nat)
    requires |xs| == |keys| && j <= |xs|
    ensures Gathered(xs, keys, k, j) == Pick(xs[..j], Positions(keys[..j], k))
  {
    if j > 0 {
      GatheredIsPick(xs, keys, k, j - 1);
      assert keys[..j][..j - 1] == keys[..j - 1];
    }
  }

  /** `init` of `loadChildren`: an empty list, not a missing one. */
  method InitChildren(nodes: seq<AccountNode>, ghost N: set<AccountNode>)
    requires Within(nodes, N) && Covers(nodes, N)
    modifies N`children
    ensures forall x | x in N :: x.children == Some([])
  {
    for i := 0 to |nodes|
      invariant forall k | 0 <= k < i :: nodes[k].children == Some([])
    {
      nodes[i].children := Some([]);
    }
  }

  /**
   The second loop of `loadChildren`: each neighbour is appended to the node that its foreign key names.
   It fails exactly when a neighbour names no node.  Of several nodes with one id the last collects.
   */
  method ScatterChildren(nodes: seq<AccountNode>, ids: seq<int>, nodeids: map<int, AccountNode>,
                         neighbors: seq<AccountNode>, ghost N: set<AccountNode>) returns (err: Option<QueryError>)
    requires ids == Ids(nodes) && IdIndex(nodeids, N) && Within(nodes, N) && Outside(neighbors, N)
    requires forall x | x in N :: x.children == Some([])
    modifies N`children
    ensures err.None? <==> forall j | 0 <= j < |neighbors| :: neighbors[j].fields.numbers.parentAccountID.Some? && neighbors[j].fields.numbers.parentAccountID.value in nodeids
    ensures err.None? ==> forall i | 0 <= i < |nodes| ::
              nodes[i].children == Some(
                if Indexed(nodeids, nodes[i], ids[i])
                then Gathered(neighbors, ParentKeys(neighbors), ids[i], |neighbors|) else [])
  {
    ghost var keys := ParentKeys(neighbors);
    for j := 0 to |neighbors|
      invariant forall k | 0 <= k < j :: neighbors[k].fields.numbers.parentAccountID.Some? && neighbors[k].fields.numbers.parentAccountID.value in nodeids
      invariant IdIndex(nodeids, N)
      invariant forall k | k in nodeids :: nodeids[k].children == Some(Gathered(neighbors, keys, k, j))
      invariant forall i | 0 <= i < |nodes| && !Indexed(nodeids, nodes[i], ids[i]) :: nodes[i].children == Some([])
    {
      var n := neighbors[j];
      if n.fields.numbers.parentAccountID.None? {
        return Some(NilForeignKey(n.fields.id));
      }
      var fk: int := n.fields.numbers.parentAccountID.value;
      if fk !in nodeids {
        return Some(UnexpectedNode(n.fields.id));
      }
      var node := nodeids[fk];
      node.children := Some(node.children.value + [n]);
    }
    return None;
  }

  /** `init` of `loadUsageLogs`: an empty list, not a missing one. */
  method InitUsageLogs(nodes: seq<AccountNode>, ghost N: set<AccountNode>)
    requires Within(nodes, N) && Covers(nodes, N)
    modifies N`usageLogs
    ensures forall x | x in N :: x.usageLogs == Some([])
  {
    for i := 0 to |nodes|
      invariant forall k | 0 <= k < i :: nodes[k].usageLogs == Some([])
    {
      nodes[i].usageLogs := Some([]);
    }
  }

  /**
   The second loop of `loadUsageLogs`: each neighbour is appended to the node that its foreign key names.
   It fails exactly when a neighbour names no node.  Of several nodes with one id the last collects.
   */
  method ScatterUsageLogs(nodes: seq<AccountNode>, ids: seq<int>, nodeids: map<int, AccountNode>,
                         neighbors: seq<LeafNode>, ghost N: set<AccountNode>) returns (err: Option<QueryError>)
    requires ids == Ids(nodes) && IdIndex(nodeids, N) && Within(nodes, N)
    requires forall x | x in N :: x.usageLogs == Some([])
    modifies N`usageLogs
    ensures err.None? <==> forall j | 0 <= j < |neighbors| :: neighbors[j].fields.accountID in nodeids
    ensures err.None? ==> forall i | 0 <= i < |nodes| ::
              nodes[i].usageLogs == Some(
                if Indexed(nodeids, nodes[i], ids[i])
                then Gathered(neighbors, OwnerKeys(neighbors), ids[i], |neighbors|) else [])
  {
    ghost var keys := OwnerKeys(neighbors);
    for j := 0 to |neighbors|
      invariant forall k | 0 <= k < j :: neighbors[k].fields.accountID in nodeids
      invariant IdIndex(nodeids, N)
      invariant forall k | k in nodeids :: nodeids[k].usageLogs == Some(Gathered(neighbors, keys, k, j))
      invariant forall i | 0 <= i < |nodes| && !Indexed(nodeids, nodes[i], ids[i]) :: nodes[i].usageLogs == Some([])
    {
      var n := neighbors[j];
      if n.fields.accountID !in nodeids {
        return Some(UnexpectedNode(n.fields.id));
      }
      var node := nodeids[n.fields.accountID];
      node.usageLogs := Some(node.usageLogs.value + [n]);
    }
    return None;
  }

  /** `init` of `loadAccountGroups`: an empty list, not a missing one. */
  method InitAccountGroups(nodes: seq<AccountNode>, ghost N: set<AccountNode>)
    requires Within(nodes, N) && Covers(nodes, N)
    modifies N`accountGroups
    ensures forall x | x in N :: x.accountGroups == Some([])
  {
    for i := 0 to |nodes|
      invariant forall k | 0 <= k < i :: nodes[k].accountGroups == Some([])
    {
      nodes[i].accountGroups := Some([]);
    }
  }

  /**
   The second loop of `loadAccountGroups`: each neighbour is appended to the node that its foreign key names.
   It fails exactly when a neighbour names no node.  Of several nodes with one id the last collects.
   */
  method ScatterAccountGroups(nodes: seq<AccountNode>, ids: seq<int>, nodeids: map<int, AccountNode>,
                         neighbors: seq<AccountGroupNode>, ghost N: set<AccountNode>) returns (err: Option<QueryError>)
    requires ids == Ids(nodes) && IdIndex(nodeids, N) && Within(nodes, N)
    requires forall x | x in N :: x.accountGroups == Some([])
    modifies N`accountGroups
    ensures err.None? <==> forall j | 0 <= j < |neighbors| :: neighbors[j].fields.accountID in nodeids
    ensures err.None? ==> forall i | 0 <= i < |nodes| ::
              nodes[i].accountGroups == Some(
                if Indexed(nodeids, nodes[i], ids[i])
                then Gathered(neighbors, JoinKeys(neighbors), ids[i], |neighbors|) else [])
  {
    ghost var keys := JoinKeys(neighbors);
    for j := 0 to |neighbors|
      invariant forall k | 0 <= k < j :: neighbors[k].fields.accountID in nodeids
      invariant IdIndex(nodeids, N)
      invariant forall k | k in nodeids :: nodeids[k].accountGroups == Some(Gathered(neighbors, keys, k, j))
      invariant forall i | 0 <= i < |nodes| && !Indexed(nodeids, nodes[i], ids[i]) :: nodes[i].accountGroups == Some([])
    {
      var n := neighbors[j];
      if n.fields.accountID !in nodeids {
        return Some(UnexpectedNode(n.fields.accountID));
      }
      var node := nodeids[n.fields.accountID];
      node.accountGroups := Some(node.accountGroups.value + [n]);
    }
    return None;
  }

  // ----------------------------------------------------- many-to-many edges

  function LeafIds(nodes: seq<LeafNode>): (r: seq<int>)
    reads nodes
    ensures |r| == |nodes| && forall i | 0 <= i < |nodes| :: r[i] == nodes[i].fields.id
  {
    seq(|nodes|, i requires 0 <= i < |nodes| reads nodes => nodes[i].fields.id)
  }

  /** The nodes of the accounts that the first `j` join rows join to group `g`. */
  function MembersOf(rows: seq<JoinedRow>, byID: map<int, AccountNode>, g: int, j: nat): set<AccountNode>
    requires j <= |rows| && forall i | 0 <= i < |rows| :: rows[i].account in byID
  {
    if j == 0 then {}
    else
      MembersOf(rows, byID, g, j - 1) + if rows[j - 1].group.id == g then {byID[rows[j - 1].account]} else {}
  }

  lemma {:induction false} MembersOfLinked(rows: seq<JoinedRow>, byID: map<int, AccountNode>, g: int, j: nat, x: AccountNode)
    requires j <= |rows| && forall i | 0 <= i < |rows| :: rows[i].account in byID
    ensures x in MembersOf(rows, byID, g, j)
       <==> exists i :: 0 <= i < j && rows[i].group.id == g && byID[rows[i].account] == x
  {
    if j > 0 {
      MembersOfLinked(rows, byID, g, j - 1, x);
    }
  }

  /**
   The `Assign` hook of `loadGroups` over all rows of the joined query: the first row of a group
   makes the object, every row records its account.  `columns` are the group's own columns; the
   group's id is read from the first of them.
   */
  method CollectJoined(rows: seq<JoinedRow>, columns: seq<string>, byID: map<int, AccountNode>)
      returns (neighbors: seq<LeafNode>, nids: map<int, set<AccountNode>>, ghost S: set<object>)
    requires |columns| > 0 && columns[0] == "id"
    requires forall i | 0 <= i < |rows| :: rows[i].account in byID
    ensures fresh(S)
    ensures ShowsLeaves(Some(neighbors), DecodeLeaves(FirstRows(rows, |rows|), columns), S)
    ensures forall g :: g in nids <==> SeenGroup(rows, |rows|, g)
    ensures forall g | g in nids :: nids[g] == MembersOf(rows, byID, g, |rows|)
  {
    neighbors, nids, S := [], map[], {};
    for j := 0 to |rows|
      invariant fresh(S)
      invariant ShowsLeaves(Some(neighbors), DecodeLeaves(FirstRows(rows, j), columns), S)
      invariant forall g :: g in nids <==> SeenGroup(rows, j, g)
      invariant forall g | g in nids :: nids[g] == MembersOf(rows, byID, g, j)
    {
      var outValue := rows[j].account;
      var inValue := LeafInt(rows[j].group, columns[0]);
      SeenStep(rows, j);
      if inValue !in nids {
        NotSeenHasNoMembers(rows, byID, inValue, j);
        var node := new LeafNode(DecodeLeaf(rows[j].group, columns));
        neighbors, S := neighbors + [node], S + {node};
        nids := nids[inValue := {byID[outValue]}];
      } else {
        nids := nids[inValue := nids[inValue] + {byID[outValue]}];
      }
    }
  }

  lemma SeenStep(rows: seq<JoinedRow>, j: nat)
    requires j < |rows|
    ensures forall g :: SeenGroup(rows, j + 1, g) <==> SeenGroup(rows, j, g) || g == rows[j].group.id
  {
    forall g
      ensures SeenGroup(rows, j + 1, g) <==> SeenGroup(rows, j, g) || g == rows[j].group.id
    {
      if SeenGroup(rows, j, g) {
        var i :| 0 <= i < j && rows[i].group.id == g;
        assert rows[i].group.id == g;
      }
      if g == rows[j].group.id {
        assert SeenGroup(rows, j + 1, g);
      }
    }
  }

  lemma {:induction false} NotSeenHasNoMembers(rows: seq<JoinedRow>, byID: map<int, AccountNode>, g: int, j: nat)
    requires j <= |rows| && forall i | 0 <= i < |rows| :: rows[i].account in byID
    requires !SeenGroup(rows, j, g)
    ensures MembersOf(rows, byID, g, j) == {}
  {
    if j > 0 {
      assert rows[j - 1].group.id != g;
      assert !SeenGroup(rows, j - 1, g);
      NotSeenHasNoMembers(rows, byID, g, j - 1);
    }
  }

  /** The innermost loop of `loadGroups`: the nodes of one group, in whatever order the map yields them. */
  method AssignMembers(members: set<AccountNode>, n: LeafNode, ghost N: set<AccountNode>)
    requires members <= N && forall x | x in N :: x.groups.Some?
    modifies N`groups
    ensures forall x | x in N ::
              x.groups == if x in members then Some(old(x.groups.value) + [n]) else old(x.groups)
  {
    var rest := members;
    while rest != {}
      invariant rest <= members
      invariant forall x | x in N ::
                  x.groups == if x in members && x !in rest then Some(old(x.groups.value) + [n]) else old(x.groups)
      decreases rest
    {
      var kn :| kn in rest;
      kn.groups := Some(kn.groups.value + [n]);
      rest := rest - {kn};
    }
  }

  /** The neighbours among the first `j` that list node `x` as a member, in their order. */
  function LinkedTo(neighbors: seq<LeafNode>, gids: seq<int>, nids: map<int, set<AccountNode>>, x: AccountNode, j: nat): seq<LeafNode>
    requires j <= |neighbors| == |gids|
  {
    if j == 0 then []
    else
      var before := LinkedTo(neighbors, gids, nids, x, j - 1);
      if gids[j - 1] in nids && x in nids[gids[j - 1]] then before + [neighbors[j - 1]] else before
  }

  /**
   The last loop of `loadGroups`.  The result does not mention the order in which the members of a
   group are visited: every order gives it.
   */
  method ScatterGroups(neighbors: seq<LeafNode>, nids: map<int, set<AccountNode>>, ghost N: set<AccountNode>)
      returns (err: Option<QueryError>)
    requires forall g | g in nids :: nids[g] <= N
    requires forall x | x in N :: x.groups == Some([])
    modifies N`groups
    ensures err.None? <==> forall j | 0 <= j < |neighbors| :: neighbors[j].fields.id in nids
    ensures err.None? ==> forall x | x in N ::
              x.groups == Some(LinkedTo(neighbors, LeafIds(neighbors), nids, x, |neighbors|))
  {
    ghost var gids := LeafIds(neighbors);
    for j := 0 to |neighbors|
      invariant forall k | 0 <= k < j :: neighbors[k].fields.id in nids
      invariant forall x | x in N :: x.groups == Some(LinkedTo(neighbors, gids, nids, x, j))
    {
      var n := neighbors[j];
      if n.fields.id !in nids {
        return Some(UnexpectedNode(n.fields.id));
      }
      AssignMembers(nids[n.fields.id], n, N);
    }
    return None;
  }

  method InitGroups(nodes: seq<AccountNode>, ghost N: set<AccountNode>)
    requires Within(nodes, N) && Covers(nodes, N)
    modifies N`groups
    ensures forall x | x in N :: x.groups == Some([])
  {
    for i := 0 to |nodes|
      invariant forall k | 0 <= k < i :: nodes[k].groups == Some([])
    {
      nodes[i].groups := Some([]);
    }
  }

  /** A node's list shows the groups of its own account, picked from the batch in batch order. */
  lemma {:induction false} LinkedShows(neighbors: seq<LeafNode>, gids: seq<int>, nids: map<int, set<AccountNode>>,
                                       x: AccountNode, rows: seq<LeafRow>, columns: seq<string>,
                                       keep: LeafRow -> bool, S: set<object>, j: nat)
    requires j <= |neighbors| == |gids| == |rows|
    requires ShowsLeaves(Some(neighbors), DecodeLeaves(rows, columns), S)
    requires forall i | 0 <= i < |rows| :: keep(rows[i]) <==> gids[i] in nids && x in nids[gids[i]]
    ensures ShowsLeaves(Some(LinkedTo(neighbors, gids, nids, x, j)), DecodeLeaves(Filter(rows[..j], keep), columns), S)
  {
    if j > 0 {
      LinkedShows(neighbors, gids, nids, x, rows, columns, keep, S, j - 1);
      assert rows[..j][..j - 1] == rows[..j - 1];
    }
  }
}
