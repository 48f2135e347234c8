/**
 The entities that queries return, as objects with edge fields that the loaders fill in place, and
 the relation between such an object graph and the tree of values it stands for.

 One object may be shared: two accounts with the same parent point to the same parent object.
 `S` is the set of objects a graph is made of.
 */
module Entities {
  import opened Wrappers
  import opened AccountCodec
  import opened QueryPlans

  class LeafNode {
    var fields: LeafRow

    constructor (fields: LeafRow)
      ensures this.fields == fields
    {
      this.fields := fields;
    }
  }

  datatype EdgeError = NotLoaded | NotFound

  datatype Edge<+T> = Loaded(value: T) | Failed(error: EdgeError)

  class AccountNode {
    var fields: Account
    // The edges; a nil slice is `None`.
    var groups: Option<seq<LeafNode>>
    var proxy: LeafNode?
    var parent: AccountNode?
    var children: Option<seq<AccountNode>>
    var usageLogs: Option<seq<LeafNode>>
    var accountGroups: Option<seq<AccountGroupNode>>
    /** Which edges were requested: groups, proxy, parent, children, usage logs, account groups. */
    var loadedTypes: seq<bool>

    constructor (loadedTypes: seq<bool>)
      requires |loadedTypes| == 6
      ensures fields == ZERO_ACCOUNT && this.loadedTypes == loadedTypes
      ensures groups == None && proxy == null && parent == null && children == None
      ensures usageLogs == None && accountGroups == None
    {
      fields, this.loadedTypes := ZERO_ACCOUNT, loadedTypes;
      groups, proxy, parent, children, usageLogs, accountGroups := None, null, null, None, None, None;
    }

    /** `assignValues`: copies scanned values into the fields, column by column. */
    method AssignValues(columns: seq<Column>, values: seq<Holder>) returns (error: Option<CodecError>)
      modifies this`fields
      ensures |values| < |columns| ==>
                error == Some(MismatchedLength(|values|, |columns|)) && fields == old(fields)
      ensures |values| >= |columns| ==> AssignResult(fields, error) == AssignAll(old(fields), columns, values)
    {
      if |values| < |columns| {
        return Some(MismatchedLength(|values|, |columns|));
      }
      error := None;
      for i := 0 to |columns|
        invariant error == None
        invariant AssignResult(fields, error) == AssignAll(old(fields), columns[..i], values[..i])
      {
        assert columns[..i + 1][..i] == columns[..i] && values[..i + 1][..i] == values[..i];
        var r := AssignOne(fields, columns[i], values[i]);
        fields := r.account;
        if r.error.Some? {
          AssignAllStops(old(fields), columns, values, i + 1);
          return r.error;
        }
      }
      assert columns[..|columns|] == columns;
      AssignAllUses(old(fields), columns, values);
    }

    function ProxyOrErr(): (r: Edge<LeafNode>)
      reads this
      requires |loadedTypes| == 6
    {
      if proxy != null then Loaded(proxy) else if loadedTypes[1] then Failed(NotFound) else Failed(NotLoaded)
    }

    function ParentOrErr(): (r: Edge<AccountNode>)
      reads this
      requires |loadedTypes| == 6
    {
      if parent != null then Loaded(parent) else if loadedTypes[2] then Failed(NotFound) else Failed(NotLoaded)
    }

    function GroupsOrErr(): (r: Edge<Option<seq<LeafNode>>>)
      reads this
      requires |loadedTypes| == 6
    {
      if loadedTypes[0] then Loaded(groups) else Failed(NotLoaded)
    }

    function ChildrenOrErr(): (r: Edge<Option<seq<AccountNode>>>)
      reads this
      requires |loadedTypes| == 6
    {
      if loadedTypes[3] then Loaded(children) else Failed(NotLoaded)
    }

    function UsageLogsOrErr(): (r: Edge<Option<seq<LeafNode>>>)
      reads this
      requires |loadedTypes| == 6
    {
      if loadedTypes[4] then Loaded(usageLogs) else Failed(NotLoaded)
    }

    function AccountGroupsOrErr(): (r: Edge<Option<seq<AccountGroupNode>>>)
      reads this
      requires |loadedTypes| == 6
    {
      if loadedTypes[5] then Loaded(accountGroups) else Failed(NotLoaded)
    }
  }

  class AccountGroupNode {
    var fields: AccountGroup
    var account: AccountNode?
    var group: LeafNode?
    /** Which edges were requested: account, group. */
    var loadedTypes: seq<bool>

    constructor (fields: AccountGroup, loadedTypes: seq<bool>)
      ensures this.fields == fields && this.loadedTypes == loadedTypes && account == null && group == null
    {
      this.fields, this.loadedTypes, account, group := fields, loadedTypes, null, null;
    }
  }

  /** An error in a prefix of the columns is the error of the whole list. */
  lemma {:induction false} AssignAllStops(a: Account, columns: seq<Column>, values: seq<Holder>, i: nat)
    requires i <= |columns| <= |values|
    requires AssignAll(a, columns[..i], values[..i]).error.Some?
    ensures AssignAll(a, columns, values) == AssignAll(a, columns[..i], values[..i])
    decreases |columns|
  {
    if i == |columns| {
      assert columns[..i] == columns;
      AssignAllUses(a, columns, values);
    } else {
      var n := |columns| - 1;
      assert columns[..n][..i] == columns[..i] && values[..n][..i] == values[..i];
      AssignAllStops(a, columns[..n], values[..n], i);
    }
  }

  /** Values beyond the last column are ignored. */
  lemma AssignAllUses(a: Account, columns: seq<Column>, values: seq<Holder>)
    requires |columns| <= |values|
    ensures AssignAll(a, columns, values) == AssignAll(a, columns, values[..|columns|])
  {
    if columns != [] {
      var n := |columns| - 1;
      assert values[..|columns|][..n] == values[..n];
    }
  }

  // ------------------------------------------------- object graphs and trees

  ghost predicate ShowsLeaf(n: LeafNode?, t: Option<LeafRow>, S: set<object>)
    reads S
  {
    match t
    case None => n == null
    case Some(r) => n != null && n in S && n.fields == r
  }

  ghost predicate ShowsLeaves(ns: Option<seq<LeafNode>>, ts: seq<LeafRow>, S: set<object>)
    reads S
  {
    && ns.Some? && |ns.value| == |ts|
    && forall i | 0 <= i < |ts| :: ns.value[i] in S && ns.value[i].fields == ts[i]
  }

  /** The graph below `n` is the tree `t`: same fields, same edges, and each edge marked as requested or not. */
  ghost predicate Shows(n: AccountNode, t: AccountTree, S: set<object>)
    reads S
    decreases t
  {
    && n in S
    && IsProjection(n.fields, t.row, t.columns)
    && n.loadedTypes == [t.groups.Some?, t.proxy.Some?, t.parent.Some?, t.children.Children?, t.usageLogs.Some?, t.accountGroups.Joins?]
    && (if t.groups.None? then n.groups == None else ShowsLeaves(n.groups, t.groups.value, S))
    && (if t.proxy.None? then n.proxy == null else ShowsLeaf(n.proxy, t.proxy.value, S))
    && (match t.parent
        case None => n.parent == null
        case Some(None) => n.parent == null
        case Some(Some(p)) => n.parent != null && Shows(n.parent, p, S))
    && (match t.children
        case NoChildren => n.children == None
        case Children(cs) =>
          && n.children.Some? && |n.children.value| == |cs|
          && forall i | 0 <= i < |cs| :: Shows(n.children.value[i], cs[i], S))
    && (if t.usageLogs.None? then n.usageLogs == None else ShowsLeaves(n.usageLogs, t.usageLogs.value, S))
    && (match t.accountGroups
        case NoJoins => n.accountGroups == None
        case Joins(gs) =>
          && n.accountGroups.Some? && |n.accountGroups.value| == |gs|
          && forall i | 0 <= i < |gs| :: ShowsJoin(n.accountGroups.value[i], gs[i], S))
  }

  ghost predicate ShowsJoin(n: AccountGroupNode, t: AccountGroupTree, S: set<object>)
    reads S
    decreases t
  {
    && n in S
    && n.fields == t.fields
    && n.loadedTypes == [t.account.Some?, t.group.Some?]
    && (match t.account
        case None => n.account == null
        case Some(None) => n.account == null
        case Some(Some(a)) => n.account != null && Shows(n.account, a, S))
    && (if t.group.None? then n.group == null else ShowsLeaf(n.group, t.group.value, S))
  }

  ghost predicate ShowsOption(n: AccountNode?, t: Option<AccountTree>, S: set<object>)
    reads S
  {
    match t
    case None => n == null
    case Some(a) => n != null && Shows(n, a, S)
  }

  ghost predicate ShowsAll(ns: Option<seq<AccountNode>>, ts: seq<AccountTree>, S: set<object>)
    reads S
  {
    && ns.Some? && |ns.value| == |ts|
    && forall i | 0 <= i < |ts| :: Shows(ns.value[i], ts[i], S)
  }

  ghost predicate ShowsJoins(ns: Option<seq<AccountGroupNode>>, ts: seq<AccountGroupTree>, S: set<object>)
    reads S
  {
    && ns.Some? && |ns.value| == |ts|
    && forall i | 0 <= i < |ts| :: ShowsJoin(ns.value[i], ts[i], S)
  }

  /** A graph may be looked at inside a larger set of objects. */
  lemma {:induction false} ShowsInLarger(n: AccountNode, t: AccountTree, S: set<object>, L: set<object>)
    requires Shows(n, t, S) && S <= L
    ensures Shows(n, t, L)
    decreases t
  {
    match t.parent {
      case Some(Some(p)) => ShowsInLarger(n.parent, p, S, L);
      case _ =>
    }
    match t.children {
      case Children(cs) =>
        forall i | 0 <= i < |cs| ensures Shows(n.children.value[i], cs[i], L) {
          ShowsInLarger(n.children.value[i], cs[i], S, L);
        }
      case NoChildren =>
    }
    match t.accountGroups {
      case Joins(gs) =>
        forall i | 0 <= i < |gs| ensures ShowsJoin(n.accountGroups.value[i], gs[i], L) {
          ShowsJoinInLarger(n.accountGroups.value[i], gs[i], S, L);
        }
      case NoJoins =>
    }
  }

  lemma {:induction false} ShowsJoinInLarger(n: AccountGroupNode, t: AccountGroupTree, S: set<object>, L: set<object>)
    requires ShowsJoin(n, t, S) && S <= L
    ensures ShowsJoin(n, t, L)
    decreases t
  {
    match t.account {
      case Some(Some(a)) => ShowsInLarger(n.account, a, S, L);
      case _ =>
    }
  }

  /** What the accessors report about a loaded graph: the value, a missing one, or an edge never asked for. */
  lemma AccessorsReport(n: AccountNode, t: AccountTree, S: set<object>)
    requires Shows(n, t, S)
    ensures n.ParentOrErr().Loaded? <==> t.parent.Some? && t.parent.value.Some?
    ensures n.ParentOrErr() == Failed(NotFound) <==> t.parent == Some(None)
    ensures n.ParentOrErr() == Failed(NotLoaded) <==> t.parent == None
    ensures n.ParentOrErr().Loaded? ==> Shows(n.ParentOrErr().value, t.parent.value.value, S)
    ensures n.ProxyOrErr().Loaded? <==> t.proxy.Some? && t.proxy.value.Some?
    ensures n.ProxyOrErr() == Failed(NotFound) <==> t.proxy == Some(None)
    ensures n.ProxyOrErr() == Failed(NotLoaded) <==> t.proxy == None
    ensures n.ProxyOrErr().Loaded? ==> ShowsLeaf(n.ProxyOrErr().value, t.proxy.value, S)
    ensures n.ChildrenOrErr() == Failed(NotLoaded) <==> t.children.NoChildren?
    ensures t.children.Children? ==> n.ChildrenOrErr().Loaded? && ShowsAll(n.ChildrenOrErr().value, t.children.list, S)
    ensures n.GroupsOrErr() == Failed(NotLoaded) <==> t.groups == None
    ensures t.groups.Some? ==> n.GroupsOrErr().Loaded? && ShowsLeaves(n.GroupsOrErr().value, t.groups.value, S)
    ensures n.UsageLogsOrErr() == Failed(NotLoaded) <==> t.usageLogs == None
    ensures t.usageLogs.Some? ==> n.UsageLogsOrErr().Loaded? && ShowsLeaves(n.UsageLogsOrErr().value, t.usageLogs.value, S)
    ensures n.AccountGroupsOrErr() == Failed(NotLoaded) <==> t.accountGroups.NoJoins?
    ensures t.accountGroups.Joins? ==> n.AccountGroupsOrErr().Loaded? && ShowsJoins(n.AccountGroupsOrErr().value, t.accountGroups.list, S)
  {
  }
}
