/** Whole uses of query builders: running one many times, and going separate ways after a clone. */
module BuilderRuns {
  import opened Wrappers
  import opened Rows
  import opened AccountCodec
  import opened QueryPlans
  import opened Entities
  import opened Scattering
  import opened Batches
  import opened RepeatedRuns
  import opened EagerLoading

  /** What a narrowed plan answers is what the first plan answers. */
  lemma SameBatch(db: Database, p: AccountPlan, q: AccountPlan, rows: seq<Account>, nodes: seq<AccountNode>, S: set<object>)
    requires ForeignKeysOnly(p) && Reruns(db, p, q, rows) && ShowsBatch(db, q, rows, nodes, S)
    ensures ShowsBatch(db, p, rows, nodes, S)
  {
    forall i | 0 <= i < |rows| ensures Shows(nodes[i], JoinAccount(db, p, p.ctx.fields, rows[i]), S) {
      assert JoinAccount(db, q, p.ctx.fields, rows[i]) == JoinAccount(db, p, p.ctx.fields, rows[i]);
    }
  }

  /** A graph stays what it is in a larger set of objects. */
  lemma BatchInLarger(db: Database, p: AccountPlan, rows: seq<Account>, nodes: seq<AccountNode>, S: set<object>, L: set<object>)
    requires ShowsBatch(db, p, rows, nodes, S) && S <= L
    ensures ShowsBatch(db, p, rows, nodes, L)
  {
    forall i | 0 <= i < |rows| ensures Shows(nodes[i], JoinAccount(db, p, p.ctx.fields, rows[i]), L) {
      ShowsInLarger(nodes[i], JoinAccount(db, p, p.ctx.fields, rows[i]), S, L);
    }
  }

  lemma BatchesInLarger(db: Database, p: AccountPlan, rows: seq<Account>, results: seq<seq<AccountNode>>, S: set<object>, L: set<object>)
    requires S <= L && forall i | 0 <= i < |results| :: ShowsBatch(db, p, rows, results[i], S)
    ensures forall i | 0 <= i < |results| :: ShowsBatch(db, p, rows, results[i], L)
  {
    hide ShowsBatch;
    forall i | 0 <= i < |results| ensures ShowsBatch(db, p, rows, results[i], L) {
      BatchInLarger(db, p, rows, results[i], S, L);
    }
  }

  /** A narrowed plan can be run again and selects the same rows. */
  lemma RerunRunnable(db: Database, p: AccountPlan, q: AccountPlan, rows: seq<Account>)
    requires Reruns(db, p, q, rows) && ForeignKeysOnly(p) && PlanFieldsValid(p)
    ensures EdgesLoadable(q) && ForeignKeysOnly(q) && PlanFieldsValid(q) && AccountRows(db, q) == AccountRows(db, p)
  {
  }

  /** One more run of a builder that has been run before. */
  method RunAgain(q: AccountQuery, db: Database, ghost p: AccountPlan) returns (nodes: seq<AccountNode>, ghost T: set<object>)
    requires q.Valid() && ValidDatabase(db) && ForeignKeysOnly(p) && PlanFieldsValid(p)
    requires Reruns(db, p, q.Denote(), AccountRows(db, p))
    modifies q.Repr()
    ensures q.Valid() && q.Repr() == old(q.Repr()) && fresh(T)
    ensures ShowsBatch(db, p, AccountRows(db, p), nodes, T)
    ensures Reruns(db, p, q.Denote(), AccountRows(db, p))
  {
    hide EdgesLoadable, PlanFieldsValid, ForeignKeysOnly, ShowsBatch, ValidDatabase, Reruns, AccountRows;
    hide AccountQuery.EdgesValid, AccountQuery.Edges, AccountQuery.Denote;
    ghost var before, rows := q.Denote(), AccountRows(db, p);
    RerunRunnable(db, p, before, rows);
    var err;
    err, nodes, T := q.All(db);
    SameBatch(db, p, before, rows, nodes, T);
    RerunsCompose(db, p, before, q.Denote(), rows);
  }

  /**
   Running a builder `k` times on one database.  Every run adds its filters and foreign keys to the
   builders below, and yet every run gives what the builder said before the first.
   */
  method RunTimes(q: AccountQuery, db: Database, k: nat) returns (results: seq<seq<AccountNode>>, ghost S: set<object>)
    requires q.Valid() && ValidDatabase(db) && EdgesLoadable(q.Denote())
    requires ForeignKeysOnly(q.Denote()) && PlanFieldsValid(q.Denote())
    modifies q.Repr()
    ensures q.Valid() && fresh(S) && |results| == k
    ensures forall i | 0 <= i < k :: ShowsBatch(db, old(q.Denote()), AccountRows(db, old(q.Denote())), results[i], S)
  {
    hide EdgesLoadable, PlanFieldsValid, ForeignKeysOnly, ShowsBatch, ValidDatabase, Reruns, AccountRows;
    hide AccountQuery.EdgesValid, AccountQuery.Edges, AccountQuery.Denote;
    ghost var p, rows := q.Denote(), AccountRows(db, q.Denote());
    RerunsSelf(db, p, rows);
    results, S := [], {};
    for n := 0 to k
      invariant q.Valid() && q.Repr() == old(q.Repr()) && fresh(S) && |results| == n
      invariant Reruns(db, p, q.Denote(), rows)
      invariant forall i | 0 <= i < n :: ShowsBatch(db, p, rows, results[i], S)
    {
      var nodes;
      ghost var T;
      nodes, T := RunAgain(q, db, p);
      BatchesInLarger(db, p, rows, results, S, S + T);
      BatchInLarger(db, p, rows, nodes, T, S + T);
      results, S := results + [nodes], S + T;
    }
  }

  /** Adds a filter and runs. */
  method FilterAndRun(q: AccountQuery, db: Database, filter: Account -> bool)
      returns (nodes: seq<AccountNode>, ghost S: set<object>)
    requires q.Valid() && ValidDatabase(db) && EdgesLoadable(q.Denote()) && PlanFieldsValid(q.Denote())
    modifies q.Repr()
    ensures fresh(S)
    ensures var p := old(q.Denote()).(filters := old(q.predicates) + [filter] + old(q.inters));
            ShowsBatch(db, p, AccountRows(db, p), nodes, S)
  {
    hide ShowsBatch, Reruns, ValidDatabase, EdgesLoadable, PlanFieldsValid, AccountRows;
    StillRunnable(q.Denote(), q.predicates + [filter] + q.inters, None);
    var err;
    q.Where(filter);
    err, nodes, S := q.All(db);
  }

  /** Adds an edge and runs. */
  method AddChildrenAndRun(q: AccountQuery, db: Database, children: AccountQuery)
      returns (nodes: seq<AccountNode>, ghost S: set<object>)
    requires q.Valid() && children.Valid() && q.Repr() !! children.Repr() && ValidDatabase(db)
    requires EdgesLoadable(q.Denote()) && PlanFieldsValid(q.Denote())
    requires AccountLoadable(Some(children.Denote())) && PlanFieldsValid(children.Denote())
    modifies q.Repr(), children.Repr()
    ensures fresh(S)
    ensures var p := old(q.Denote()).(children := Some(old(children.Denote())));
            ShowsBatch(db, p, AccountRows(db, p), nodes, S)
  {
    hide ShowsBatch, Reruns, ValidDatabase, EdgesLoadable, PlanFieldsValid, AccountLoadable, AccountRows;
    StillRunnable(q.Denote(), q.Denote().filters, Some(children.Denote()));
    var err;
    q.WithChildren(children);
    err, nodes, S := q.All(db);
  }

  /** A builder none of whose objects changed says what it said. */
  twostate lemma Untouched(b: AccountQuery)
    requires old(b.Valid()) && unchanged(old(b.Repr()))
    ensures b.Valid() && b.Repr() == old(b.Repr()) && b.Denote() == old(b.Denote())
  {
  }

  /** Builders that share no object do not notice each other's changes and runs. */
  method RunApart(q: AccountQuery, c: AccountQuery, db: Database, filter: Account -> bool, children: AccountQuery)
      returns (first: seq<AccountNode>, second: seq<AccountNode>, ghost S: set<object>, ghost T: set<object>)
    requires q.Valid() && c.Valid() && children.Valid() && ValidDatabase(db)
    requires q.Repr() !! c.Repr() && q.Repr() !! children.Repr() && c.Repr() !! children.Repr()
    requires EdgesLoadable(q.Denote()) && PlanFieldsValid(q.Denote())
    requires EdgesLoadable(c.Denote()) && PlanFieldsValid(c.Denote())
    requires AccountLoadable(Some(children.Denote())) && PlanFieldsValid(children.Denote())
    modifies q.Repr(), c.Repr(), children.Repr()
    ensures fresh(S) && fresh(T)
    ensures var p := old(q.Denote()).(filters := old(q.predicates) + [filter] + old(q.inters));
            ShowsBatch(db, p, AccountRows(db, p), first, S)
    ensures var p := old(c.Denote()).(children := Some(old(children.Denote())));
            ShowsBatch(db, p, AccountRows(db, p), second, T)
  {
    hide ShowsBatch, Reruns, ValidDatabase, EdgesLoadable, PlanFieldsValid, AccountLoadable, AccountRows;
    hide AccountQuery.EdgesValid, AccountQuery.Edges, AccountQuery.Denote;
    first, S := FilterAndRun(q, db, filter);
    Untouched(c);
    Untouched(children);
    second, T := AddChildrenAndRun(c, db, children);
  }

  /** A clone shares no object with its original or with any other builder, and neither changes. */
  method CloneBeside(q: AccountQuery, other: AccountQuery) returns (c: AccountQuery)
    requires q.Valid() && other.Valid()
    ensures c.Valid() && fresh(c.Repr()) && c.Denote() == old(q.Denote())
    ensures q.Valid() && q.Repr() == old(q.Repr()) && q.Denote() == old(q.Denote()) && q.Repr() !! c.Repr()
    ensures other.Valid() && other.Repr() == old(other.Repr()) && other.Denote() == old(other.Denote()) && c.Repr() !! other.Repr()
  {
    hide AccountQuery.EdgesValid, AccountQuery.Edges, AccountQuery.Denote;
    c := q.Clone();
    Untouched(q);
    Untouched(other);
  }

  /**
   A clone and its original go separate ways: whatever is done to one of them, including a run,
   the other still says and answers what it did when the clone was made.
   */
  method CloneAndDiverge(q: AccountQuery, db: Database, filter: Account -> bool, children: AccountQuery)
      returns (original: seq<AccountNode>, cloned: seq<AccountNode>, ghost S: set<object>, ghost T: set<object>)
    requires q.Valid() && children.Valid() && q.Repr() !! children.Repr() && ValidDatabase(db)
    requires EdgesLoadable(q.Denote()) && PlanFieldsValid(q.Denote())
    requires AccountLoadable(Some(children.Denote())) && PlanFieldsValid(children.Denote())
    modifies q.Repr(), children.Repr()
    ensures fresh(S) && fresh(T)
    ensures var p := old(q.Denote()).(filters := old(q.predicates) + [filter] + old(q.inters));
            ShowsBatch(db, p, AccountRows(db, p), original, S)
    ensures var p := old(q.Denote()).(children := Some(old(children.Denote())));
            ShowsBatch(db, p, AccountRows(db, p), cloned, T)
  {
    hide ShowsBatch, Reruns, ValidDatabase, EdgesLoadable, PlanFieldsValid, AccountLoadable, AccountRows;
    hide AccountQuery.EdgesValid, AccountQuery.Edges, AccountQuery.Denote;
    var c := CloneBeside(q, children);
    original, cloned, S, T := RunApart(q, c, db, filter, children);
  }

  /** Another filter or another edge leaves a plan that can be run. */
  lemma StillRunnable(p: AccountPlan, filters: seq<Account -> bool>, children: Option<AccountPlan>)
    requires EdgesLoadable(p) && PlanFieldsValid(p) && AccountLoadable(children) && AccountOptionValid(children)
    ensures EdgesLoadable(p.(filters := filters)) && PlanFieldsValid(p.(filters := filters))
    ensures EdgesLoadable(p.(children := children)) && PlanFieldsValid(p.(children := children))
  {
  }
}
