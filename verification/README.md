# Verified model of the account query layer and of the audit gate

This project models two parts of the gateway's repository in Dafny and proves what they are for.

**The generated `ent` layer for accounts.** An account row has a proxy, a parent account, child
accounts, usage logs, and groups that it is joined to by rows of `account_groups`. The layer reads
and writes object graphs of these:

- *Row codec* (`AccountCodec`, `Entities`): one typed holder per selected column, filled by the
  driver and copied into the entity.
- *Eager loading* (`QueryPlans`, `Scattering`, `Batches`, `EagerLoading`): a builder with nested
  builders for the edges runs one query for its rows and one more query per edge for all rows at once,
  indexes the answers by key, and writes them into the objects in place. The builders, the
  contexts and the entities are classes that the methods change. The meaning of a builder is a plan
  (`AccountPlan`), and the meaning of a plan is the naive join (`JoinAccount`): for each row look up
  each edge on its own, to any depth. The theorem `AccountQuery.All` says that the batched loaders
  build exactly the naive join.
- *Meaning* (`Answers`, `Graphs`): the same once more without computing anything. An answer is the rows
  of a table that all predicates accept, ordered by the first term that tells two rows apart and by their
  place in the table if none does, cut by offset and limit; there is only one. A loaded object shows the
  chosen columns of its row, and each requested edge shows the rows that the tables put at its other end.
  `AccountQuery.All`, `First` and `Only` are tied to this meaning, too.
- *Consequences* (`JoinTheorems`, `RepeatedRuns`, `BuilderRuns`): parents and children are inverse,
  one-to-many loads partition, `Select` does not change edges, a builder can be run many times, and a
  clone and its original do not influence each other.
- *Traversal* (`Traversal`): chains of `QueryParent` and `QueryChildren`, compiled when they run. The
  source has one builder type for eager loading and for traversal. The model has two classes,
  because a path makes builders share the one behind it, whereas the builders of eager edges form a
  tree that owns its parts; a builder with both is not modelled.
- *Creation* (`AccountCreate`): defaults, checks and insert specification of one account.
- *Bulk creation* (`BulkTrace`, `BulkRuns`, `BulkTheorems`, `BulkCreate`): the chain of hooked mutators
  that creates many accounts in one batch insert. A hook sees the mutation and the outcomes of its
  calls so far; it may edit the mutation before every call, call the next mutator as often as it
  decides, and report what it likes. A run is the tree of calls that results, and its events record
  when hooks are entered and left, which checks pass, and which rows with which edges every insert
  has. `Save` is proved to do exactly such a run, and the theorems are about all runs.

**The audit gate** (`AuditParser`, `AuditReport`, `AuditVerdict`): a script that reads a list of exceptions with a
line-oriented parser, indexes them by normalised package and advisory, scans the findings of an
audit report once per key, and ends with an exit code. What a report says (`Reported`) and what an
exception covers (`Covers`) are stated on the JSON objects and the fields of the entries, and `RunAudit` is
tied to them.

`Rows` holds the vocabulary that tables are described with: filtering, stable ordering, limit and
offset, unique keys, and the positions of a key. The database is a value: four tables as sequences of
rows, the accounts, groups, proxies and usage logs with unique ids, the join rows with unique pairs of keys. The calls into
`sqlgraph` have their relational meaning: `QueryNodes` filters and orders a table, merges equal rows for
`DISTINCT`, and cuts out the window of limit and offset,
`SetNeighbors` joins the keys of one statement with a table, and `BatchCreate` inserts all rows or
none. A predicate is a function on rows, an ordering is a function from rows to numbers, and a JSON
column holds the encoding of a map, SQL NULL, or bytes that cannot be decoded.

The clock, the database's answers to inserts, and Python's `str`, `lower` for non-ASCII text and
date parsing are parameters, so every theorem holds for every choice of them. Hooks are parameters
too, as far as "Left out" does not say otherwise.

Three promises hold only under a condition, which the theorems state exactly.

- A bulk save whose hooks call on once is all or nothing if and only if no reached builder's hooks turn an
  error into success or success into an error (`AllOrNothingIff`); `SwallowedError` is the failing input.
- The order of the findings does not matter for the audit if and only if no order passes or every relevant
  finding, and not just the first of its key, is covered and agrees with its exception
  (`OrderDoesNotMatterIff`); `OneOrderPasses` is the failing input. When some order passes, and when every
  order does, is said by `SomeOrderPasses` and `EveryOrderPasses`.
- A field other than the id ends as its last non-NULL value if it is a scalar (`LastNonNullValueWins`). The
  two JSON fields are decoded into the map that is there already, so the last value wins if and only
  if it is `null`, or the field held no map before, or it has all members of that map
  (`LastJsonValueWinsIff`); `JsonValuesMerge` is the failing input.

Where the code and its comments differ, the model follows the code. `Clone` is documented as
returning a duplicate, but the lock modifiers are not copied, and the builder behind a path is shared. `IDs` selects the id on the builder it is
called on, so a second call selects two columns and fails. The exception parser raises on a list item
without a colon, although its other lines without a colon are skipped. Advisory
ids of the `vulnerabilities` part of a report come from `via` alone, so a vulnerability without a
usable `via` is not reported at all, and a numeric `source` in the place of a title raises.

## Model

| member | source | states |
|---|---|---|
| AccountCodec.ScanValues | backend/ent/account.go:168-189 | one fresh empty holder per column, of the column's type; any column list is accepted |
| AccountCodec.AssignOneWritesOneField | backend/ent/account.go:197-413 | a holder of the right type is accepted, changes the field of its own column in the way the column's type and nullability say, and changes no other field |
| AccountCodec.AssignAllFailsOnMalformedJsonOnly | backend/ent/account.go:193-417 | on typed holders `assignValues` fails exactly when a JSON holder cannot be decoded; never for a type |
| AccountCodec.AssignAllFields | backend/ent/account.go:193-417 | for every column list, repeated and unknown columns included, each field ends as the history of the holders for its column |
| AccountCodec.LastNonNullValueWins | backend/ent/account.go:203-412 | a scalar field other than the id ends as the last non-NULL value for it |
| AccountCodec.LastJsonValueWinsIff | backend/ent/account.go:249-264 | the credentials and the extra data end as their last non-NULL value if and only if that value is `null`, or the field held no map before it, or the value has every member of that map |
| AccountCodec.JsonValuesMerge | backend/ent/account.go:249-256 | the failing input: two values in two credential columns are merged |
| AccountCodec.NullsKeepTheField | backend/ent/account.go:203-412 | NULLs leave a field other than the id as it was |
| AccountCodec.LastIdHolderWins | backend/ent/account.go:197-202 | the id is decided by its last holder, and a NULL there makes it 0 |
| AccountCodec.LastUnknownHolderKept | backend/ent/account.go:413 | a column that is none of the table's ends in the selected values with its last holder |
| AccountCodec.AssignOneFails | backend/ent/account.go:197-412 | a holder is rejected exactly for a wrong type or undecodable JSON, and then the entity is left alone |
| AccountCodec.FirstErrorStops | backend/ent/account.go:196-416 | the error is that of the first rejected holder, and nothing behind it is assigned |
| AccountCodec.DecodeSucceeds | backend/ent/account_query.go:563-571 | the holders that `scanValues` makes and the driver fills are always accepted by `assignValues` |
| AccountCodec.DecodeProjects | backend/ent/account_query.go:563-571 | the entity read from a row has the row's value in every selected field and zero in every other |
| AccountCodec.ZeroCell | backend/ent/account_query.go:563-567 | a field that was not selected has the zero value of its type |
| AccountCodec.DecodeAllColumns | backend/ent/account.go:168-417 | reading all columns gives the row back, field by field |
| Entities.AccountNode.AssignValues | backend/ent/account.go:193-417 | too few values are an error and change nothing; otherwise the loop leaves the entity as the columns applied in order, and reports the first error |
| Entities.AccessorsReport | backend/ent/account.go:111-165 | on a loaded graph every accessor gives the value, `NotFound` or `NotLoaded` exactly when the edge is resolved, requested without a row, or not requested |
| EagerLoading.AccountSpecColumns | backend/ent/account_query.go:866-880 | the loop yields the id first, then the other selected fields, then the foreign keys that the edges need |
| EagerLoading.JoinSpecColumns | backend/ent/accountgroup_query.go:456-467 | the loop yields the selected fields and the foreign keys that the edges need; no id is forced |
| QueryPlans.ForcedColumns | backend/ent/account_query.go:866-880 | whatever is selected, the id, the selected fields and the foreign keys of the requested edges are among the columns |
| QueryPlans.NoOtherColumns | backend/ent/account_query.go:866-880 | a selection gains no column besides the id and the foreign keys of the requested edges |
| QueryPlans.SelectedLoadFilter | backend/ent/account_query.go:704-705 | adding a loader's filter before a run, with traversers that add theirs again, selects the rows of the old selection that pass it, in the same order |
| QueryPlans.LookupInBatch | backend/ent/account_query.go:736-749 | looking up a key in a batch that was fetched for a set of keys is looking it up in the table |
| QueryPlans.FirstRowsOfJoin | backend/ent/account_query.go:638-646 | the joined query yields each group with a member among the accounts, once, in the groups' order |
| QueryPlans.GroupsOfOneAccount | backend/ent/account_query.go:638-646 | restricting the join to a batch of accounts loses no group of an account in the batch |
| Rows.MergeKeepsOne | backend/ent/accountgroup_query.go:451-455 | what `DISTINCT` leaves shows everything that some row shows, and shows it once |
| QueryPlans.WholeRows | backend/ent/accountgroup_query.go:451-467 | on a selection that shows the composite key `DISTINCT` merges no join rows, so that an edge without limit and offset gets every selected row |
| Answers.FilterOrderInOrder | backend/ent/account_query.go:882-900 | filtering and ordering give the wanted rows, each once: the first order term that tells two rows apart decides, and rows that no term tells apart keep table order |
| Answers.SelectedAnswers | backend/ent/account_query.go:882-900 | the rows of a query are the answer to its predicates, order, offset and limit |
| Answers.OneAnswer | backend/ent/account_query.go:882-900 | predicates, order, offset and limit determine the answer |
| Graphs.TreeMeans | backend/ent/account_query.go:550-626 | an object graph of the naive join means what the plan says on the tables, at every depth: every field of every account, every column of every proxy, group and usage log, the four fields of every join row, and the rows of every edge in order |
| Graphs.BatchMeans | backend/ent/account_query.go:550-626 | the same for all rows of a query |
| Graphs.JoinBatchMeans | backend/ent/accountgroup_query.go:334-377 | the same for a query for join rows, where `DISTINCT` drops exactly the rows that look like an earlier one |
| Scattering.IndexByForeignKey | backend/ent/account_query.go:689-700 | the id list is duplicate-free and is the set of non-nil keys; the index maps each key to the positions of the nodes that hold it, in order |
| Scattering.ScatterParent | backend/ent/account_query.go:741-750 | it fails exactly when a neighbour has an unindexed id; otherwise each node points to the last neighbour whose id is its key, or to none |
| Scattering.ScatterProxy | backend/ent/account_query.go:709-718 | the same for the proxy edge |
| Scattering.ScatterAccount | backend/ent/accountgroup_query.go:397-406 | the same for the account of a join row |
| Scattering.ScatterGroup | backend/ent/accountgroup_query.go:426-435 | the same for the group of a join row |
| Scattering.IndexById | backend/ent/account_query.go:753-761 | the key list is the nodes' ids, and the index keeps the last node of every id |
| Scattering.ScatterChildren | backend/ent/account_query.go:772-783 | it fails exactly when a neighbour's key is nil or names no node; otherwise each node's list is the neighbours with its id as key, in neighbour order, not nil even if empty; of several nodes with one id the last collects |
| Scattering.ScatterUsageLogs | backend/ent/account_query.go:805-813 | the same for usage logs, whose key cannot be nil |
| Scattering.ScatterAccountGroups | backend/ent/account_query.go:835-843 | the same for the join rows of an account |
| Scattering.CollectJoined | backend/ent/account_query.go:652-671 | over rows in any order the first row of a group makes the object, and the map of sets records exactly the accounts that some row joins to the group |
| Scattering.AssignMembers | backend/ent/account_query.go:682-684 | visiting the members of a group in an arbitrary order appends the group once to each member and to no other node |
| Scattering.ScatterGroups | backend/ent/account_query.go:677-686 | it fails exactly when a group has no recorded member; otherwise each node's list is the groups that record it, in neighbour order, for every order of the map |
| JoinTheorems.LoadGroupsFromRows | backend/ent/account_query.go:627-687 | the many-to-many load on join rows in any order and with repetitions: each account ends with the groups joined to it, in order of first appearance over all rows, and there is no error |
| JoinTheorems.ExactGroups | backend/ent/account_query.go:661-685 | a group is in an account's list if and only if some row joins the two, and then once |
| EagerLoading.LeafQuery.AllWithIds | backend/ent/account_query.go:704-708 | the sub-builder of a proxy or group edge, filtered by ids, runs exactly if its fields are known and then yields the rows with these ids |
| EagerLoading.LeafQuery.AllOwnedBy | backend/ent/account_query.go:795-804 | the usage-log sub-builder selects the foreign key and yields the logs of the accounts |
| EagerLoading.LeafQuery.AllJoinedTo | backend/ent/account_query.go:638-676 | the group sub-builder with the join clause: neighbours and member sets are those of the joined query |
| EagerLoading.LeafQuery.Clone | backend/ent/account_query.go:398-403 | the copy of a sub-builder says the same, is fresh with a fresh context, and drops the lock modifiers |
| EagerLoading.AccountQuery.WithParent | backend/ent/account_query.go:434-441 | the edge becomes the sub-builder, everything else the builder says is kept, and the builders stay a tree |
| EagerLoading.AccountQuery.WithChildren | backend/ent/account_query.go:445-452 | the same for children |
| EagerLoading.AccountQuery.WithAccountGroups | backend/ent/account_query.go:467-474 | the same for join rows, through which builders nest again |
| EagerLoading.AccountQuery.Clone | backend/ent/account_query.go:388-408 | cloning the builder tree terminates; the copy says the same, shares no object with the original, and has no lock modifiers |
| EagerLoading.AccountQuery.PrepareQuery | backend/ent/account_query.go:524-548 | every traverser adds its predicate, on every run again; an unknown field is an error |
| EagerLoading.AccountQuery.Nodes | backend/ent/account_query.go:559-577 | one distinct object per selected row in row order, bare, with its columns decoded and the requested edges marked |
| EagerLoading.AccountQuery.LoadGroups | backend/ent/account_query.go:627-687 | after the many-to-many load each node's list is the groups that the naive join gives its account |
| EagerLoading.AccountQuery.LoadProxy | backend/ent/account_query.go:688-719 | after the load each node shows the proxy that a lookup by its own key gives, or none |
| EagerLoading.AccountQuery.LoadParent | backend/ent/account_query.go:720-751 | after the load each node shows the parent tree that a lookup by its own key gives, with all edges below; the sub-builder answers these keys as before |
| EagerLoading.AccountQuery.LoadChildren | backend/ent/account_query.go:752-784 | after the load each node's list is the trees of the rows that hold its id as foreign key, in their order |
| EagerLoading.AccountQuery.LoadUsageLogs | backend/ent/account_query.go:785-814 | the same for usage logs |
| EagerLoading.AccountQuery.LoadAccountGroups | backend/ent/account_query.go:815-844 | the same for join rows with the edges below them |
| EagerLoading.AccountQuery.SqlAll | backend/ent/account_query.go:550-626 | for every database and every builder tree of any depth, the object graph is the naive join of each selected row, with its edges marked; what is left of the builder can be run again |
| EagerLoading.AccountQuery.All | backend/ent/account_query.go:307-314 | the same for the whole run: no error if all selected fields are known, an error if the builder's own are not; the graph means the answer to the predicates, order, offset and limit on the tables |
| EagerLoading.AccountQuery.First | backend/ent/account_query.go:208-217 | the graph of the first selected row behind the offset in the order of all terms, or `NotFound` if there is no such row; the builder keeps the limit 1 |
| EagerLoading.AccountQuery.Only | backend/ent/account_query.go:254-267 | the graph of the one selected row behind the offset, `NotFound` for none, `NotSingular` for more; the builder keeps the limit 2 |
| EagerLoading.AccountGroupQuery.Clone | backend/ent/accountgroup_query.go:220-236 | the copy says the same and shares no object, through the mutual recursion with account builders |
| EagerLoading.AccountGroupQuery.WithAccount | backend/ent/accountgroup_query.go:240-247 | the account edge becomes the sub-builder, and the builders stay a tree |
| EagerLoading.AccountGroupQuery.LoadAccount | backend/ent/accountgroup_query.go:379-407 | each join row shows the account tree that a lookup by its own key gives |
| EagerLoading.AccountGroupQuery.LoadGroup | backend/ent/accountgroup_query.go:408-436 | each join row shows the group that a lookup by its own key gives |
| EagerLoading.AccountGroupQuery.SqlAll | backend/ent/accountgroup_query.go:334-377 | for every selection, with or without `DISTINCT`, limit and offset, the object graph is the naive join of each row that the query yields |
| EagerLoading.AccountGroupQuery.All | backend/ent/accountgroup_query.go:160-167 | the same for the whole run; the graph means the answer on the tables, and `DISTINCT` drops exactly the rows that look like an earlier one |
| JoinTheorems.ParentIffChild | backend/ent/account_query.go:720-784 | parents and children are inverse: the id of node `i` occurs once among the children of node `j` if `j` is the parent of `i` by id, and never otherwise |
| JoinTheorems.GatheredPartition | backend/ent/account_query.go:772-783 | when every neighbour names a node, the lists that the nodes gather have the neighbours' total length |
| JoinTheorems.ChildrenPartition | backend/ent/account_query.go:752-784 | after the children load the lengths of the nodes' lists sum to the number of neighbours |
| JoinTheorems.FirstRowsUnique | backend/ent/account_query.go:664-669 | the groups that the de-duplication keeps have different ids, and every group of a row is among them |
| JoinTheorems.ProjectionInvariance | backend/ent/account_query.go:866-880 | for every `Select` on the builder and on every builder below it, each edge has the same ids in the same order as without any `Select` |
| RepeatedRuns.EdgesRerun | backend/ent/account_query.go:579-624 | a plan whose foreign-key edges were all narrowed by a run builds the same tree for each row of that run |
| RepeatedRuns.RerunsCompose | backend/ent/account_query.go:704-705 | two such runs in a row are again such a run |
| BuilderRuns.RunTimes | backend/ent/account_query.go:550-626 | running a builder with foreign-key edges `k` times on one database gives every time the graph that the builder stood for before the first run |
| BuilderRuns.Untouched | backend/ent/account_query.go:388-474 | whatever happens elsewhere, a builder none of whose objects changed is valid and says what it said |
| BuilderRuns.RunApart | backend/ent/account_query.go:388-474 | of two builders that share no object the first is filtered and run, and then the second gets an edge and is run: both answer for what they said at the start, plus their own change |
| BuilderRuns.CloneAndDiverge | backend/ent/account_query.go:388-408 | after a clone the original is filtered and run and the copy gets an edge and is run: both answer for what they said at the clone, plus their own change |
| Traversal.JoinedIsImage | backend/ent/account_query.go:119-160 | joining the keys of the old builder's rows with the table gives the rows at the far end of the edge |
| Traversal.AccountTraversal.QueryParent | backend/ent/account_query.go:119-138 | a new builder whose chain is the old one's followed by the parent edge |
| Traversal.AccountTraversal.QueryChildren | backend/ent/account_query.go:141-160 | the same for the children edge |
| Traversal.AccountTraversal.Clone | backend/ent/account_query.go:388-408 | the copy says the same, and the builders behind the path, and no others, belong to both |
| Traversal.AccountTraversal.CloneAndFilter | backend/ent/account_query.go:404-406 | a filter on the clone leaves the original, a filter on the builder behind the path changes what both say |
| Traversal.AccountTraversal.PrepareQuery | backend/ent/account_query.go:524-548 | it succeeds exactly if the fields of every builder along the path are known, and then the builder selects from the members of its chain |
| Traversal.AccountTraversal.All | backend/ent/account_query.go:307-314 | along chains of any length the rows are exactly the composed relational image, each once unless repetition was asked for, and then once for every key behind the path that leads to it |
| Traversal.AccountTraversal.IDs | backend/ent/account_query.go:326-335 | the ids are exactly those of the composed image, each once unless repetition was asked for; with fields already selected the call fails; the builder is left with the id selected |
| Traversal.IdsAreThoseOfAll | backend/ent/account_query.go:858-937 | `IDs` and `All` return the same duplicate-free collection of ids |
| Traversal.ParentsOfChildren | backend/ent/account_query.go:119-160 | the parents of the children of a set are exactly its members that have a child |
| Traversal.JoinedTimes | backend/ent/account_query.go:858-865 | without `DISTINCT` a row comes as often as the table has it, times the number of keys that lead to it |
| Traversal.RepeatedKeysDoNotMatter | backend/ent/account_query.go:914-916 | an inner builder without `DISTINCT` does not change which rows the outer one selects |
| AccountCreate.Defaults | backend/ent/account_create.go:527-585 | exactly the unset columns with a default are set, to that default; the caller's values are kept |
| AccountCreate.FilledMeans | backend/ent/account_create.go:527-585 | the default of every column, in figures; columns without one are as the caller left them |
| AccountCreate.FieldErrorMeans | backend/ent/account_create.go:588-662 | the error of each column: required and missing, or a text outside its bounds, or an unknown quota dimension |
| AccountCreate.Check | backend/ent/account_create.go:588-662 | no error if and only if the required columns are set, the name has 1 to 100 characters, the platform 1 to 50, the type 1 to 20, status and session window status at most 20, and the quota dimension is `global` or `spark`; otherwise the first error in the order of the checks |
| AccountCreate.WhatCheckRejects | backend/ent/account_create.go:588-662 | after the defaults a mutation is accepted if and only if the caller gave a name of 1 to 100 characters, a platform of 1 to 50, a type of 1 to 20, and, where given, a status and a session window status of at most 20 and the quota dimension `global` or `spark` |
| AccountCreate.MakeSpec | backend/ent/account_create.go:682-891 | entity and specification agree with the mutation column by column, keep the zero value elsewhere, take the first proxy and parent, and list the edges that have targets in order; the keys that the edges write are the same |
| AccountCreate.EdgesMean | backend/ent/account_create.go:804-890 | the specification has an edge exactly if it has targets; a membership is written with priority 50 and the time of the save |
| AccountCreate.CreateReadRoundTrip | backend/ent/account_create.go:682-891 | for every mutation that passes the check, the entity that `createSpec` returns equals the one read back from the row that its specification writes, where the table has defaults of its own; the id is the one that the insert assigned, and the read never fails |
| AccountCreate.CheckedRowIsComplete | backend/ent/account_create.go:588-662 | the row of a checked mutation has the mutation's value in every column that is `NOT NULL`, so no default of the table is used |
| BulkTrace.InsertInsideAllHooks | backend/ent/account_create.go:2103-2145 | in a well-nested trace every hook of every builder is open when an insert runs, in the order of the builders and of their hooks |
| BulkTrace.EnterBehindEarlierHooks | backend/ent/account_create.go:2140-2142 | in a well-nested trace exactly the hooks before it are open when a hook is entered |
| BulkTrace.HookHappens | backend/ent/account_create.go:2140-2142 | a hook that is entered and left around what may happen inside it is allowed, and leaves the open hooks as they were |
| BulkRuns.NestedWhole | backend/ent/account_create.go:2103-2150 | every run, whatever the hooks do, is well nested: `hooks[0]` of the first builder outermost, each builder's hooks inside those of the builders before it, checks and inserts inside their hooks |
| BulkRuns.RunIsChecked | backend/ent/account_create.go:2111-2123 | every run: an insert has one row per builder, each row is acceptable to the check, and a passed check of every builder comes before it |
| BulkRuns.BatchesCount | backend/ent/account_create.go:2117-2128 | every run: the database sees one batch per insert event |
| BulkTheorems.SmoothCounts | backend/ent/account_create.go:2103-2150 | on a run without errors a hook is entered as often as the product of the calls of the hooks before it, and the insert runs as often as the product of all |
| BulkTheorems.CleanInserts | backend/ent/account_create.go:2103-2150 | if no check and no insert fails, the insert runs as often as the product of the calls of all hooks, and an error is reported only if that product is zero |
| BulkTheorems.BlockedIsZero | backend/ent/account_create.go:2140-2142 | the product is zero as soon as one hook makes no call |
| BulkTheorems.ThroughIsOne | backend/ent/account_create.go:2140-2142 | the product is one if every hook calls once |
| BulkTheorems.SameRun | backend/ent/account_create.go:2103-2150 | the hooks, the database and the state at the start determine the run, so every theorem about runs is about the one that `Save` makes |
| BulkTheorems.InsideOnce | backend/ent/account_create.go:2106-2142 | with hooks that call once the mutator of a builder runs with the mutation as its hooks edited it, and its outcome goes out through the hooks |
| BulkTheorems.AllOrNothingIff | backend/ent/account_create.go:2129-2151 | with hooks that call once, success means that all builders are done and an error that none is, if and only if no reached builder's hooks turn an error into success or success into an error |
| BulkTheorems.PassingOnKeepsOutcomes | backend/ent/account_create.go:2129-2151 | hooks that report an error exactly if their call did meet that condition in every state |
| BulkTheorems.ReportsFailures | backend/ent/account_create.go:2106-2142 | with hooks that report an error exactly if their call did, an error is returned if and only if a check or the insert failed |
| BulkTheorems.AllOrNothing | backend/ent/account_create.go:2103-2151 | with such hooks either no check and no insert failed, there was one insert and every builder is done, or something failed, an error is returned and no builder is done |
| BulkTheorems.SwallowedError | backend/ent/account_create.go:2129-2151 | the failing input: a hook hides the failed check of the second builder, the first builder is done, no error is returned, and nothing is inserted |
| BulkTheorems.SwallowedRun | backend/ent/account_create.go:2103-2150 | that run, step by step: the first check passes, the hook calls on, the second check fails, the hook reports nothing |
| BulkTheorems.OnceRows | backend/ent/account_create.go:2116-2123 | with hooks that call once an insert has the final values and edges of all mutations, in builder order |
| BulkTheorems.OnceInserts | backend/ent/account_create.go:2117-2139 | with hooks that call once the insert runs at most once, and the last builder is done exactly if it succeeds |
| BulkCreate.AccountCreateBulk.BatchCreate | backend/ent/account_create.go:2120-2128 | one event with the values and edges of every specification in builder order; on success every specification has the id that the database assigned |
| BulkCreate.AccountCreateBulk.Mutate | backend/ent/account_create.go:2106-2143 | from any position of the chain the code does a run of the chain: mutations, batches, events and outcome are those of the run, exactly the builders that the run finishes become done, and earlier builders are untouched; with hooks that call once the finished builders are saved with their entities and ids |
| BulkCreate.AccountCreateBulk.RunHook | backend/ent/account_create.go:2140-2142 | the same for a hook that edits, calls on and reports as it decides |
| BulkCreate.AccountCreateBulk.CallNext | backend/ent/account_create.go:2140-2142 | the calls of one hook follow its decisions, call by call |
| BulkCreate.AccountCreateBulk.MutateInner | backend/ent/account_create.go:2106-2139 | the same for the mutator itself: check, prepare, run on, take the id |
| BulkCreate.AccountCreateBulk.TakeId | backend/ent/account_create.go:2132-2138 | the mutation is done, its node is the prepared entity with the id of the row, and saved builders behind it stay saved |
| BulkCreate.AccountCreateBulk.Save | backend/ent/account_create.go:2095-2152 | the defaults, then a run of the whole chain, well nested and with checked rows only; with hooks that call once all mutations are done or none is exactly under the condition on the hooks, and if all are, there was one insert of all final mutations in builder order and the entities show values, keys and ids |
| AuditParser.SplitField | tools/check_pnpm_audit_exceptions.py:12-20 | a written field splits into its key and value, whatever its quotes, its blanks and the value contain |
| AuditParser.ParseExceptions | tools/check_pnpm_audit_exceptions.py:23-48 | the loop with `current` and `exceptions` is the fold of the line step over the lines |
| AuditParser.FailsOnBadItem | tools/check_pnpm_audit_exceptions.py:38-41 | parsing raises if and only if some line is a list item with content but without a colon |
| AuditParser.ParseConcat | tools/check_pnpm_audit_exceptions.py:28-48 | parsing distributes over concatenation when the second part starts with a list item |
| AuditParser.RoundTrip | tools/check_pnpm_audit_exceptions.py:12-48 | parsing lines with plain, single-quoted and double-quoted values, mixed, and with blank lines, comments and headers in between, gives the entries of the pairs that are written |
| AuditParser.EntryOfMeans | tools/check_pnpm_audit_exceptions.py:44-46 | an entry has the written keys, each with its last value |
| AuditParser.SpacesAre | tools/check_pnpm_audit_exceptions.py:15-29 | the 29 characters that count as space |
| AuditParser.StripSplits | tools/check_pnpm_audit_exceptions.py:15-29 | every text is what stripping leaves, with space around |
| AuditParser.StripSurrounded | tools/check_pnpm_audit_exceptions.py:15-29 | stripping removes the space on both sides of a trimmed text and nothing else |
| AuditParser.TextRoundTrip | tools/check_pnpm_audit_exceptions.py:27-48 | the same through the text of the file, for lines without line breaks in them |
| AuditReport.IterVulns | tools/check_pnpm_audit_exceptions.py:64-111 | the loops over both report shapes yield the findings of the report, or raise where a title list cannot be joined |
| AuditReport.AdvisoriesOneEach | tools/check_pnpm_audit_exceptions.py:66-78 | every advisory of the report is exactly one finding, in the report's order |
| AuditReport.PickMeans | tools/check_pnpm_audit_exceptions.py:51-62 | each alternative is the id of an advisory if and only if it is truthy and all before it are falsy; it raises exactly if the CVEs are reached and have no first element |
| AuditReport.KnownByGhsa | tools/check_pnpm_audit_exceptions.py:51-62 | an advisory with a GHSA id is known by it and by nothing else |
| AuditReport.ItemMeans | tools/check_pnpm_audit_exceptions.py:89-109 | an item of `via` stands for the first of its five ids that is truthy, or for itself if it is a text |
| AuditReport.FindingsMean | tools/check_pnpm_audit_exceptions.py:64-111 | the findings are exactly what the report's objects say, for both shapes |
| AuditReport.FindingsRaise | tools/check_pnpm_audit_exceptions.py:64-111 | reading fails exactly if the report or a member of the two parts is no object, an advisory's CVEs are needed and have no first element, or a title in `via` is truthy and no text |
| AuditReport.VulnerabilitiesReported | tools/check_pnpm_audit_exceptions.py:80-111 | a package is reported with an advisory id if and only if its `via` yields that id and the id is usable; a package whose `via` yields none is not reported |
| AuditReport.VulnerabilitiesRead | tools/check_pnpm_audit_exceptions.py:80-111 | the `vulnerabilities` part can be read if and only if every member is an object and every title that its `via` yields is a string |
| AuditReport.NumericTitleRaises | tools/check_pnpm_audit_exceptions.py:97-109 | a numeric `source` that serves as title makes the report unreadable |
| AuditVerdict.BuildIndex | tools/check_pnpm_audit_exceptions.py:156-185 | the index answers every key like a linear scan for the first usable entry, and there is no error if and only if all entries are complete, dated and unique by key |
| AuditVerdict.ScanFinds | tools/check_pnpm_audit_exceptions.py:156-185 | the linear scan finds something exactly if a usable entry has the key, and then one of these |
| AuditVerdict.ScanTakesFirst | tools/check_pnpm_audit_exceptions.py:175-185 | of several usable entries with one key the first is kept |
| AuditVerdict.ScanFindings | tools/check_pnpm_audit_exceptions.py:192-219 | the de-duplicating scan reports no error if and only if every relevant finding is covered and the exception of each key agrees with its first finding |
| AuditVerdict.CheckGrant | tools/check_pnpm_audit_exceptions.py:210-219 | no error exactly if the exception is not expired and its severity is blank or that of the finding |
| AuditVerdict.RunAudit | tools/check_pnpm_audit_exceptions.py:142-243 | exit code 0 if and only if the list parses, the report can be read, the exceptions are valid and every relevant finding is granted, and then every reported vulnerability that is named and high or critical has an unexpired exception for its package and advisory after strip and lower; exit code 1 with valid exceptions only if one has none that fits its severity; an exception exactly if something cannot be read |
| AuditVerdict.CoverPasses | tools/check_pnpm_audit_exceptions.py:142-243 | if all exceptions are valid and every reported vulnerability that is named and high or critical has an unexpired one that fits its severity, the audit passes |
| AuditVerdict.GhsaDecides | tools/check_pnpm_audit_exceptions.py:51-219 | a report with one high advisory that has a GHSA id passes with one entry if and only if the entry is an unexpired exception for the package and that id, after strip and lower, that fits the severity; one for the url alone does not help |
| AuditVerdict.UsableMeans | tools/check_pnpm_audit_exceptions.py:156-185 | which entries are exceptions, for which package and advisory, with which severity and date |
| AuditVerdict.ExceptionsPermute | tools/check_pnpm_audit_exceptions.py:156-219 | a permutation of the exceptions keeps a pass |
| AuditVerdict.FreshExceptionKeepsPass | tools/check_pnpm_audit_exceptions.py:156-219 | so does adding a usable exception with a new key |
| AuditVerdict.EarlierDaysPass | tools/check_pnpm_audit_exceptions.py:187-219 | a pass on one day is a pass on every earlier day |
| AuditVerdict.FindingsPermute | tools/check_pnpm_audit_exceptions.py:192-219 | a permutation of the findings keeps a pass if equal keys have equal severities |
| AuditVerdict.EveryOrderPasses | tools/check_pnpm_audit_exceptions.py:192-219 | a list of findings passes in every order if and only if the exceptions are valid, the severities can be read, and every relevant finding is covered and agrees with its exception |
| AuditVerdict.SomeOrderPasses | tools/check_pnpm_audit_exceptions.py:192-219 | a list of findings passes in some order if and only if the exceptions are valid, the severities can be read, every relevant finding is covered, and of every key some finding agrees with the exception |
| AuditVerdict.OrderDoesNotMatterIff | tools/check_pnpm_audit_exceptions.py:192-219 | every order gives the same verdict if and only if no order passes or every relevant finding is covered and agrees with its exception |
| AuditVerdict.OneOrderPasses | tools/check_pnpm_audit_exceptions.py:205-214 | the failing input: two findings of one key with different severities pass in one order and not in the other |
| AuditVerdict.OrderOfSeveritiesMatters | tools/check_pnpm_audit_exceptions.py:205-214 | of two findings with one key only the first is compared: the other order passes if and only if the exception agrees with the second one too |

## Left out

- SQL text, drivers, transactions, row locks and contexts: `sqlgraph` is not part of this model and has its relational meaning only.
- The loaders of API keys: the same templates as the account and group edges of a join row and the usage-log edge of an account.
- The edges of groups, proxies and usage logs themselves: their builders share one class without edges of its own.
- Windows, that is limit and offset, on eager sub-builders, which apply to the whole batch and not per node.
- EagerLoading.LeafQuery.AllJoinedTo: lists the joined rows group by group, where a database may return them in any order; `LoadGroupsFromRows` has rows in any order.
- EagerLoading.AccountQuery.LoadGroups: for the same row order, because the naive join needs an order to be compared in; ties of an ordering keep table order.
- EagerLoading.AccountQuery.Clone: without the `path` and `sql` of a builder that came from a traversal; `Traversal.AccountTraversal.Clone` has them.
- EagerLoading.AccountGroupQuery.Clone: without `path` and `sql`, as no traversal to join rows is modelled.
- `DISTINCT` on the join-row edge of an account whose selection lacks the group: it would merge rows of one account. On account rows the id is always selected, so `DISTINCT` changes nothing there.
- Traversal.AccountTraversal.All: chains without limit, offset and order, which would make a chain denote a list and not a set of accounts.
- Traversal.AccountTraversal.IDs: for the same chains.
- Running a builder with the many-to-many edge twice: its join clause accumulates.
- Interceptors other than those that add predicates.
- Aliasing through Go slices and maps that two builders could share after `append`; the sequences here are values.
- A join row has no id of its own, so `Select` on its builder may drop its keys from the object; the edges are loaded all the same.
- Widths of integers, rounding of decimals and timestamps by the columns; lengths are counted in characters.
- The fields of the entity are grouped by their type; the source has one flat struct.
- Hooks decide from the mutation and from the outcomes of their calls: hooks with state of their own, hooks that edit the mutation after their last call, that substitute another mutation, or that call on without any bound are not modelled; writes to `builder.mutation` store the mutation that is there already.
- BulkCreate.AccountCreateBulk.RunHook: for the hooks of the line above.
- `mutation.id`, a pointer to the id of the node: the mutation holds the node itself.
- All clock readings of one bulk `Save` are one value.
- Single-row `Save` and `sqlSave`, upserts and their conflict options, update and delete builders, fluent setters, `FirstID`, `OnlyID`, `Count`, `Exist`, `GroupBy`, and the panicking variants: they wrap calls into `sqlgraph` or rest on `mutation.go`, which is not part of this model.
- Wording of error messages; that `IDs` fails on more than one column is a rule of the scan library.
- Reading files, arguments and JSON text; line breaks are those after the translation of a text file, and JSON numbers are integers.
