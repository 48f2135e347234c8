/**
 Creating many accounts in one batch.

 `Save` builds one chain of mutators out of the builders and their hooks and runs it; the methods here
 do what the chain does on the mutations, the entities and the specifications, and are proved against
 the runs of `BulkRuns`.
 */
module BulkCreate {
  import opened Wrappers
  import opened AccountCodec
  import opened Entities
  import opened AccountCreate
  import opened BulkTrace
  import opened BulkRuns
  import opened BulkTheorems

  /** A hook sets columns to values of their own type. */
  ghost predicate Sound(hook: Hook) {
    forall d: Draft, outcomes | TypedFields(d.values) && hook.next(d, outcomes).Some? ::
      TypedFields(hook.next(d, outcomes).value.values)
  }

  class AccountBuilder {
    const mutation: AccountMutation
    const hooks: seq<Hook>

    constructor (mutation: AccountMutation, hooks: seq<Hook>)
      ensures this.mutation == mutation && this.hooks == hooks
    {
      this.mutation, this.hooks := mutation, hooks;
    }
  }

  class AccountCreateBulk {
    const builders: seq<AccountBuilder>
    const err: Option<string>
    const database: nat -> BatchOutcome
    const now: Time
    var batches: nat
    ghost var trace: seq<Event>

    constructor (builders: seq<AccountBuilder>, err: Option<string>, database: nat -> BatchOutcome, now: Time)
      ensures this.builders == builders && this.err == err && this.database == database && this.now == now
      ensures batches == 0 && trace == []
    {
      this.builders, this.err, this.database, this.now := builders, err, database, now;
      batches, trace := 0, [];
    }

    /** The hooks of all builders, the database and the clock. */
    function HookChain(): (c: MutatorChain)
      ensures |c.hooks| == |builders| && (forall i | 0 <= i < |builders| :: c.hooks[i] == builders[i].hooks)
      ensures c.database == database && c.now == now
    {
      MutatorChain(seq(|builders|, i requires 0 <= i < |builders| => builders[i].hooks), database, now)
    }

    /** The builders have mutations of their own, in `Ms`, and sound hooks. */
    ghost predicate Arranged(Ms: set<AccountMutation>) {
      && (forall i | 0 <= i < |builders| :: builders[i].mutation in Ms)
      && (forall i, j | 0 <= i < j < |builders| :: builders[i].mutation != builders[j].mutation)
      && forall i, h | 0 <= i < |builders| && 0 <= h < |builders[i].hooks| :: Sound(builders[i].hooks[h])
    }

    ghost predicate Ready(Ms: set<AccountMutation>)
      requires Arranged(Ms)
      reads Ms`values
    {
      forall i | 0 <= i < |builders| :: builders[i].mutation.WellFormed()
    }

    /** What the mutations of the first `n` builders set. */
    ghost function Drafts(n: nat, Ms: set<AccountMutation>): (r: seq<Draft>)
      requires n <= |builders| && Arranged(Ms)
      reads Ms`values, Ms`edges
      ensures |r| == n && forall i | 0 <= i < n :: r[i] == builders[i].mutation.Value()
    {
      if n == 0 then [] else Drafts(n - 1, Ms) + [builders[n - 1].mutation.Value()]
    }

    /** What all mutations set, and the batches so far. */
    ghost function Now(Ms: set<AccountMutation>): (s: BatchState)
      requires Arranged(Ms)
      reads this`batches, Ms`values, Ms`edges
    {
      BatchState(Drafts(|builders|, Ms), batches)
    }

    lemma NowIs(Ms: set<AccountMutation>)
      requires Arranged(Ms)
      ensures |Now(Ms).drafts| == |builders| && Now(Ms).batches == batches
      ensures forall i | 0 <= i < |builders| :: Now(Ms).drafts[i] == builders[i].mutation.Value()
    {
    }

    /** Rows are prepared for the first `i` builders; `Nd` and `Sp` hold all objects prepared so far. */
    ghost predicate Prepared(i: nat, nodes: array<AccountNode?>, specs: array<CreateSpec?>,
                             Nd: set<AccountNode>, Sp: set<CreateSpec>)
      reads nodes, specs
    {
      && nodes.Length == specs.Length == |builders| && i <= |builders|
      && (forall k | 0 <= k < |builders| && nodes[k] != null :: nodes[k] in Nd)
      && (forall k | 0 <= k < |builders| && specs[k] != null :: specs[k] in Sp)
      && (forall j, k | 0 <= j < k < |builders| && nodes[j] != null :: nodes[j] != nodes[k])
      && (forall j, k | 0 <= j < k < |builders| && specs[j] != null :: specs[j] != specs[k])
      && forall k | 0 <= k < i :: nodes[k] != null && specs[k] != null
    }

    /** What the specifications of the first `|F|` builders hold. */
    ghost predicate Hold(F: seq<Row>, specs: array<CreateSpec?>, Sp: set<CreateSpec>)
      reads specs, Sp`fields, Sp`edges
    {
      |F| <= specs.Length && forall k | 0 <= k < |F| ::
        specs[k] != null && specs[k] in Sp && specs[k].fields == F[k].fields && specs[k].edges == F[k].edges
    }

    /** Builder `j` is saved: its entity and specification show its mutation, which is done with the id that the row got. */
    ghost predicate Saved(j: nat, nodes: array<AccountNode?>, specs: array<CreateSpec?>,
                          Nd: set<AccountNode>, Sp: set<CreateSpec>, Ms: set<AccountMutation>)
      requires Arranged(Ms) && nodes.Length == specs.Length == |builders| && j < |builders|
      reads nodes, specs, Nd`fields, Sp, Ms
    {
      var m := builders[j].mutation;
      && nodes[j] != null && nodes[j] in Nd && specs[j] != null && specs[j] in Sp
      && Acceptable(m.values) && Created(m.Value(), nodes[j].fields, specs[j], now)
      && m.done && m.node == nodes[j]
      && (specs[j].id.Some? ==> nodes[j].fields.id == specs[j].id.value)
    }

    /** The last batch gave every row the id that the database assigned. */
    ghost predicate IdsAssigned(specs: array<CreateSpec?>, Sp: set<CreateSpec>)
      reads this`batches, specs, Sp`id
    {
      && batches > 0 && database(batches - 1).Inserted?
      && forall k | 0 <= k < specs.Length :: specs[k] != null && specs[k] in Sp && specs[k].id == database(batches - 1).ids(k)
    }

    /** The builders from `from` on that the run, started at builder `i`, has finished are saved; if it inserted, with the ids of the batch. */
    ghost predicate AllSaved(from: nat, run: Run, i: nat, nodes: array<AccountNode?>, specs: array<CreateSpec?>,
                             Nd: set<AccountNode>, Sp: set<CreateSpec>, Ms: set<AccountMutation>)
      requires Arranged(Ms) && nodes.Length == specs.Length == |builders|
      reads this`batches, nodes, specs, Nd`fields, Sp, Ms
    {
      && (Landed(run) ==> IdsAssigned(specs, Sp))
      && forall j | from <= j < |builders| && Finishes(run, i, j) :: Saved(j, nodes, specs, Nd, Sp, Ms)
    }

    /** A mutation that is as it was. */
    static twostate predicate Untouched(m: AccountMutation)
      reads m
    {
      m.Value() == old(m.Value()) && m.node == old(m.node) && m.done == old(m.done)
    }

    /** `sqlgraph.BatchCreate`: one insert of all rows. */
    method BatchCreate(specs: array<CreateSpec?>, ghost Sp: set<CreateSpec>) returns (err: Outcome, ghost rows: seq<Row>)
      requires specs.Length == |builders|
      requires forall k | 0 <= k < specs.Length :: specs[k] != null && specs[k] in Sp
      requires forall j, k | 0 <= j < k < specs.Length :: specs[j] != specs[k]
      modifies this`batches, this`trace, Sp`id
      ensures |rows| == specs.Length
      ensures forall k | 0 <= k < specs.Length :: rows[k] == Row(specs[k].fields, specs[k].edges)
      ensures batches == old(batches) + 1 && trace == old(trace) + [Insert(rows, err.None?)]
      ensures err == if database(old(batches)).Inserted? then None else Some(InsertFailed)
      ensures err.None? ==> IdsAssigned(specs, Sp)
    {
      var outcome := database(batches);
      rows := [];
      for k := 0 to specs.Length
        invariant |rows| == k && forall l | 0 <= l < k :: rows[l] == Row(specs[l].fields, specs[l].edges)
      {
        rows := rows + [Row(specs[k].fields, specs[k].edges)];
      }
      batches, trace := batches + 1, trace + [Insert(rows, outcome.Inserted?)];
      err := if outcome.Inserted? then None else Some(InsertFailed);
      if err.Some? {
        return;
      }
      for k := 0 to specs.Length
        invariant batches == old(batches) + 1 && trace == old(trace) + [Insert(rows, true)]
        invariant forall l | 0 <= l < k :: specs[l].id == outcome.ids(l)
      {
        specs[k].id := outcome.ids(k);
      }
    }

    // ------------------------------------------------------------ the chain

    /** Runs the mutator of builder `i` from hook `h` on: `hooks[0]` is the outermost. */
    method Mutate(i: nat, h: nat, nodes: array<AccountNode?>, specs: array<CreateSpec?>,
            ghost Nd: set<AccountNode>, ghost Sp: set<CreateSpec>, ghost Ms: set<AccountMutation>, ghost F: seq<Row>)
        returns (err: Outcome, ghost run: Run, ghost Nd2: set<AccountNode>, ghost Sp2: set<CreateSpec>)
      requires i < |builders| && h <= |builders[i].hooks|
      requires Arranged(Ms) && Ready(Ms) && Prepared(i, nodes, specs, Nd, Sp) && |F| == i && Hold(F, specs, Sp)
      modifies this`batches, this`trace, nodes, specs, Nd`fields, Sp`id, Ms`values, Ms`edges, Ms`node, Ms`done
      decreases |builders| - i, |builders[i].hooks| - h, 4, 0
      ensures Ready(Ms) && Prepared(i, nodes, specs, Nd2, Sp2)
      ensures Nd <= Nd2 && Sp <= Sp2 && fresh(Nd2 - Nd) && fresh(Sp2 - Sp)
      ensures forall k | 0 <= k < i :: nodes[k] == old(nodes[k]) && specs[k] == old(specs[k]) && nodes[k].fields == old(nodes[k].fields)
      ensures forall k | 0 <= k < i :: Untouched(builders[k].mutation)
      ensures run.before == old(Now(Ms)) && run.after == Now(Ms) && run.outcome == err
      ensures Follows(HookChain(), run, i, h, F)
      ensures trace == old(trace) + Events(run, i, h)
      ensures forall j | i <= j < |builders| :: builders[j].mutation.done == (old(builders[j].mutation.done) || Finishes(run, i, j))
      ensures Once(HookChain(), i, h) ==> AllSaved(i, run, i, nodes, specs, Nd2, Sp2, Ms)
    {
      hide Follows, Finishes, Events, Once, AllSaved, Hold, Sound, TypedFields;
      if h == |builders[i].hooks| {
        err, run, Nd2, Sp2 := MutateInner(i, nodes, specs, Nd, Sp, Ms, F);
      } else {
        err, run, Nd2, Sp2 := RunHook(i, h, nodes, specs, Nd, Sp, Ms, F);
      }
    }

    /** All calls of one hook. */
    method CallAll(i: nat, h: nat, ghost start: BatchState, nodes: array<AccountNode?>, specs: array<CreateSpec?>,
            ghost Nd: set<AccountNode>, ghost Sp: set<CreateSpec>, ghost Ms: set<AccountMutation>, ghost F: seq<Row>)
        returns (outcomes: seq<Outcome>, ghost calls: seq<Run>, ghost Nd2: set<AccountNode>, ghost Sp2: set<CreateSpec>)
      requires i < |builders| && h < |builders[i].hooks|
      requires Arranged(Ms) && Ready(Ms) && Prepared(i, nodes, specs, Nd, Sp) && |F| == i && Hold(F, specs, Sp)
      requires Now(Ms) == start
      modifies this`batches, this`trace, nodes, specs, Nd`fields, Sp`id, Ms`values, Ms`edges, Ms`node, Ms`done
      decreases |builders| - i, |builders[i].hooks| - h, 2, 0
      ensures Ready(Ms) && Prepared(i, nodes, specs, Nd2, Sp2)
      ensures Nd <= Nd2 && Sp <= Sp2 && fresh(Nd2 - Nd) && fresh(Sp2 - Sp)
      ensures forall k | 0 <= k < i :: nodes[k] == old(nodes[k]) && specs[k] == old(specs[k]) && nodes[k].fields == old(nodes[k].fields)
      ensures forall k | 0 <= k < i :: Untouched(builders[k].mutation)
      ensures outcomes == Outcomes(calls) && LinkedCalls(HookChain(), calls, i, h, start, F)
      ensures Now(Ms) == Prior(start, calls, |calls|) && !builders[i].hooks[h].Again(builders[i].mutation.Value(), outcomes)
      ensures trace == old(trace) + EventsAll(calls, i, h + 1)
      ensures forall j | i <= j < |builders| :: builders[j].mutation.done == (old(builders[j].mutation.done) || FinishesAny(calls, i, j))
      ensures Once(HookChain(), i, h) ==> |calls| == 1 && AllSaved(i, calls[0], i, nodes, specs, Nd2, Sp2, Ms)
    {
      hide Follows, FinishesAny, EventsAll, Once, AllSaved, Hold, Sound, TypedFields, Hook.Again, LinkedCalls, Outcomes, Now;
      NowIs(Ms);
      var hook, m := builders[i].hooks[h], builders[i].mutation;
      outcomes, calls, Nd2, Sp2 := [], [], Nd, Sp;
      NoCalls(HookChain(), i, h, start, F);
      OnceStarts(i, h, m.Value());
      if hook.Again(m.Value(), []) {
        outcomes, calls, Nd2, Sp2 := CallNext(i, h, start, [], [], nodes, specs, Nd, Sp, Ms, F);
        assert [] + calls == calls;
      } else {
        NothingOfNoCalls(i, h);
      }
    }

    /** One hook around the next mutator. */
    method RunHook(i: nat, h: nat, nodes: array<AccountNode?>, specs: array<CreateSpec?>,
            ghost Nd: set<AccountNode>, ghost Sp: set<CreateSpec>, ghost Ms: set<AccountMutation>, ghost F: seq<Row>)
        returns (err: Outcome, ghost run: Run, ghost Nd2: set<AccountNode>, ghost Sp2: set<CreateSpec>)
      requires i < |builders| && h < |builders[i].hooks|
      requires Arranged(Ms) && Ready(Ms) && Prepared(i, nodes, specs, Nd, Sp) && |F| == i && Hold(F, specs, Sp)
      modifies this`batches, this`trace, nodes, specs, Nd`fields, Sp`id, Ms`values, Ms`edges, Ms`node, Ms`done
      decreases |builders| - i, |builders[i].hooks| - h, 3, 0
      ensures Ready(Ms) && Prepared(i, nodes, specs, Nd2, Sp2)
      ensures Nd <= Nd2 && Sp <= Sp2 && fresh(Nd2 - Nd) && fresh(Sp2 - Sp)
      ensures forall k | 0 <= k < i :: nodes[k] == old(nodes[k]) && specs[k] == old(specs[k]) && nodes[k].fields == old(nodes[k].fields)
      ensures forall k | 0 <= k < i :: Untouched(builders[k].mutation)
      ensures run.before == old(Now(Ms)) && run.after == Now(Ms) && run.outcome == err
      ensures Follows(HookChain(), run, i, h, F)
      ensures trace == old(trace) + Events(run, i, h)
      ensures forall j | i <= j < |builders| :: builders[j].mutation.done == (old(builders[j].mutation.done) || Finishes(run, i, j))
      ensures Once(HookChain(), i, h) ==> AllSaved(i, run, i, nodes, specs, Nd2, Sp2, Ms)
    {
      hide Follows, FinishesAny, EventsAll, Once, AllSaved, Hold, Sound, TypedFields, Hook.Again, LinkedCalls, Outcomes, Now;
      NowIs(Ms);
      var hook := builders[i].hooks[h];
      ghost var before := Now(Ms);
      trace := trace + [Enter(i, h)];
      var outcomes;
      ghost var calls;
      outcomes, calls, Nd2, Sp2 := CallAll(i, h, before, nodes, specs, Nd, Sp, Ms, F);
      NowIs(Ms);
      err := hook.after(builders[i].mutation.Value(), outcomes);
      trace := trace + [Exit(i, h, err.Some?)];
      run := Hooked(before, Now(Ms), err, calls);
      HookedFollows(HookChain(), before, calls, i, h, F);
      SavedByCall(run, calls, i, h, nodes, specs, Nd2, Sp2, Ms);
    }

    lemma NothingOfNoCalls(i: nat, h: nat)
      ensures EventsAll([], i, h + 1) == [] && forall j :: !FinishesAny([], i, j)
    {
    }

    /** A hook that calls once saves what its call saves. */
    lemma SavedByCall(run: Run, calls: seq<Run>, i: nat, h: nat, nodes: array<AccountNode?>, specs: array<CreateSpec?>,
                      Nd: set<AccountNode>, Sp: set<CreateSpec>, Ms: set<AccountMutation>)
      requires Arranged(Ms) && nodes.Length == specs.Length == |builders| && run.Hooked? && run.calls == calls
      ensures |calls| == 1 && AllSaved(i, calls[0], i, nodes, specs, Nd, Sp, Ms) ==> AllSaved(i, run, i, nodes, specs, Nd, Sp, Ms)
    {
      hide IdsAssigned, Saved;
      if |calls| == 1 {
        FinishesOne(calls, i);
      }
    }

    /** The edited mutation is stored. */
    method Edit(i: nat, d: Draft, ghost Ms: set<AccountMutation>)
      requires i < |builders| && Arranged(Ms) && Ready(Ms) && TypedFields(d.values)
      modifies builders[i].mutation`values, builders[i].mutation`edges
      ensures Ready(Ms) && Now(Ms) == old(Now(Ms)).(drafts := old(Now(Ms)).drafts[i := d])
      ensures forall k | 0 <= k < |builders| && k != i :: builders[k].mutation.Value() == old(builders[k].mutation.Value())
    {
      hide TypedFields, Sound;
      var m := builders[i].mutation;
      m.values, m.edges := d.values, d.edges;
      assert Now(Ms).drafts == old(Now(Ms)).drafts[i := d];
    }

    /** The next call of a hook. */
    method CallOnce(i: nat, h: nat, ghost start: BatchState, outcomes: seq<Outcome>, ghost calls: seq<Run>, nodes: array<AccountNode?>, specs: array<CreateSpec?>,
            ghost Nd: set<AccountNode>, ghost Sp: set<CreateSpec>, ghost Ms: set<AccountMutation>, ghost F: seq<Row>)
        returns (err: Outcome, ghost run: Run, ghost Nd2: set<AccountNode>, ghost Sp2: set<CreateSpec>)
      requires i < |builders| && h < |builders[i].hooks|
      requires Arranged(Ms) && Ready(Ms) && Prepared(i, nodes, specs, Nd, Sp) && |F| == i && Hold(F, specs, Sp)
      requires outcomes == Outcomes(calls) && LinkedCalls(HookChain(), calls, i, h, start, F)
      requires Now(Ms) == Prior(start, calls, |calls|) && builders[i].hooks[h].Again(builders[i].mutation.Value(), outcomes)
      modifies this`batches, this`trace, nodes, specs, Nd`fields, Sp`id, Ms`values, Ms`edges, Ms`node, Ms`done
      decreases |builders| - i, |builders[i].hooks| - h, 0, 0
      ensures Ready(Ms) && Prepared(i, nodes, specs, Nd2, Sp2)
      ensures Nd <= Nd2 && Sp <= Sp2 && fresh(Nd2 - Nd) && fresh(Sp2 - Sp)
      ensures forall k | 0 <= k < i :: nodes[k] == old(nodes[k]) && specs[k] == old(specs[k]) && nodes[k].fields == old(nodes[k].fields)
      ensures forall k | 0 <= k < i :: Untouched(builders[k].mutation)
      ensures Hold(F, specs, Sp2)
      ensures Outcomes(calls + [run]) == outcomes + [err] && LinkedCalls(HookChain(), calls + [run], i, h, start, F)
      ensures Now(Ms) == Prior(start, calls + [run], |calls| + 1)
      ensures trace == old(trace) + Events(run, i, h + 1)
      ensures forall j | i <= j < |builders| :: builders[j].mutation.done == (old(builders[j].mutation.done) || Finishes(run, i, j))
      ensures Once(HookChain(), i, h) ==> AllSaved(i, run, i, nodes, specs, Nd2, Sp2, Ms)
    {
      hide Follows, Finishes, FinishesAny, Events, EventsAll, Once, AllSaved, Sound, TypedFields, LinkedCalls, Outcomes, Prior, Now, Hook.Again, Landed;
      NowIs(Ms);
      var hook, m := builders[i].hooks[h], builders[i].mutation;
      ghost var prior := Now(Ms);
      EditIsTyped(hook, i, h, m.Value(), outcomes, Ms);
      var d := hook.next(m.Value(), outcomes).value;
      Edit(i, d, Ms);
      OnceStep(i, h);
      err, run, Nd2, Sp2 := Mutate(i, h + 1, nodes, specs, Nd, Sp, Ms, F);
      assert Called(hook, i, prior, outcomes, run.before);
      LinkedMore(HookChain(), calls, run, i, h, start, F);
    }

    /** The next call of a hook, and all calls that it makes after that. */
    method CallNext(i: nat, h: nat, ghost start: BatchState, outcomes: seq<Outcome>, ghost calls: seq<Run>, nodes: array<AccountNode?>, specs: array<CreateSpec?>,
            ghost Nd: set<AccountNode>, ghost Sp: set<CreateSpec>, ghost Ms: set<AccountMutation>, ghost F: seq<Row>)
        returns (all: seq<Outcome>, ghost more: seq<Run>, ghost Nd2: set<AccountNode>, ghost Sp2: set<CreateSpec>)
      requires i < |builders| && h < |builders[i].hooks|
      requires Arranged(Ms) && Ready(Ms) && Prepared(i, nodes, specs, Nd, Sp) && |F| == i && Hold(F, specs, Sp)
      requires outcomes == Outcomes(calls) && LinkedCalls(HookChain(), calls, i, h, start, F)
      requires Now(Ms) == Prior(start, calls, |calls|) && builders[i].hooks[h].Again(builders[i].mutation.Value(), outcomes)
      modifies this`batches, this`trace, nodes, specs, Nd`fields, Sp`id, Ms`values, Ms`edges, Ms`node, Ms`done
      decreases |builders| - i, |builders[i].hooks| - h, 1, builders[i].hooks[h].limit - |outcomes|
      ensures Ready(Ms) && Prepared(i, nodes, specs, Nd2, Sp2)
      ensures Nd <= Nd2 && Sp <= Sp2 && fresh(Nd2 - Nd) && fresh(Sp2 - Sp)
      ensures forall k | 0 <= k < i :: nodes[k] == old(nodes[k]) && specs[k] == old(specs[k]) && nodes[k].fields == old(nodes[k].fields)
      ensures forall k | 0 <= k < i :: Untouched(builders[k].mutation)
      ensures all == Outcomes(calls + more) && LinkedCalls(HookChain(), calls + more, i, h, start, F)
      ensures Now(Ms) == Prior(start, calls + more, |calls + more|) && !builders[i].hooks[h].Again(builders[i].mutation.Value(), all)
      ensures trace == old(trace) + EventsAll(more, i, h + 1)
      ensures forall j | i <= j < |builders| :: builders[j].mutation.done == (old(builders[j].mutation.done) || FinishesAny(more, i, j))
      ensures Once(HookChain(), i, h) && calls == [] ==> |more| == 1 && AllSaved(i, more[0], i, nodes, specs, Nd2, Sp2, Ms)
    {
      hide Follows, Finishes, FinishesAny, Events, EventsAll, Once, AllSaved, Sound, TypedFields, LinkedCalls, Outcomes, Prior, Now, Hook.Again, Hold, Landed;
      var hook, m := builders[i].hooks[h], builders[i].mutation;
      AgainIsBounded(hook);
      var err;
      ghost var run;
      err, run, Nd2, Sp2 := CallOnce(i, h, start, outcomes, calls, nodes, specs, Nd, Sp, Ms, F);
      assert |calls + [run]| == |calls| + 1;
      all, more := outcomes + [err], [run];
      OneOfCalls(run, i, h);
      OnceStops(i, h, calls, m.Value(), all);
      if hook.Again(m.Value(), all) {
        ghost var rest;
        all, rest, Nd2, Sp2 := CallNext(i, h, start, all, calls + [run], nodes, specs, Nd2, Sp2, Ms, F);
        more := [run] + rest;
        assert calls + [run] + rest == calls + more;
        FirstOfCalls(run, rest, i, h);
      }
    }

    lemma EditIsTyped(hook: Hook, i: nat, h: nat, d: Draft, outcomes: seq<Outcome>, Ms: set<AccountMutation>)
      requires Arranged(Ms) && Ready(Ms) && i < |builders| && h < |builders[i].hooks| && hook == builders[i].hooks[h]
      requires TypedFields(d.values) && hook.Again(d, outcomes)
      ensures hook.next(d, outcomes).Some? && TypedFields(hook.next(d, outcomes).value.values)
    {
      hide TypedFields;
      assert Sound(hook);
    }

    lemma AgainIsBounded(hook: Hook)
      ensures forall d, outcomes :: hook.Again(d, outcomes) ==> |outcomes| < hook.limit
    {
    }

    lemma OneOfCalls(run: Run, i: nat, h: nat)
      ensures EventsAll([run], i, h + 1) == Events(run, i, h + 1)
      ensures forall j :: FinishesAny([run], i, j) <==> Finishes(run, i, j)
    {
      EventsOfOne([run], i, h + 1);
      FinishesOne([run], i);
    }

    lemma FirstOfCalls(run: Run, rest: seq<Run>, i: nat, h: nat)
      ensures EventsAll([run] + rest, i, h + 1) == Events(run, i, h + 1) + EventsAll(rest, i, h + 1)
      ensures forall j :: FinishesAny([run] + rest, i, j) <==> Finishes(run, i, j) || FinishesAny(rest, i, j)
    {
      assert ([run] + rest)[1..] == rest;
    }

    lemma OnceStep(i: nat, h: nat)
      requires i < |builders| && h < |builders[i].hooks|
      ensures Once(HookChain(), i, h) ==> Once(HookChain(), i, h + 1)
    {
    }

    lemma OnceStarts(i: nat, h: nat, d: Draft)
      requires i < |builders| && h < |builders[i].hooks|
      ensures Once(HookChain(), i, h) ==> builders[i].hooks[h].Again(d, [])
    {
      if Once(HookChain(), i, h) {
        OnceDecides(builders[i].hooks[h], d, []);
      }
    }

    lemma OnceStops(i: nat, h: nat, calls: seq<Run>, d: Draft, outcomes: seq<Outcome>)
      requires i < |builders| && h < |builders[i].hooks| && |outcomes| == |calls| + 1
      ensures Once(HookChain(), i, h) ==> !builders[i].hooks[h].Again(d, outcomes)
    {
      if Once(HookChain(), i, h) {
        OnceDecides(builders[i].hooks[h], d, outcomes);
      }
    }

    /** The checked row of builder `i` is prepared: entity and specification are stored. */
    method PrepareRow(i: nat, nodes: array<AccountNode?>, specs: array<CreateSpec?>,
            ghost Nd: set<AccountNode>, ghost Sp: set<CreateSpec>, ghost Ms: set<AccountMutation>, ghost F: seq<Row>)
        returns (ghost Nd2: set<AccountNode>, ghost Sp2: set<CreateSpec>)
      requires i < |builders|
      requires Arranged(Ms) && Ready(Ms) && Prepared(i, nodes, specs, Nd, Sp) && |F| == i && Hold(F, specs, Sp)
      modifies nodes, specs
      ensures Prepared(i + 1, nodes, specs, Nd2, Sp2) && Nd <= Nd2 && Sp <= Sp2 && fresh(Nd2 - Nd) && fresh(Sp2 - Sp)
      ensures fresh(nodes[i]) && fresh(specs[i]) && Created(builders[i].mutation.Value(), nodes[i].fields, specs[i], now)
      ensures Hold(F + [RowOf(builders[i].mutation.Value(), now)], specs, Sp2)
      ensures forall k | 0 <= k < |builders| && k != i :: nodes[k] == old(nodes[k]) && specs[k] == old(specs[k])
    {
      hide EdgesOf, CellOf;
      var node, spec := MakeSpec(builders[i].mutation, now);
      nodes[i], specs[i] := node, spec;
      Nd2, Sp2 := Nd + {node}, Sp + {spec};
    }

    lemma OnceNext(i: nat)
      requires i + 1 < |builders|
      ensures Once(HookChain(), i, |builders[i].hooks|) ==> Once(HookChain(), i + 1, 0)
    {
    }

    /** The passed check of builder `i`, and the chain of the next builder. */
    method RunNext(i: nat, nodes: array<AccountNode?>, specs: array<CreateSpec?>,
            ghost Nd: set<AccountNode>, ghost Sp: set<CreateSpec>, ghost Ms: set<AccountMutation>, ghost F: seq<Row>)
        returns (err: Outcome, ghost run: Run, ghost Nd2: set<AccountNode>, ghost Sp2: set<CreateSpec>)
      requires i + 1 < |builders| && Arranged(Ms) && Ready(Ms) && Prepared(i + 1, nodes, specs, Nd, Sp) && |F| == i
      requires Acceptable(builders[i].mutation.values) && Hold(F + [RowOf(builders[i].mutation.Value(), now)], specs, Sp)
      modifies this`batches, this`trace, nodes, specs, Nd`fields, Sp`id, Ms`values, Ms`edges, Ms`node, Ms`done
      decreases |builders| - i, 0, 0, 0
      ensures Ready(Ms) && Prepared(i + 1, nodes, specs, Nd2, Sp2)
      ensures Nd <= Nd2 && Sp <= Sp2 && fresh(Nd2 - Nd) && fresh(Sp2 - Sp)
      ensures forall k | 0 <= k <= i :: nodes[k] == old(nodes[k]) && specs[k] == old(specs[k]) && nodes[k].fields == old(nodes[k].fields)
      ensures forall k | 0 <= k <= i :: Untouched(builders[k].mutation)
      ensures run.before == old(Now(Ms)) && run.after == Now(Ms) && run.outcome == err
      ensures Follows(HookChain(), run, i, |builders[i].hooks|, F)
      ensures trace == old(trace) + Events(run, i, |builders[i].hooks|)
      ensures forall j | i < j < |builders| :: builders[j].mutation.done == (old(builders[j].mutation.done) || Finishes(run, i, j))
      ensures Once(HookChain(), i, |builders[i].hooks|) ==> AllSaved(i + 1, run, i, nodes, specs, Nd2, Sp2, Ms)
      ensures run.Onward?
    {
      hide Follows, Finishes, Events, Once, AllSaved, Hold, Sound, TypedFields, RowOf, Acceptable, Now, Landed;
      NowIs(Ms);
      OnceNext(i);
      ghost var before := Now(Ms);
      trace := trace + [Checked(i, true)];
      ghost var rest;
      err, rest, Nd2, Sp2 := Mutate(i + 1, 0, nodes, specs, Nd, Sp, Ms, F + [RowOf(builders[i].mutation.Value(), now)]);
      run := Onward(before, Now(Ms), err, rest);
      OnwardFollows(HookChain(), before, rest, i, F);
      SavedByRest(run, i, nodes, specs, Nd2, Sp2, Ms);
    }

    lemma SavedByRest(run: Run, i: nat, nodes: array<AccountNode?>, specs: array<CreateSpec?>,
                      Nd: set<AccountNode>, Sp: set<CreateSpec>, Ms: set<AccountMutation>)
      requires Arranged(Ms) && nodes.Length == specs.Length == |builders| && run.Onward?
      ensures AllSaved(i + 1, run.rest, i + 1, nodes, specs, Nd, Sp, Ms) ==> AllSaved(i + 1, run, i, nodes, specs, Nd, Sp, Ms)
    {
      hide IdsAssigned, Saved;
    }

    /** The passed check of the last builder, and the insert. */
    method RunInsert(i: nat, nodes: array<AccountNode?>, specs: array<CreateSpec?>,
            ghost Nd: set<AccountNode>, ghost Sp: set<CreateSpec>, ghost Ms: set<AccountMutation>, ghost F: seq<Row>)
        returns (err: Outcome, ghost run: Run, ghost Nd2: set<AccountNode>, ghost Sp2: set<CreateSpec>)
      requires i + 1 == |builders| && Arranged(Ms) && Ready(Ms) && Prepared(i + 1, nodes, specs, Nd, Sp) && |F| == i
      requires Acceptable(builders[i].mutation.values) && Hold(F + [RowOf(builders[i].mutation.Value(), now)], specs, Sp)
      modifies this`batches, this`trace, nodes, specs, Nd`fields, Sp`id, Ms`values, Ms`edges, Ms`node, Ms`done
      decreases |builders| - i, 0, 0, 0
      ensures Ready(Ms) && Prepared(i + 1, nodes, specs, Nd2, Sp2)
      ensures Nd <= Nd2 && Sp <= Sp2 && fresh(Nd2 - Nd) && fresh(Sp2 - Sp)
      ensures forall k | 0 <= k <= i :: nodes[k] == old(nodes[k]) && specs[k] == old(specs[k]) && nodes[k].fields == old(nodes[k].fields)
      ensures forall k | 0 <= k <= i :: Untouched(builders[k].mutation)
      ensures run.before == old(Now(Ms)) && run.after == Now(Ms) && run.outcome == err
      ensures Follows(HookChain(), run, i, |builders[i].hooks|, F)
      ensures trace == old(trace) + Events(run, i, |builders[i].hooks|)
      ensures Landed(run) ==> IdsAssigned(specs, Sp2)
      ensures run.Last?
    {
      hide Once, Saved, IdsAssigned, Sound, TypedFields, EdgesOf, Acceptable;
      Nd2, Sp2 := Nd, Sp;
      ghost var before := Now(Ms);
      ghost var row := RowOf(builders[i].mutation.Value(), now);
      trace := trace + [Checked(i, true)];
      ghost var rows;
      err, rows := BatchCreate(specs, Sp);
      assert rows == F + [row];
      run := Last(before, Now(Ms), err, rows);
      LastFollows(HookChain(), before, i, F);
    }

    /** The passed check of builder `i`, and the rest of the chain behind it. */
    method RunRest(i: nat, nodes: array<AccountNode?>, specs: array<CreateSpec?>,
            ghost Nd: set<AccountNode>, ghost Sp: set<CreateSpec>, ghost Ms: set<AccountMutation>, ghost F: seq<Row>)
        returns (err: Outcome, ghost run: Run, ghost Nd2: set<AccountNode>, ghost Sp2: set<CreateSpec>)
      requires i < |builders| && Arranged(Ms) && Ready(Ms) && Prepared(i + 1, nodes, specs, Nd, Sp) && |F| == i
      requires Acceptable(builders[i].mutation.values) && Hold(F + [RowOf(builders[i].mutation.Value(), now)], specs, Sp)
      modifies this`batches, this`trace, nodes, specs, Nd`fields, Sp`id, Ms`values, Ms`edges, Ms`node, Ms`done
      decreases |builders| - i, 0, 0, 1
      ensures Ready(Ms) && Prepared(i + 1, nodes, specs, Nd2, Sp2)
      ensures Nd <= Nd2 && Sp <= Sp2 && fresh(Nd2 - Nd) && fresh(Sp2 - Sp)
      ensures forall k | 0 <= k <= i :: nodes[k] == old(nodes[k]) && specs[k] == old(specs[k]) && nodes[k].fields == old(nodes[k].fields)
      ensures forall k | 0 <= k <= i :: Untouched(builders[k].mutation)
      ensures run.before == old(Now(Ms)) && run.after == Now(Ms) && run.outcome == err
      ensures Follows(HookChain(), run, i, |builders[i].hooks|, F)
      ensures trace == old(trace) + Events(run, i, |builders[i].hooks|)
      ensures forall j | i < j < |builders| :: builders[j].mutation.done == (old(builders[j].mutation.done) || Finishes(run, i, j))
      ensures Once(HookChain(), i, |builders[i].hooks|) ==> AllSaved(i + 1, run, i, nodes, specs, Nd2, Sp2, Ms)
      ensures run.Onward? || run.Last?
    {
      hide Follows, Finishes, Events, Once, AllSaved, Hold, Sound, TypedFields, Acceptable;
      if i + 1 < |builders| {
        err, run, Nd2, Sp2 := RunNext(i, nodes, specs, Nd, Sp, Ms, F);
      } else {
        err, run, Nd2, Sp2 := RunInsert(i, nodes, specs, Nd, Sp, Ms, F);
        LastSaves(run, i, nodes, specs, Nd2, Sp2, Ms);
      }
    }

    lemma LastSaves(run: Run, i: nat, nodes: array<AccountNode?>, specs: array<CreateSpec?>,
                    Nd: set<AccountNode>, Sp: set<CreateSpec>, Ms: set<AccountMutation>)
      requires Arranged(Ms) && nodes.Length == specs.Length == |builders| && i + 1 == |builders|
      requires Landed(run) ==> IdsAssigned(specs, Sp)
      ensures AllSaved(i + 1, run, i, nodes, specs, Nd, Sp, Ms)
    {
      hide IdsAssigned, Landed;
    }

    /** The id of the inserted row becomes the id of the entity, and the mutation is done. */
    method TakeId(i: nat, nodes: array<AccountNode?>, specs: array<CreateSpec?>,
                  ghost Nd: set<AccountNode>, ghost Sp: set<CreateSpec>, ghost Ms: set<AccountMutation>, ghost run: Run)
      requires i < |builders| && Arranged(Ms) && Ready(Ms) && Prepared(i + 1, nodes, specs, Nd, Sp)
      requires Acceptable(builders[i].mutation.values) && Created(builders[i].mutation.Value(), nodes[i].fields, specs[i], now)
      modifies builders[i].mutation`node, builders[i].mutation`done, Nd`fields
      ensures Ready(Ms) && Prepared(i + 1, nodes, specs, Nd, Sp)
      ensures forall k | 0 <= k < i :: nodes[k].fields == old(nodes[k].fields) && Untouched(builders[k].mutation)
      ensures forall k | 0 <= k < |builders| :: builders[k].mutation.done == (k == i || old(builders[k].mutation.done))
      ensures Saved(i, nodes, specs, Nd, Sp, Ms)
      ensures old(AllSaved(i + 1, run, i, nodes, specs, Nd, Sp, Ms)) ==> AllSaved(i, run, i, nodes, specs, Nd, Sp, Ms)
    {
      hide Acceptable, Created, IdsAssigned, Finishes, Landed, Sound, TypedFields;
      var m := builders[i].mutation;
      m.node := nodes[i];
      if specs[i].id.Some? {
        IdAside(m.Value(), nodes[i].fields, specs[i], specs[i].id.value);
        nodes[i].fields := nodes[i].fields.(id := specs[i].id.value);
      }
      m.done := true;
      if old(AllSaved(i + 1, run, i, nodes, specs, Nd, Sp, Ms)) {
        forall j | i < j < |builders| && Finishes(run, i, j) ensures Saved(j, nodes, specs, Nd, Sp, Ms) {
          assert old(Saved(j, nodes, specs, Nd, Sp, Ms));
          assert nodes[j] != nodes[i];
        }
      }
    }

    lemma IdAside(d: Draft, a: Account, spec: CreateSpec, id: int)
      requires Created(d, a, spec, now)
      ensures Created(d, a.(id := id), spec, now)
    {
      hide EdgesOf;
    }

    /** What the mutator does when the rest of the chain is back. */
    method Finish(i: nat, nodes: array<AccountNode?>, specs: array<CreateSpec?>,
                  ghost Nd: set<AccountNode>, ghost Sp: set<CreateSpec>, ghost Ms: set<AccountMutation>, err: Outcome, ghost run: Run)
      requires i < |builders| && Arranged(Ms) && Ready(Ms) && Prepared(i + 1, nodes, specs, Nd, Sp)
      requires Acceptable(builders[i].mutation.values) && Created(builders[i].mutation.Value(), nodes[i].fields, specs[i], now)
      requires run.outcome == err && (Finishes(run, i, i) <==> err.None?)
      modifies builders[i].mutation`node, builders[i].mutation`done, Nd`fields
      ensures Ready(Ms) && Prepared(i + 1, nodes, specs, Nd, Sp)
      ensures forall k | 0 <= k < i :: nodes[k].fields == old(nodes[k].fields) && Untouched(builders[k].mutation)
      ensures forall k | 0 <= k < |builders| :: builders[k].mutation.done == (old(builders[k].mutation.done) || (k == i && Finishes(run, i, i)))
      ensures old(AllSaved(i + 1, run, i, nodes, specs, Nd, Sp, Ms)) ==> AllSaved(i, run, i, nodes, specs, Nd, Sp, Ms)
    {
      hide Acceptable, Created, IdsAssigned, Saved, Finishes, Landed, Sound, TypedFields;
      if err.None? {
        hide AllSaved;
        TakeId(i, nodes, specs, Nd, Sp, Ms, run);
      }
    }

    /** The mutator after its check: prepare the row, run the rest of the chain, and take over the id. */
    method MutateChecked(i: nat, nodes: array<AccountNode?>, specs: array<CreateSpec?>,
            ghost Nd: set<AccountNode>, ghost Sp: set<CreateSpec>, ghost Ms: set<AccountMutation>, ghost F: seq<Row>)
        returns (err: Outcome, ghost run: Run, ghost Nd2: set<AccountNode>, ghost Sp2: set<CreateSpec>)
      requires i < |builders| && Acceptable(builders[i].mutation.values)
      requires Arranged(Ms) && Ready(Ms) && Prepared(i, nodes, specs, Nd, Sp) && |F| == i && Hold(F, specs, Sp)
      modifies this`batches, this`trace, nodes, specs, Nd`fields, Sp`id, Ms`values, Ms`edges, Ms`node, Ms`done
      decreases |builders| - i, 0, 1, 0
      ensures Ready(Ms) && Prepared(i, nodes, specs, Nd2, Sp2)
      ensures Nd <= Nd2 && Sp <= Sp2 && fresh(Nd2 - Nd) && fresh(Sp2 - Sp)
      ensures forall k | 0 <= k < i :: nodes[k] == old(nodes[k]) && specs[k] == old(specs[k]) && nodes[k].fields == old(nodes[k].fields)
      ensures forall k | 0 <= k < i :: Untouched(builders[k].mutation)
      ensures run.before == old(Now(Ms)) && run.after == Now(Ms) && run.outcome == err
      ensures Follows(HookChain(), run, i, |builders[i].hooks|, F)
      ensures trace == old(trace) + Events(run, i, |builders[i].hooks|)
      ensures forall j | i <= j < |builders| :: builders[j].mutation.done == (old(builders[j].mutation.done) || Finishes(run, i, j))
      ensures Once(HookChain(), i, |builders[i].hooks|) ==> AllSaved(i, run, i, nodes, specs, Nd2, Sp2, Ms)
    {
      hide Follows, Finishes, Events, Once, AllSaved, Hold, Acceptable, Created, Sound, TypedFields, RowOf, Now, Landed;
      Nd2, Sp2 := PrepareRow(i, nodes, specs, Nd, Sp, Ms, F);
      err, run, Nd2, Sp2 := RunRest(i, nodes, specs, Nd2, Sp2, Ms, F);
      FinishesSelf(run, i);
      Finish(i, nodes, specs, Nd2, Sp2, Ms, err, run);
    }

    lemma FinishesSelf(run: Run, i: nat)
      requires run.Onward? || run.Last?
      ensures Finishes(run, i, i) <==> run.outcome.None?
    {
      if run.Onward? {
        OnlyLater(run.rest, i + 1, i);
      }
    }

    /** A failed check ends the mutator. */
    method FailCheck(i: nat, nodes: array<AccountNode?>, specs: array<CreateSpec?>,
            ghost Nd: set<AccountNode>, ghost Sp: set<CreateSpec>, ghost Ms: set<AccountMutation>, ghost F: seq<Row>, failed: CheckError)
        returns (err: Outcome, ghost run: Run, ghost Nd2: set<AccountNode>, ghost Sp2: set<CreateSpec>)
      requires i < |builders| && Verdict(builders[i].mutation.values) == Some(failed)
      requires Arranged(Ms) && Ready(Ms) && Prepared(i, nodes, specs, Nd, Sp) && |F| == i && Hold(F, specs, Sp)
      modifies this`trace
      ensures err.Some? && Nd2 == Nd && Sp2 == Sp
      ensures run.before == old(Now(Ms)) && run.after == Now(Ms) && run.outcome == err
      ensures Follows(HookChain(), run, i, |builders[i].hooks|, F)
      ensures trace == old(trace) + Events(run, i, |builders[i].hooks|)
      ensures forall j :: !Finishes(run, i, j)
      ensures !Landed(run)
    {
      hide Follows, Finishes, Events, Verdict, Hold, Sound, TypedFields, Acceptable;
      NowIs(Ms);
      trace := trace + [Checked(i, false)];
      err, Nd2, Sp2 := Some(CheckFailed(failed)), Nd, Sp;
      run := Stopped(Now(Ms), Now(Ms), err);
      StoppedFollows(HookChain(), Now(Ms), i, F);
    }

    lemma NothingSaved(run: Run, i: nat, nodes: array<AccountNode?>, specs: array<CreateSpec?>,
                       Nd: set<AccountNode>, Sp: set<CreateSpec>, Ms: set<AccountMutation>)
      requires Arranged(Ms) && nodes.Length == specs.Length == |builders| && !Landed(run) && forall j :: !Finishes(run, i, j)
      ensures AllSaved(i, run, i, nodes, specs, Nd, Sp, Ms)
    {
    }

    /** The mutator itself. */
    method MutateInner(i: nat, nodes: array<AccountNode?>, specs: array<CreateSpec?>,
            ghost Nd: set<AccountNode>, ghost Sp: set<CreateSpec>, ghost Ms: set<AccountMutation>, ghost F: seq<Row>)
        returns (err: Outcome, ghost run: Run, ghost Nd2: set<AccountNode>, ghost Sp2: set<CreateSpec>)
      requires i < |builders|
      requires Arranged(Ms) && Ready(Ms) && Prepared(i, nodes, specs, Nd, Sp) && |F| == i && Hold(F, specs, Sp)
      modifies this`batches, this`trace, nodes, specs, Nd`fields, Sp`id, Ms`values, Ms`edges, Ms`node, Ms`done
      decreases |builders| - i, 0, 1, 1
      ensures Ready(Ms) && Prepared(i, nodes, specs, Nd2, Sp2)
      ensures Nd <= Nd2 && Sp <= Sp2 && fresh(Nd2 - Nd) && fresh(Sp2 - Sp)
      ensures forall k | 0 <= k < i :: nodes[k] == old(nodes[k]) && specs[k] == old(specs[k]) && nodes[k].fields == old(nodes[k].fields)
      ensures forall k | 0 <= k < i :: Untouched(builders[k].mutation)
      ensures run.before == old(Now(Ms)) && run.after == Now(Ms) && run.outcome == err
      ensures Follows(HookChain(), run, i, |builders[i].hooks|, F)
      ensures trace == old(trace) + Events(run, i, |builders[i].hooks|)
      ensures forall j | i <= j < |builders| :: builders[j].mutation.done == (old(builders[j].mutation.done) || Finishes(run, i, j))
      ensures Once(HookChain(), i, |builders[i].hooks|) ==> AllSaved(i, run, i, nodes, specs, Nd2, Sp2, Ms)
    {
      hide TextWithin, Follows, Finishes, Events, AllSaved, Landed, Once, Hold, Acceptable, Sound, TypedFields, Verdict, Now;
      var failed := Check(builders[i].mutation);
      if failed.Some? {
        err, run, Nd2, Sp2 := FailCheck(i, nodes, specs, Nd, Sp, Ms, F, failed.value);
        NothingSaved(run, i, nodes, specs, Nd2, Sp2, Ms);
      } else {
        err, run, Nd2, Sp2 := MutateChecked(i, nodes, specs, Nd, Sp, Ms, F);
      }
    }

    // ------------------------------------------------------------- the save

    /** No mutation is done. */
    ghost predicate NoneDone(Ms: set<AccountMutation>)
      requires Arranged(Ms) && Ready(Ms)
      reads Ms`values, Ms`done
    {
      forall j | 0 <= j < |builders| :: !builders[j].mutation.done
    }

    ghost predicate AllDone(Ms: set<AccountMutation>)
      requires Arranged(Ms) && Ready(Ms)
      reads Ms`values, Ms`done
    {
      forall j | 0 <= j < |builders| :: builders[j].mutation.done
    }

    /** Every mutation has its defaults filled in, and its edges as before. */
    ghost predicate Defaulted(before: seq<Draft>, after: seq<Draft>) {
      && |before| == |after|
      && forall j | 0 <= j < |after| :: after[j].edges == before[j].edges && Filled(before[j].values, after[j].values, 11, now, now)
    }

    /** The defaults of all builders, before the chain starts. */
    method AllDefaults(ghost Ms: set<AccountMutation>)
      requires Arranged(Ms) && Ready(Ms)
      modifies Ms`values
      ensures Ready(Ms) && Defaulted(old(Now(Ms)).drafts, Now(Ms).drafts)
    {
      hide Filled, Sound, TypedFields;
      for i := 0 to |builders|
        invariant Ready(Ms)
        invariant forall j | 0 <= j < i :: Filled(old(builders[j].mutation.values), builders[j].mutation.values, 11, now, now)
        invariant forall j | i <= j < |builders| :: builders[j].mutation.values == old(builders[j].mutation.values)
      {
        Defaults(builders[i].mutation, now, now);
      }
    }

    /** All builders are stored: the entities show the values and keys of the mutations and the ids of the batch. */
    ghost predicate Stored(nodes: seq<AccountNode?>, Nd: set<AccountNode>, Ms: set<AccountMutation>)
      reads this`batches, Nd`fields, Ms
    {
      && |nodes| == |builders| && batches > 0 && database(batches - 1).Inserted?
      && forall j | 0 <= j < |builders| :: StoredOne(j, nodes[j], Nd, Ms)
    }

    ghost predicate StoredOne(j: nat, node: AccountNode?, Nd: set<AccountNode>, Ms: set<AccountMutation>)
      requires j < |builders| && batches > 0 && database(batches - 1).Inserted?
      reads this`batches, Nd`fields, Ms
    {
      var m := builders[j].mutation;
      && m in Ms && node != null && node in Nd && m.done && m.node == node && Acceptable(m.values)
      && (database(batches - 1).ids(j).Some? ==> node.fields.id == database(batches - 1).ids(j).value)
      && node.fields.numbers.proxyID == First(m.edges.proxies) && node.fields.numbers.parentAccountID == First(m.edges.parents)
      && forall c: Column | IsField(c) :: CellOf(node.fields, c) == if c in m.values then m.values[c] else CellOf(ZERO_ACCOUNT, c)
    }

    lemma StoredAll(run: Run, nodes: array<AccountNode?>, specs: array<CreateSpec?>, Nd: set<AccountNode>, Sp: set<CreateSpec>,
                    Ms: set<AccountMutation>)
      requires Arranged(Ms) && nodes.Length == specs.Length == |builders| && AllSaved(0, run, 0, nodes, specs, Nd, Sp, Ms)
      requires Landed(run) && forall j | 0 <= j < |builders| :: Finishes(run, 0, j)
      ensures Stored(nodes[..], Nd, Ms)
    {
      hide Acceptable, CellOf, Finishes, EdgesOf, Landed, Sound, TypedFields;
      forall j | 0 <= j < |builders| ensures StoredOne(j, nodes[j], Nd, Ms) {
        assert Finishes(run, 0, j) && Saved(j, nodes, specs, Nd, Sp, Ms);
      }
    }

    /** Runs the chain, once the defaults are filled in. */
    method RunChain(ghost Ms: set<AccountMutation>)
        returns (result: Outcome, saved: seq<AccountNode?>, ghost run: Run, ghost Nd: set<AccountNode>)
      requires Arranged(Ms) && Ready(Ms) && builders != []
      modifies this`batches, this`trace, Ms`values, Ms`edges, Ms`node, Ms`done
      ensures fresh(Nd) && Ready(Ms) && (result.None? ==> |saved| == |builders|)
      ensures run.before == old(Now(Ms)) && run.after == Now(Ms) && run.outcome == result
      ensures Follows(HookChain(), run, 0, 0, []) && trace == old(trace) + Events(run, 0, 0)
      ensures forall j | 0 <= j < |builders| :: builders[j].mutation.done == (old(builders[j].mutation.done) || Finishes(run, 0, j))
      ensures Once(HookChain(), 0, 0) && result.None? && Landed(run) && (forall j | 0 <= j < |builders| :: Finishes(run, 0, j)) ==>
                Stored(saved, Nd, Ms)
    {
      hide Follows, Finishes, Events, Once, AllSaved, Stored, Hold, Sound, TypedFields, Landed, Now;
      var nodes := new AccountNode?[|builders|](_ => null);
      var specs := new CreateSpec?[|builders|](_ => null);
      ghost var Sp;
      NothingHeld(specs);
      result, run, Nd, Sp := Mutate(0, 0, nodes, specs, {}, {}, Ms, []);
      saved := if result.None? then nodes[..] else [];
      if Once(HookChain(), 0, 0) && Landed(run) && forall j | 0 <= j < |builders| :: Finishes(run, 0, j) {
        StoredAll(run, nodes, specs, Nd, Sp, Ms);
      }
    }

    /** What `Save` promises about the trace, whatever the hooks do. */
    ghost predicate Ordered(run: Run, seg: seq<Event>) {
      && seg == Events(run, 0, 0) && WellNested(Shape(HookChain()), seg) && InsertsChecked(seg, 0, |builders|, [])
      && run.after.batches == run.before.batches + Inserts(seg)
    }

    /**
     `Save`.  Whatever the hooks do, the hooks are entered and left inside out with `hooks[0]` of the first
     builder outermost, and no row is inserted that has not passed its check.  With hooks that call once, all
     builders are saved or none is, exactly if no reached builder's hooks hide or invent an error; what is
     inserted then are the final mutations in builder order.
     */
    method Save(ghost Ms: set<AccountMutation>)
        returns (result: Outcome, saved: seq<AccountNode?>, ghost run: Option<Run>, ghost Nd: set<AccountNode>)
      requires Arranged(Ms) && Ready(Ms)
      modifies this`batches, this`trace, Ms`values, Ms`edges, Ms`node, Ms`done
      ensures fresh(Nd) && Ready(Ms)
      ensures run.None? <==> err.Some? || builders == []
      ensures err.Some? ==> result.Some? && trace == old(trace) && Now(Ms) == old(Now(Ms))
      ensures err.None? && builders == [] ==> result.None? && saved == [] && trace == old(trace)
      ensures run.Some? ==>
                && Defaulted(old(Now(Ms)).drafts, run.value.before.drafts) && run.value.before.batches == old(batches)
                && run.value.after == Now(Ms) && run.value.outcome == result && (result.None? ==> |saved| == |builders|)
                && Follows(HookChain(), run.value, 0, 0, []) && trace == old(trace) + Events(run.value, 0, 0)
                && Ordered(run.value, Events(run.value, 0, 0))
      ensures run.Some? ==> forall j | 0 <= j < |builders| ::
                builders[j].mutation.done == (old(builders[j].mutation.done) || Finishes(run.value, 0, j))
      ensures run.Some? && Once(HookChain(), 0, 0) && old(NoneDone(Ms)) ==>
                && |run.value.before.drafts| == |builders|
                && ((if result.Some? then NoneDone(Ms) else AllDone(Ms)) <==> KeepsOutcomes(HookChain(), 0, run.value.before))
      ensures run.Some? && Once(HookChain(), 0, 0) && old(NoneDone(Ms)) && result.None? && AllDone(Ms) ==>
                && Stored(saved, Nd, Ms) && Inserts(Events(run.value, 0, 0)) == 1
                && RowsShow(Events(run.value, 0, 0), 0, Now(Ms), now)
    {
      hide Follows, Finishes, Events, Once, Stored, Defaulted, Sound, TypedFields, Ordered, KeepsOutcomes, Inserts, RowsShow, Landed, Now;
      Nd, saved, run := {}, [], None;
      if err.Some? {
        return Some(BuilderError(err.value)), saved, run, Nd;
      }
      AllDefaults(Ms);
      if |builders| == 0 {
        return None, saved, run, Nd;
      }
      NowIs(Ms);
      ghost var tree;
      result, saved, tree, Nd := RunChain(Ms);
      run := Some(tree);
      WholeRun(tree);
      if Once(HookChain(), 0, 0) {
        OnceWhole(tree);
      }
    }

    lemma NothingHeld(specs: array<CreateSpec?>)
      ensures Hold([], specs, {})
    {
    }

    lemma WholeRun(run: Run)
      requires builders != [] && Follows(HookChain(), run, 0, 0, [])
      ensures Ordered(run, Events(run, 0, 0))
    {
      hide Follows, WellNested, InsertsChecked, Inserts, Events;
      NestedWhole(HookChain(), run);
      RunIsChecked(HookChain(), run, 0, 0, []);
      BatchesCount(HookChain(), run, 0, 0, []);
    }

    lemma OnceWhole(run: Run)
      requires builders != [] && Follows(HookChain(), run, 0, 0, []) && Once(HookChain(), 0, 0)
      ensures |run.before.drafts| == |builders|
      ensures AllOrNone(run, 0, |builders|) <==> KeepsOutcomes(HookChain(), 0, run.before)
      ensures Landed(run) <==> Finishes(run, 0, |builders| - 1)
      ensures Landed(run) ==> Inserts(Events(run, 0, 0)) == 1
      ensures RowsShow(Events(run, 0, 0), 0, run.after, now)
    {
      hide Events, Once, KeepsOutcomes, Inserts, RowsShow, AllOrNone, Finishes, Landed, CallsLink, Verdict;
      AllOrNothingIff(HookChain(), run, 0, []);
      OnceInserts(HookChain(), run, 0, 0, []);
      OnceRows(HookChain(), run, 0, 0, []);
    }
  }
}
