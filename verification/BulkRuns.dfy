/**
 The chain of mutators of a bulk create, as values.

 The mutator of builder `i`, wrapped in the hooks of builder `i`, checks its row and then runs the mutator
 of builder `i + 1`; the last one inserts all rows.  A hook sees the mutation and the outcomes of its
 calls so far.  It may edit the mutation before every call, call the next mutator as often as it
 decides, and report whatever it likes.  A `Run` is the tree of calls that such a chain makes.
 */
module BulkRuns {
  import opened Wrappers
  import opened AccountCodec
  import opened AccountCreate
  import opened BulkTrace

  /** The answer of the database to one batch insert: the ids it assigns, or a refusal. */
  datatype BatchOutcome = Inserted(ids: nat -> Option<int>) | Rejected

  datatype BulkError =
    BuilderError(message: string) | CheckFailed(error: CheckError) | InsertFailed | HookFailed(reason: string)

  /** What a mutator returns, as far as errors go. */
  type Outcome = Option<BulkError>

  /**
   A hook around the next mutator: the edited mutation for the next call, if it calls again, and what it
   reports in the end.  It calls at most `limit` times.
   */
  datatype Hook = Hook(limit: nat, next: (Draft, seq<Outcome>) -> Option<Draft>, after: (Draft, seq<Outcome>) -> Outcome) {
    predicate Again(d: Draft, outcomes: seq<Outcome>) {
      |outcomes| < limit && next(d, outcomes).Some?
    }
  }

  datatype MutatorChain = MutatorChain(hooks: seq<seq<Hook>>, database: nat -> BatchOutcome, now: Time)

  function Shape(c: MutatorChain): (r: seq<nat>)
    ensures |r| == |c.hooks| && forall i | 0 <= i < |r| :: r[i] == |c.hooks[i]|
  {
    seq(|c.hooks|, i requires 0 <= i < |c.hooks| => |c.hooks[i]|)
  }

  /** The mutations of all builders and the number of batches that the database has seen. */
  datatype BatchState = BatchState(drafts: seq<Draft>, batches: nat)

  /** What happened from one position on. */
  datatype Run =
    // the check failed
    Stopped(before: BatchState, after: BatchState, outcome: Outcome) |
    // the last check passed, and all rows were sent to the database
    Last(before: BatchState, after: BatchState, outcome: Outcome, rows: seq<Row>) |
    // the check passed, and the mutator of the next builder ran
    Onward(before: BatchState, after: BatchState, outcome: Outcome, rest: Run) |
    // a hook around its calls
    Hooked(before: BatchState, after: BatchState, outcome: Outcome, calls: seq<Run>)

  function RowOf(d: Draft, joined: Time): Row {
    Row(d.values, EdgesOf(d.edges, joined))
  }

  function Outcomes(calls: seq<Run>): (r: seq<Outcome>)
    ensures |r| == |calls| && forall k | 0 <= k < |r| :: r[k] == calls[k].outcome
  {
    seq(|calls|, k requires 0 <= k < |calls| => calls[k].outcome)
  }

  /** The state in which a hook decides whether to make call `k`. */
  function Prior(before: BatchState, calls: seq<Run>, k: nat): BatchState
    requires k <= |calls|
  {
    if k == 0 then before else calls[k - 1].after
  }

  /** The hook calls again, and the call starts with the mutation as the hook has edited it. */
  ghost predicate Called(hook: Hook, i: nat, prior: BatchState, outcomes: seq<Outcome>, entered: BatchState) {
    && i < |prior.drafts| && hook.Again(prior.drafts[i], outcomes)
    && entered == prior.(drafts := prior.drafts[i := hook.next(prior.drafts[i], outcomes).value])
  }

  ghost predicate CallsLink(hook: Hook, i: nat, before: BatchState, calls: seq<Run>) {
    forall k | 0 <= k < |calls| :: Called(hook, i, Prior(before, calls, k), Outcomes(calls[..k]), calls[k].before)
  }

  /** The run is what the chain does from position `(i, h)` on, when the earlier builders have prepared the rows `F`. */
  ghost predicate Follows(c: MutatorChain, run: Run, i: nat, h: nat, F: seq<Row>)
    requires i < |c.hooks| && h <= |c.hooks[i]|
    decreases run
  {
    && |run.before.drafts| == |run.after.drafts| == |c.hooks|
    && match run
       case Stopped(before, after, outcome) =>
         && h == |c.hooks[i]| && after == before
         && Verdict(before.drafts[i].values).Some?
         && outcome == Some(CheckFailed(Verdict(before.drafts[i].values).value))
       case Last(before, after, outcome, rows) =>
         && h == |c.hooks[i]| && i + 1 == |c.hooks| && Verdict(before.drafts[i].values).None?
         && rows == F + [RowOf(before.drafts[i], c.now)]
         && after == before.(batches := before.batches + 1)
         && outcome == if c.database(before.batches).Inserted? then None else Some(InsertFailed)
       case Onward(before, after, outcome, rest) =>
         && h == |c.hooks[i]| && i + 1 < |c.hooks| && Verdict(before.drafts[i].values).None?
         && rest.before == before && rest.after == after && rest.outcome == outcome
         && Follows(c, rest, i + 1, 0, F + [RowOf(before.drafts[i], c.now)])
       case Hooked(before, after, outcome, calls) =>
         && h < |c.hooks[i]| && CallsLink(c.hooks[i][h], i, before, calls)
         && (forall k | 0 <= k < |calls| :: Follows(c, calls[k], i, h + 1, F))
         && after == Prior(before, calls, |calls|)
         && !c.hooks[i][h].Again(after.drafts[i], Outcomes(calls))
         && outcome == c.hooks[i][h].after(after.drafts[i], Outcomes(calls))
  }

  /** The calls that hook `h` of builder `i` has made so far. */
  ghost predicate LinkedCalls(c: MutatorChain, calls: seq<Run>, i: nat, h: nat, start: BatchState, F: seq<Row>)
    requires i < |c.hooks| && h < |c.hooks[i]|
  {
    && |start.drafts| == |c.hooks| && CallsLink(c.hooks[i][h], i, start, calls)
    && forall k | 0 <= k < |calls| :: Follows(c, calls[k], i, h + 1, F)
  }

  lemma NoCalls(c: MutatorChain, i: nat, h: nat, start: BatchState, F: seq<Row>)
    requires i < |c.hooks| && h < |c.hooks[i]| && |start.drafts| == |c.hooks|
    ensures LinkedCalls(c, [], i, h, start, F) && Outcomes([]) == []
  {
  }

  lemma CallsLinkMore(hook: Hook, i: nat, start: BatchState, calls: seq<Run>, run: Run)
    requires CallsLink(hook, i, start, calls)
    requires Called(hook, i, Prior(start, calls, |calls|), Outcomes(calls), run.before)
    ensures CallsLink(hook, i, start, calls + [run])
  {
    hide Called, Outcomes;
    var more := calls + [run];
    forall k | 0 <= k < |more|
      ensures Called(hook, i, Prior(start, more, k), Outcomes(more[..k]), more[k].before)
    {
      if k < |calls| {
        assert more[..k] == calls[..k] && more[k] == calls[k];
        assert Prior(start, more, k) == Prior(start, calls, k);
        assert Called(hook, i, Prior(start, calls, k), Outcomes(calls[..k]), calls[k].before);
      } else {
        assert more[..k] == calls;
        assert Prior(start, more, k) == Prior(start, calls, k);
      }
    }
  }

  /** One more call. */
  lemma LinkedMore(c: MutatorChain, calls: seq<Run>, run: Run, i: nat, h: nat, start: BatchState, F: seq<Row>)
    requires i < |c.hooks| && h < |c.hooks[i]| && LinkedCalls(c, calls, i, h, start, F) && Follows(c, run, i, h + 1, F)
    requires Called(c.hooks[i][h], i, Prior(start, calls, |calls|), Outcomes(calls), run.before)
    ensures LinkedCalls(c, calls + [run], i, h, start, F)
    ensures Outcomes(calls + [run]) == Outcomes(calls) + [run.outcome]
    ensures Prior(start, calls + [run], |calls| + 1) == run.after
  {
    hide Follows, Called, CallsLink;
    CallsLinkMore(c.hooks[i][h], i, start, calls, run);
    assert Outcomes(calls + [run]) == Outcomes(calls) + [run.outcome];
  }

  /** The calls of a hook that stops make a run of the hook. */
  lemma HookedFollows(c: MutatorChain, before: BatchState, calls: seq<Run>, i: nat, h: nat, F: seq<Row>)
    requires i < |c.hooks| && h < |c.hooks[i]| && LinkedCalls(c, calls, i, h, before, F)
    ensures var after := Prior(before, calls, |calls|);
            && |after.drafts| == |c.hooks|
            && (!c.hooks[i][h].Again(after.drafts[i], Outcomes(calls)) ==>
                  Follows(c, Hooked(before, after, c.hooks[i][h].after(after.drafts[i], Outcomes(calls)), calls), i, h, F))
  {
    hide CallsLink, Hook.Again;
    if calls != [] {
      assert Follows(c, calls[|calls| - 1], i, h + 1, F);
    }
  }

  /** The events of a run that starts at position `(i, h)`. */
  function Events(run: Run, i: nat, h: nat): seq<Event>
    decreases run
  {
    match run
    case Stopped(_, _, _) => [Checked(i, false)]
    case Last(_, _, outcome, rows) => [Checked(i, true), Insert(rows, outcome.None?)]
    case Onward(_, _, _, rest) => [Checked(i, true)] + Events(rest, i + 1, 0)
    case Hooked(_, _, outcome, calls) => [Enter(i, h)] + EventsAll(calls, i, h + 1) + [Exit(i, h, outcome.Some?)]
  }

  function EventsAll(calls: seq<Run>, i: nat, h: nat): seq<Event>
    decreases calls
  {
    if calls == [] then [] else Events(calls[0], i, h) + EventsAll(calls[1..], i, h)
  }

  /** The run, started at builder `i`, marks the mutation of builder `j` as done. */
  predicate Finishes(run: Run, i: nat, j: nat)
    decreases run
  {
    match run
    case Stopped(_, _, _) => false
    case Last(_, _, outcome, _) => j == i && outcome.None?
    case Onward(_, _, outcome, rest) => (j == i && outcome.None?) || Finishes(rest, i + 1, j)
    case Hooked(_, _, _, calls) => FinishesAny(calls, i, j)
  }

  predicate FinishesAny(calls: seq<Run>, i: nat, j: nat)
    decreases calls
  {
    calls != [] && (Finishes(calls[0], i, j) || FinishesAny(calls[1..], i, j))
  }

  lemma OnwardFollows(c: MutatorChain, before: BatchState, rest: Run, i: nat, F: seq<Row>)
    requires i + 1 < |c.hooks| == |before.drafts| && Acceptable(before.drafts[i].values) && rest.before == before
    requires Follows(c, rest, i + 1, 0, F + [RowOf(before.drafts[i], c.now)])
    ensures var run := Onward(before, rest.after, rest.outcome, rest);
            && Follows(c, run, i, |c.hooks[i]|, F)
            && Events(run, i, |c.hooks[i]|) == [Checked(i, true)] + Events(rest, i + 1, 0)
            && forall j | i < j :: Finishes(run, i, j) <==> Finishes(rest, i + 1, j)
  {
    hide Acceptable, EdgesOf;
  }

  lemma LastFollows(c: MutatorChain, before: BatchState, i: nat, F: seq<Row>)
    requires i + 1 == |c.hooks| == |before.drafts| && Acceptable(before.drafts[i].values)
    ensures var outcome := if c.database(before.batches).Inserted? then None else Some(InsertFailed);
            var rows := F + [RowOf(before.drafts[i], c.now)];
            var run := Last(before, before.(batches := before.batches + 1), outcome, rows);
            && Follows(c, run, i, |c.hooks[i]|, F)
            && Events(run, i, |c.hooks[i]|) == [Checked(i, true)] + [Insert(rows, outcome.None?)]
  {
    hide Acceptable, EdgesOf;
  }

  lemma StoppedFollows(c: MutatorChain, before: BatchState, i: nat, F: seq<Row>)
    requires i < |c.hooks| == |before.drafts| && !Acceptable(before.drafts[i].values)
    ensures var run := Stopped(before, before, Some(CheckFailed(Verdict(before.drafts[i].values).value)));
            && Follows(c, run, i, |c.hooks[i]|, F)
            && Events(run, i, |c.hooks[i]|) == [Checked(i, false)] && forall j :: !Finishes(run, i, j)
  {
    hide Acceptable, EdgesOf;
  }

  // ---------------------------------------------------------------- nesting

  /** A run happens inside exactly the hooks before its position. */
  lemma {:induction false} Nested(c: MutatorChain, run: Run, i: nat, h: nat, F: seq<Row>)
    requires i < |c.hooks| && h <= |c.hooks[i]| && Follows(c, run, i, h, F)
    ensures HappensAt(Shape(c), i, h, Events(run, i, h))
    decreases run
  {
    hide HappensAt, Verdict, CallsLink, EdgesOf;
    var shape := Shape(c);
    match run {
      case Stopped(_, _, _) =>
        CheckHappens(shape, i, false);
      case Last(_, _, outcome, rows) =>
        CheckHappens(shape, i, true);
        InsertHappens(shape, i, rows, outcome.None?);
        HappensConcat(shape, i, h, [Checked(i, true)], [Insert(rows, outcome.None?)]);
        assert Events(run, i, h) == [Checked(i, true)] + [Insert(rows, outcome.None?)];
      case Onward(before, _, _, rest) =>
        Nested(c, rest, i + 1, 0, F + [RowOf(before.drafts[i], c.now)]);
        CheckHappens(shape, i, true);
        HappensNext(shape, i, Events(rest, i + 1, 0));
        HappensConcat(shape, i, h, [Checked(i, true)], Events(rest, i + 1, 0));
      case Hooked(_, _, outcome, calls) =>
        NestedAll(c, calls, i, h + 1, F);
        HookHappens(shape, i, h, EventsAll(calls, i, h + 1), outcome.Some?);
    }
  }

  lemma {:induction false} NestedAll(c: MutatorChain, calls: seq<Run>, i: nat, h: nat, F: seq<Row>)
    requires i < |c.hooks| && h <= |c.hooks[i]| && forall k | 0 <= k < |calls| :: Follows(c, calls[k], i, h, F)
    ensures HappensAt(Shape(c), i, h, EventsAll(calls, i, h))
    decreases calls
  {
    hide HappensAt, Follows;
    if calls == [] {
      NothingHappens(Shape(c), i, h);
    } else {
      Nested(c, calls[0], i, h, F);
      NestedAll(c, calls[1..], i, h, F);
      HappensConcat(Shape(c), i, h, Events(calls[0], i, h), EventsAll(calls[1..], i, h));
    }
  }

  /** The whole run is well nested. */
  lemma NestedWhole(c: MutatorChain, run: Run)
    requires |c.hooks| > 0 && Follows(c, run, 0, 0, [])
    ensures WellNested(Shape(c), Events(run, 0, 0))
  {
    Nested(c, run, 0, 0, []);
  }

  // ---------------------------------------------------------------- checks

  /** Builder `j` has passed its check before event `p`. */
  ghost predicate CheckedBefore(trace: seq<Event>, p: nat, j: nat)
    requires p <= |trace|
  {
    exists q :: 0 <= q < p && trace[q] == Checked(j, true)
  }

  ghost predicate Accepted(rows: seq<Row>) {
    forall j | 0 <= j < |rows| :: Acceptable(rows[j].fields)
  }

  /**
   Every insert has `n` rows, the first of them `F` and all of them acceptable, and comes after a passed
   check of each builder from `i` on.
   */
  ghost predicate InsertsChecked(trace: seq<Event>, i: nat, n: nat, F: seq<Row>) {
    forall p | 0 <= p < |trace| && trace[p].Insert? :: InsertChecked(trace, i, n, F, p)
  }

  ghost predicate InsertChecked(trace: seq<Event>, i: nat, n: nat, F: seq<Row>, p: nat)
    requires p < |trace| && trace[p].Insert?
  {
    && |trace[p].rows| == n && F <= trace[p].rows && Accepted(trace[p].rows)
    && forall j | i <= j < n :: CheckedBefore(trace, p, j)
  }

  /** More events in front and behind, with earlier checks or fewer rows to vouch for. */
  lemma InsertCheckedInside(a: seq<Event>, b: seq<Event>, d: seq<Event>, i: nat, n: nat, F: seq<Row>, p: nat)
    requires p < |b| && b[p].Insert? && InsertChecked(b, i, n, F, p)
    ensures (a + b + d)[|a| + p] == b[p] && InsertChecked(a + b + d, i, n, F, |a| + p)
  {
    var s, at := a + b + d, |a| + p;
    assert s[at] == b[p];
    forall j | i <= j < n ensures CheckedBefore(s, at, j) {
      assert CheckedBefore(b, p, j);
      var q :| 0 <= q < p && b[q] == Checked(j, true);
      assert s[|a| + q] == b[q];
    }
  }

  lemma InsertsCheckedConcat(a: seq<Event>, b: seq<Event>, i: nat, n: nat, F: seq<Row>)
    requires InsertsChecked(a, i, n, F) && InsertsChecked(b, i, n, F)
    ensures InsertsChecked(a + b, i, n, F)
  {
    hide InsertChecked;
    forall p | 0 <= p < |a + b| && (a + b)[p].Insert? ensures InsertChecked(a + b, i, n, F, p) {
      if p < |a| {
        assert a[p].Insert?;
        InsertCheckedInside([], a, b, i, n, F, p);
        assert [] + a + b == a + b;
      } else {
        assert b[p - |a|].Insert?;
        InsertCheckedInside(a, b, [], i, n, F, p - |a|);
        assert a + b + [] == a + b;
      }
    }
  }

  lemma InsertsCheckedHook(body: seq<Event>, i: nat, h: nat, failed: bool, n: nat, F: seq<Row>)
    requires InsertsChecked(body, i, n, F)
    ensures InsertsChecked([Enter(i, h)] + body + [Exit(i, h, failed)], i, n, F)
  {
    hide InsertChecked;
    InsertsCheckedConcat([Enter(i, h)], body, i, n, F);
    InsertsCheckedConcat([Enter(i, h)] + body, [Exit(i, h, failed)], i, n, F);
  }

  lemma InsertsCheckedNext(rest: seq<Event>, i: nat, n: nat, F: seq<Row>, row: Row)
    requires InsertsChecked(rest, i + 1, n, F + [row])
    ensures InsertsChecked([Checked(i, true)] + rest, i, n, F)
  {
    var s := [Checked(i, true)] + rest;
    forall p | 0 <= p < |s| && s[p].Insert? ensures InsertChecked(s, i, n, F, p) {
      assert rest[p - 1].Insert? && InsertChecked(rest, i + 1, n, F + [row], p - 1);
      forall j | i <= j < n ensures CheckedBefore(s, p, j) {
        if j == i {
          assert s[0] == Checked(i, true);
        } else {
          assert CheckedBefore(rest, p - 1, j);
          var q :| 0 <= q < p - 1 && rest[q] == Checked(j, true);
          assert s[1 + q] == rest[q];
        }
      }
    }
  }

  lemma InsertsCheckedLast(rows: seq<Row>, inserted: bool, i: nat, n: nat, F: seq<Row>)
    requires i + 1 == n == |rows| && F <= rows && Accepted(rows)
    ensures InsertsChecked([Checked(i, true), Insert(rows, inserted)], i, n, F)
  {
    var s := [Checked(i, true), Insert(rows, inserted)];
    assert s[0] == Checked(i, true);
  }

  /** Whatever the hooks do, no row is inserted that has not passed its check. */
  lemma {:induction false} RunIsChecked(c: MutatorChain, run: Run, i: nat, h: nat, F: seq<Row>)
    requires i < |c.hooks| && h <= |c.hooks[i]| && Follows(c, run, i, h, F) && |F| == i && Accepted(F)
    ensures InsertsChecked(Events(run, i, h), i, |c.hooks|, F)
    decreases run
  {
    hide InsertsChecked, CallsLink, EdgesOf, Acceptable;
    match run {
      case Stopped(_, _, _) =>
        StoppedIsChecked(i, |c.hooks|, F);
      case Last(_, _, outcome, rows) =>
        InsertsCheckedLast(rows, outcome.None?, i, |c.hooks|, F);
      case Onward(before, _, _, rest) =>
        var row := RowOf(before.drafts[i], c.now);
        assert Accepted(F + [row]);
        RunIsChecked(c, rest, i + 1, 0, F + [row]);
        InsertsCheckedNext(Events(rest, i + 1, 0), i, |c.hooks|, F, row);
      case Hooked(_, _, outcome, calls) =>
        CallsAreChecked(c, calls, i, h + 1, F);
        InsertsCheckedHook(EventsAll(calls, i, h + 1), i, h, outcome.Some?, |c.hooks|, F);
    }
  }

  lemma StoppedIsChecked(i: nat, n: nat, F: seq<Row>)
    ensures InsertsChecked([Checked(i, false)], i, n, F) && InsertsChecked([], i, n, F)
  {
  }

  lemma {:induction false} CallsAreChecked(c: MutatorChain, calls: seq<Run>, i: nat, h: nat, F: seq<Row>)
    requires i < |c.hooks| && h <= |c.hooks[i]| && |F| == i && Accepted(F)
    requires forall k | 0 <= k < |calls| :: Follows(c, calls[k], i, h, F)
    ensures InsertsChecked(EventsAll(calls, i, h), i, |c.hooks|, F)
    decreases calls
  {
    hide InsertsChecked, Follows, Accepted;
    if calls == [] {
      StoppedIsChecked(i, |c.hooks|, F);
    } else {
      RunIsChecked(c, calls[0], i, h, F);
      CallsAreChecked(c, calls[1..], i, h, F);
      InsertsCheckedConcat(Events(calls[0], i, h), EventsAll(calls[1..], i, h), i, |c.hooks|, F);
    }
  }

  // ---------------------------------------------------------------- batches

  lemma CountsOfNone(j: nat, g: nat)
    ensures Inserts([]) == 0 && Entered([], j, g) == 0
  {
  }

  lemma CountsOfStop(i: nat, j: nat, g: nat)
    ensures Inserts([Checked(i, false)]) == 0 && Entered([Checked(i, false)], j, g) == 0
  {
    CountsOfOne(Checked(i, false), j, g);
  }

  lemma CountsOfNext(i: nat, rest: seq<Event>, j: nat, g: nat)
    ensures Inserts([Checked(i, true)] + rest) == Inserts(rest) && Entered([Checked(i, true)] + rest, j, g) == Entered(rest, j, g)
  {
    InsertsConcat([Checked(i, true)], rest);
    EnteredConcat([Checked(i, true)], rest, j, g);
    CountsOfOne(Checked(i, true), j, g);
  }

  lemma CountsOfLast(i: nat, rows: seq<Row>, inserted: bool, j: nat, g: nat)
    ensures Inserts([Checked(i, true), Insert(rows, inserted)]) == 1
    ensures Entered([Checked(i, true), Insert(rows, inserted)], j, g) == 0
  {
    CountsOfNext(i, [Insert(rows, inserted)], j, g);
    CountsOfOne(Insert(rows, inserted), j, g);
    assert [Checked(i, true), Insert(rows, inserted)] == [Checked(i, true)] + [Insert(rows, inserted)];
  }

  lemma CountsOfHook(body: seq<Event>, i: nat, h: nat, failed: bool, j: nat, g: nat)
    ensures Inserts([Enter(i, h)] + body + [Exit(i, h, failed)]) == Inserts(body)
    ensures Entered([Enter(i, h)] + body + [Exit(i, h, failed)], j, g) == Entered(body, j, g) + if (i, h) == (j, g) then 1 else 0
  {
    hide Inserts, Entered;
    InsertsConcat([Enter(i, h)], body);
    InsertsConcat([Enter(i, h)] + body, [Exit(i, h, failed)]);
    EnteredConcat([Enter(i, h)], body, j, g);
    EnteredConcat([Enter(i, h)] + body, [Exit(i, h, failed)], j, g);
    CountsOfOne(Enter(i, h), j, g);
    CountsOfOne(Exit(i, h, failed), j, g);
  }

  /** Editing a mutation does not reach the database. */
  ghost predicate BatchesLink(before: BatchState, calls: seq<Run>) {
    forall k | 0 <= k < |calls| :: calls[k].before.batches == Prior(before, calls, k).batches
  }

  lemma EditsKeepBatches(hook: Hook, i: nat, before: BatchState, calls: seq<Run>)
    requires CallsLink(hook, i, before, calls)
    ensures BatchesLink(before, calls)
  {
    forall k | 0 <= k < |calls| ensures calls[k].before.batches == Prior(before, calls, k).batches {
      assert Called(hook, i, Prior(before, calls, k), Outcomes(calls[..k]), calls[k].before);
    }
  }

  /** The database sees one batch per insert. */
  lemma {:induction false} BatchesCount(c: MutatorChain, run: Run, i: nat, h: nat, F: seq<Row>)
    requires i < |c.hooks| && h <= |c.hooks[i]| && Follows(c, run, i, h, F)
    ensures run.after.batches == run.before.batches + Inserts(Events(run, i, h))
    decreases run
  {
    hide Inserts, EdgesOf, Verdict, CallsLink, BatchesLink;
    match run {
      case Stopped(_, _, _) =>
        CountsOfStop(i, 0, 0);
      case Last(_, _, outcome, rows) =>
        CountsOfLast(i, rows, outcome.None?, 0, 0);
      case Onward(before, _, _, rest) =>
        BatchesCount(c, rest, i + 1, 0, F + [RowOf(before.drafts[i], c.now)]);
        CountsOfNext(i, Events(rest, i + 1, 0), 0, 0);
      case Hooked(before, _, outcome, calls) =>
        hide Follows, EventsAll, Prior;
        EditsKeepBatches(c.hooks[i][h], i, before, calls);
        BatchesCountAll(c, before, calls, i, h + 1, F);
        CountsOfHook(EventsAll(calls, i, h + 1), i, h, outcome.Some?, 0, 0);
    }
  }

  lemma {:induction false} BatchesCountAll(c: MutatorChain, before: BatchState, calls: seq<Run>, i: nat, h: nat, F: seq<Row>)
    requires i < |c.hooks| && h <= |c.hooks[i]| && forall k | 0 <= k < |calls| :: Follows(c, calls[k], i, h, F)
    requires BatchesLink(before, calls)
    ensures Prior(before, calls, |calls|).batches == before.batches + Inserts(EventsAll(calls, i, h))
    decreases calls
  {
    hide Inserts, Follows;
    if calls == [] {
      CountsOfNone(0, 0);
    } else {
      BatchesCount(c, calls[0], i, h, F);
      var rest := calls[1..];
      forall k | 0 <= k < |rest| ensures rest[k].before.batches == Prior(calls[0].after, rest, k).batches {
        assert rest[k] == calls[k + 1];
      }
      BatchesCountAll(c, calls[0].after, rest, i, h, F);
      InsertsConcat(Events(calls[0], i, h), EventsAll(rest, i, h));
    }
  }
}
