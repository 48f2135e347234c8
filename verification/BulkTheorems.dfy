/** What every run of a bulk create satisfies: how often hooks are entered, how often the insert runs, and who is done. */
module BulkTheorems {
  import opened Wrappers
  import opened AccountCodec
  import opened AccountCreate
  import opened BulkTrace
  import opened BulkRuns

  predicate NoError(outcomes: seq<Outcome>) {
    forall k | 0 <= k < |outcomes| :: outcomes[k].None?
  }

  /** As long as no call fails, hook `(i, h)` calls the next mutator `n(i, h)` times. */
  ghost predicate Steady(c: MutatorChain, n: (nat, nat) -> nat) {
    forall i, h | 0 <= i < |c.hooks| && 0 <= h < |c.hooks[i]| :: SteadyHook(c.hooks[i][h], n(i, h))
  }

  ghost predicate SteadyHook(hook: Hook, n: nat) {
    forall d, outcomes | NoError(outcomes) :: hook.Again(d, outcomes) <==> |outcomes| < n
  }

  /** No hook reports an error after calls that all succeeded. */
  ghost predicate Relays(c: MutatorChain) {
    forall i, h | 0 <= i < |c.hooks| && 0 <= h < |c.hooks[i]| :: RelaysSuccess(c.hooks[i][h])
  }

  ghost predicate RelaysSuccess(hook: Hook) {
    forall d, outcomes | outcomes != [] && NoError(outcomes) :: hook.after(d, outcomes).None?
  }

  /** The product of the calls of all hooks from position `(i, h)` on. */
  function Product(c: MutatorChain, n: (nat, nat) -> nat, i: nat, h: nat): nat
    requires i < |c.hooks| && h <= |c.hooks[i]|
    decreases |c.hooks| - i, |c.hooks[i]| - h
  {
    if h < |c.hooks[i]| then n(i, h) * Product(c, n, i, h + 1)
    else if i + 1 < |c.hooks| then Product(c, n, i + 1, 0)
    else 1
  }

  /** The product of the calls of the hooks from position `(i, h)` on and before `(j, g)`; 0 if `(j, g)` lies behind. */
  function CallsBefore(c: MutatorChain, n: (nat, nat) -> nat, i: nat, h: nat, j: nat, g: nat): nat
    requires i < |c.hooks| && h <= |c.hooks[i]|
    decreases |c.hooks| - i, |c.hooks[i]| - h
  {
    if (i, h) == (j, g) then 1
    else if h < |c.hooks[i]| then n(i, h) * CallsBefore(c, n, i, h + 1, j, g)
    else if i + 1 < |c.hooks| then CallsBefore(c, n, i + 1, 0, j, g)
    else 0
  }

  lemma {:induction false} NothingBehind(c: MutatorChain, n: (nat, nat) -> nat, i: nat, h: nat, j: nat, g: nat)
    requires i < |c.hooks| && h <= |c.hooks[i]| && (j < i || (j == i && g < h))
    ensures CallsBefore(c, n, i, h, j, g) == 0
    decreases |c.hooks| - i, |c.hooks[i]| - h
  {
    if h < |c.hooks[i]| {
      NothingBehind(c, n, i, h + 1, j, g);
    } else if i + 1 < |c.hooks| {
      NothingBehind(c, n, i + 1, 0, j, g);
    }
  }

  lemma HookStep(c: MutatorChain, n: (nat, nat) -> nat, i: nat, h: nat, j: nat, g: nat)
    requires i < |c.hooks| && h < |c.hooks[i]|
    ensures Product(c, n, i, h) == n(i, h) * Product(c, n, i, h + 1)
    ensures CallsBefore(c, n, i, h, j, g) == n(i, h) * CallsBefore(c, n, i, h + 1, j, g) + if (i, h) == (j, g) then 1 else 0
  {
    if (i, h) == (j, g) {
      NothingBehind(c, n, i, h + 1, j, g);
    }
  }

  lemma BuilderStep(c: MutatorChain, n: (nat, nat) -> nat, i: nat, j: nat, g: nat)
    requires i < |c.hooks| && j < |c.hooks| && g < |c.hooks[j]|
    ensures i + 1 < |c.hooks| ==> Product(c, n, i, |c.hooks[i]|) == Product(c, n, i + 1, 0)
    ensures i + 1 < |c.hooks| ==> CallsBefore(c, n, i, |c.hooks[i]|, j, g) == CallsBefore(c, n, i + 1, 0, j, g)
    ensures i + 1 == |c.hooks| ==> Product(c, n, i, |c.hooks[i]|) == 1 && CallsBefore(c, n, i, |c.hooks[i]|, j, g) == 0
  {
  }

  // --------------------------------------------------- runs without errors

  lemma SmoothHook(i: nat, h: nat, body: seq<Event>, failed: bool)
    ensures Smooth([Enter(i, h)] + body + [Exit(i, h, failed)]) <==> Smooth(body) && !failed
    ensures Clean([Enter(i, h)] + body + [Exit(i, h, failed)]) <==> Clean(body)
  {
    CleanConcat([Enter(i, h)], body);
    CleanConcat([Enter(i, h)] + body, [Exit(i, h, failed)]);
    assert [Exit(i, h, failed)][0].failed == failed;
  }

  lemma SmoothNext(i: nat, rest: seq<Event>)
    ensures Smooth([Checked(i, true)] + rest) <==> Smooth(rest)
    ensures Clean([Checked(i, true)] + rest) <==> Clean(rest)
  {
    CleanConcat([Checked(i, true)], rest);
  }

  lemma SmoothLast(i: nat, rows: seq<Row>, inserted: bool)
    ensures Smooth([Checked(i, true), Insert(rows, inserted)]) <==> inserted
    ensures Clean([Checked(i, true), Insert(rows, inserted)]) <==> inserted
  {
    var s := [Checked(i, true), Insert(rows, inserted)];
    assert s[1] == Insert(rows, inserted);
  }

  lemma StopIsNotClean(i: nat)
    ensures !Clean([Checked(i, false)])
  {
    assert [Checked(i, false)][0].Checked?;
  }

  lemma SteadyDecides(hook: Hook, n: nat, d: Draft, outcomes: seq<Outcome>)
    requires SteadyHook(hook, n) && NoError(outcomes)
    ensures hook.Again(d, outcomes) <==> |outcomes| < n
  {
    hide Hook.Again;
  }

  /** The hook has decided to make its last call. */
  lemma LastCall(hook: Hook, i: nat, before: BatchState, calls: seq<Run>) returns (d: Draft)
    requires CallsLink(hook, i, before, calls) && calls != []
    ensures hook.Again(d, Outcomes(calls[..|calls| - 1]))
  {
    var k := |calls| - 1;
    assert Called(hook, i, Prior(before, calls, k), Outcomes(calls[..k]), calls[k].before);
    hide CallsLink, Hook.Again, Prior;
    d := Prior(before, calls, k).drafts[i];
  }

  lemma NoErrorBefore(calls: seq<Run>, k: nat)
    requires k <= |calls| && NoError(Outcomes(calls))
    ensures NoError(Outcomes(calls[..k]))
  {
    forall l | 0 <= l < k ensures Outcomes(calls[..k])[l].None? {
      assert Outcomes(calls)[l].None?;
    }
  }

  /** A steady hook whose calls all succeed makes as many calls as it says. */
  lemma StopsAfter(hook: Hook, n: nat, i: nat, before: BatchState, calls: seq<Run>, last: Draft)
    requires SteadyHook(hook, n) && CallsLink(hook, i, before, calls) && NoError(Outcomes(calls))
    requires !hook.Again(last, Outcomes(calls))
    ensures |calls| == n
  {
    hide SteadyHook, CallsLink, Hook.Again, NoError;
    SteadyDecides(hook, n, last, Outcomes(calls));
    if calls != [] {
      var d := LastCall(hook, i, before, calls);
      NoErrorBefore(calls, |calls| - 1);
      SteadyDecides(hook, n, d, Outcomes(calls[..|calls| - 1]));
    }
  }

  /**
   On a run without any error hook `(j, g)` is entered as often as the product of the calls of the hooks
   before it, and the insert runs as often as the product of the calls of all hooks.
   */
  lemma {:induction false} SmoothCounts(c: MutatorChain, n: (nat, nat) -> nat, run: Run, i: nat, h: nat, F: seq<Row>, j: nat, g: nat)
    requires i < |c.hooks| && h <= |c.hooks[i]| && Follows(c, run, i, h, F) && Steady(c, n)
    requires Smooth(Events(run, i, h)) && j < |c.hooks| && g < |c.hooks[j]|
    ensures run.outcome.None?
    ensures Inserts(Events(run, i, h)) == Product(c, n, i, h)
    ensures Entered(Events(run, i, h), j, g) == CallsBefore(c, n, i, h, j, g)
    decreases run
  {
    hide Smooth, Clean, Inserts, Entered, CallsLink, SteadyHook, EdgesOf, NoError, Product, CallsBefore, Hook.Again, Verdict, Prior;
    match run {
      case Stopped(_, _, _) =>
        StopIsNotClean(i);
        SmoothIsClean(Events(run, i, h));
      case Last(_, _, outcome, rows) =>
        SmoothLast(i, rows, outcome.None?);
        CountsOfLast(i, rows, outcome.None?, j, g);
        BuilderStep(c, n, i, j, g);
      case Onward(before, _, _, rest) =>
        SmoothNext(i, Events(rest, i + 1, 0));
        SmoothCounts(c, n, rest, i + 1, 0, F + [RowOf(before.drafts[i], c.now)], j, g);
        CountsOfNext(i, Events(rest, i + 1, 0), j, g);
        BuilderStep(c, n, i, j, g);
      case Hooked(before, after, outcome, calls) =>
        SmoothHook(i, h, EventsAll(calls, i, h + 1), outcome.Some?);
        SmoothCountsAll(c, n, calls, i, h + 1, F, j, g);
        StopsAfter(c.hooks[i][h], n(i, h), i, before, calls, after.drafts[i]);
        CountsOfHook(EventsAll(calls, i, h + 1), i, h, outcome.Some?, j, g);
        HookStep(c, n, i, h, j, g);
    }
  }

  lemma SmoothIsClean(trace: seq<Event>)
    ensures Smooth(trace) ==> Clean(trace)
  {
  }

  lemma {:induction false} SmoothCountsAll(c: MutatorChain, n: (nat, nat) -> nat, calls: seq<Run>, i: nat, h: nat, F: seq<Row>, j: nat, g: nat)
    requires i < |c.hooks| && h <= |c.hooks[i]| && Steady(c, n) && j < |c.hooks| && g < |c.hooks[j]|
    requires forall k | 0 <= k < |calls| :: Follows(c, calls[k], i, h, F)
    requires Smooth(EventsAll(calls, i, h))
    ensures NoError(Outcomes(calls))
    ensures Inserts(EventsAll(calls, i, h)) == |calls| * Product(c, n, i, h)
    ensures Entered(EventsAll(calls, i, h), j, g) == |calls| * CallsBefore(c, n, i, h, j, g)
    decreases calls
  {
    hide Smooth, Inserts, Entered, Follows, Steady, Product, CallsBefore;
    if calls == [] {
      CountsOfNone(j, g);
    } else {
      var first, rest := Events(calls[0], i, h), EventsAll(calls[1..], i, h);
      CleanConcat(first, rest);
      SmoothCounts(c, n, calls[0], i, h, F, j, g);
      SmoothCountsAll(c, n, calls[1..], i, h, F, j, g);
      InsertsConcat(first, rest);
      EnteredConcat(first, rest, j, g);
      assert forall k | 1 <= k < |calls| :: calls[k] == calls[1..][k - 1];
      assert forall k | 1 <= k < |calls| :: Outcomes(calls[1..])[k - 1] == calls[k].outcome;
      OneMoreTime(|calls| - 1, Product(c, n, i, h));
      OneMoreTime(|calls| - 1, CallsBefore(c, n, i, h, j, g));
    }
  }

  lemma OneMoreTime(k: nat, x: nat)
    ensures (k + 1) * x == k * x + x
  {
  }

  // ------------------------------------------- runs whose checks and inserts succeed

  /**
   If no check and no insert fails, the insert runs as often as the product of the calls of all hooks: never
   if some hook makes no call.  An error is then reported only if that product is zero.
   */
  lemma {:induction false} CleanInserts(c: MutatorChain, n: (nat, nat) -> nat, run: Run, i: nat, h: nat, F: seq<Row>)
    requires i < |c.hooks| && h <= |c.hooks[i]| && Follows(c, run, i, h, F) && Steady(c, n) && Relays(c)
    requires Clean(Events(run, i, h))
    ensures Inserts(Events(run, i, h)) == Product(c, n, i, h)
    ensures run.outcome.Some? ==> Product(c, n, i, h) == 0
    decreases run
  {
    hide Smooth, Clean, Inserts, Entered, CallsLink, SteadyHook, RelaysSuccess, EdgesOf, Product, CallsBefore, Hook.Again, Verdict, Prior;
    match run {
      case Stopped(_, _, _) =>
        StopIsNotClean(i);
      case Last(_, _, outcome, rows) =>
        SmoothLast(i, rows, outcome.None?);
        CountsOfLast(i, rows, outcome.None?, 0, 0);
        NoMoreBuilders(c, n, i);
      case Onward(before, _, _, rest) =>
        SmoothNext(i, Events(rest, i + 1, 0));
        CleanInserts(c, n, rest, i + 1, 0, F + [RowOf(before.drafts[i], c.now)]);
        CountsOfNext(i, Events(rest, i + 1, 0), 0, 0);
        NoMoreBuilders(c, n, i);
      case Hooked(before, after, outcome, calls) =>
        SmoothHook(i, h, EventsAll(calls, i, h + 1), outcome.Some?);
        CleanInsertsAll(c, n, calls, i, h + 1, F);
        CountsOfHook(EventsAll(calls, i, h + 1), i, h, outcome.Some?, 0, 0);
        HookStep(c, n, i, h, 0, 0);
        HookReports(c.hooks[i][h], n(i, h), i, before, calls, after.drafts[i], Product(c, n, i, h + 1));
    }
  }

  lemma NoMoreBuilders(c: MutatorChain, n: (nat, nat) -> nat, i: nat)
    requires i < |c.hooks|
    ensures Product(c, n, i, |c.hooks[i]|) == if i + 1 < |c.hooks| then Product(c, n, i + 1, 0) else 1
  {
  }

  /** A hook whose calls fail only where nothing can be inserted. */
  lemma HookReports(hook: Hook, n: nat, i: nat, before: BatchState, calls: seq<Run>, last: Draft, p: nat)
    requires SteadyHook(hook, n) && RelaysSuccess(hook) && CallsLink(hook, i, before, calls)
    requires !hook.Again(last, Outcomes(calls)) && (NoError(Outcomes(calls)) || p == 0)
    ensures |calls| * p == n * p
    ensures hook.after(last, Outcomes(calls)).Some? ==> n * p == 0
  {
    hide CallsLink, SteadyHook, Hook.Again, NoError;
    if NoError(Outcomes(calls)) {
      StopsAfter(hook, n, i, before, calls, last);
      assert calls != [] ==> Outcomes(calls) != [];
    } else {
      assert p == 0 && |calls| * 0 == 0 && n * 0 == 0;
    }
  }

  lemma {:induction false} CleanInsertsAll(c: MutatorChain, n: (nat, nat) -> nat, calls: seq<Run>, i: nat, h: nat, F: seq<Row>)
    requires i < |c.hooks| && h <= |c.hooks[i]| && Steady(c, n) && Relays(c)
    requires forall k | 0 <= k < |calls| :: Follows(c, calls[k], i, h, F)
    requires Clean(EventsAll(calls, i, h))
    ensures Inserts(EventsAll(calls, i, h)) == |calls| * Product(c, n, i, h)
    ensures NoError(Outcomes(calls)) || Product(c, n, i, h) == 0
    decreases calls
  {
    hide Clean, Inserts, Follows, Steady, Relays, Product;
    if calls == [] {
      CountsOfNone(0, 0);
    } else {
      var first, rest := Events(calls[0], i, h), EventsAll(calls[1..], i, h);
      CleanConcat(first, rest);
      CleanInserts(c, n, calls[0], i, h, F);
      CleanInsertsAll(c, n, calls[1..], i, h, F);
      InsertsConcat(first, rest);
      assert forall k | 1 <= k < |calls| :: Outcomes(calls[1..])[k - 1] == calls[k].outcome;
      OneMoreTime(|calls| - 1, Product(c, n, i, h));
    }
  }

  /** Hooks that call once multiply to one. */
  lemma {:induction false} ThroughIsOne(c: MutatorChain, n: (nat, nat) -> nat, i: nat, h: nat)
    requires i < |c.hooks| && h <= |c.hooks[i]| && forall j, g :: n(j, g) == 1
    ensures Product(c, n, i, h) == 1
    decreases |c.hooks| - i, |c.hooks[i]| - h
  {
    if h < |c.hooks[i]| {
      ThroughIsOne(c, n, i, h + 1);
    } else if i + 1 < |c.hooks| {
      ThroughIsOne(c, n, i + 1, 0);
    }
  }

  /** One hook that makes no call, and the insert never runs. */
  lemma {:induction false} BlockedIsZero(c: MutatorChain, n: (nat, nat) -> nat, i: nat, h: nat, j: nat, g: nat)
    requires i < |c.hooks| && h <= |c.hooks[i]| && j < |c.hooks| && g < |c.hooks[j]| && n(j, g) == 0
    requires i < j || (i == j && h <= g)
    ensures Product(c, n, i, h) == 0
    decreases |c.hooks| - i, |c.hooks[i]| - h
  {
    if h < |c.hooks[i]| {
      if (i, h) == (j, g) {
        assert 0 * Product(c, n, i, h + 1) == 0;
      } else {
        BlockedIsZero(c, n, i, h + 1, j, g);
        assert n(i, h) * 0 == 0;
      }
    } else {
      BlockedIsZero(c, n, i + 1, 0, j, g);
    }
  }

  // --------------------------------------------------- hooks that call once

  /** The hook calls the next mutator exactly once, and then reports what it likes. */
  ghost predicate OnceHook(hook: Hook) {
    forall d, outcomes :: hook.Again(d, outcomes) <==> outcomes == []
  }

  ghost predicate Once(c: MutatorChain, i: nat, h: nat)
    requires i < |c.hooks|
  {
    && (forall g | h <= g < |c.hooks[i]| :: OnceHook(c.hooks[i][g]))
    && forall j, g | i < j < |c.hooks| && 0 <= g < |c.hooks[j]| :: OnceHook(c.hooks[j][g])
  }

  /** The mutation after the edits of the hooks from `h` on. */
  function Edited(hooks: seq<Hook>, h: nat, d: Draft): Draft
    requires h <= |hooks|
    decreases |hooks| - h
  {
    if h == |hooks| then d
    else
      match hooks[h].next(d, [])
      case Some(e) => Edited(hooks, h + 1, e)
      case None => d
  }

  /** What the hooks from `h` on make of the outcome of the mutator inside them. */
  function Reported(hooks: seq<Hook>, h: nat, d: Draft, inner: Outcome): Outcome
    requires h <= |hooks|
    decreases |hooks| - h
  {
    if h == |hooks| then inner else hooks[h].after(d, [Reported(hooks, h + 1, d, inner)])
  }

  /** The state in which the mutator of builder `i` runs, once the hooks of builder `i` have edited the mutation. */
  function Opened(c: MutatorChain, i: nat, s: BatchState): BatchState
    requires i < |c.hooks| == |s.drafts|
  {
    s.(drafts := s.drafts[i := Edited(c.hooks[i], 0, s.drafts[i])])
  }

  /** The outcome of the mutator of builder `i` itself, in state `s`: the check, and then the builders behind it. */
  ghost function Inner(c: MutatorChain, i: nat, s: BatchState): Outcome
    requires i < |c.hooks| == |s.drafts|
    decreases |c.hooks| - i
  {
    if Verdict(s.drafts[i].values).Some? then Some(CheckFailed(Verdict(s.drafts[i].values).value))
    else if i + 1 < |c.hooks| then
      var t := Opened(c, i + 1, s);
      Reported(c.hooks[i + 1], 0, t.drafts[i + 1], Inner(c, i + 1, t))
    else if c.database(s.batches).Inserted? then None
    else Some(InsertFailed)
  }

  /**
   At every builder from `i` on that is reached, the hooks turn neither an error into success nor success
   into an error.  `s` is the state before the hooks of builder `i`.
   */
  ghost predicate KeepsOutcomes(c: MutatorChain, i: nat, s: BatchState)
    requires i < |c.hooks| == |s.drafts|
    decreases |c.hooks| - i
  {
    var t := Opened(c, i, s);
    var inner := Inner(c, i, t);
    && (Reported(c.hooks[i], 0, t.drafts[i], inner).None? <==> inner.None?)
    && (Verdict(t.drafts[i].values).None? && i + 1 < |c.hooks| ==> KeepsOutcomes(c, i + 1, t))
  }

  /** Success means that all builders from `i` on are done, an error that none is. */
  ghost predicate AllOrNone(run: Run, i: nat, n: nat) {
    if run.outcome.Some? then forall j | i <= j < n :: !Finishes(run, i, j)
    else forall j | i <= j < n :: Finishes(run, i, j)
  }

  /** The part of a run that is inside all hooks of its builder. */
  function Inside(run: Run): Run {
    if run.Hooked? && |run.calls| == 1 then Inside(run.calls[0]) else run
  }

  lemma OnceDecides(hook: Hook, d: Draft, outcomes: seq<Outcome>)
    requires OnceHook(hook)
    ensures hook.Again(d, outcomes) <==> |outcomes| == 0
  {
    hide Hook.Again;
  }

  /** A hook that calls once has one call, made with the mutation as the hook has edited it. */
  lemma OneCall(hook: Hook, i: nat, before: BatchState, calls: seq<Run>, last: Draft)
    requires OnceHook(hook) && CallsLink(hook, i, before, calls) && !hook.Again(last, Outcomes(calls))
    ensures |calls| == 1 && i < |before.drafts| && hook.next(before.drafts[i], []).Some?
    ensures calls[0].before == before.(drafts := before.drafts[i := hook.next(before.drafts[i], []).value])
  {
    OnceDecides(hook, last, Outcomes(calls));
    var d := LastCall(hook, i, before, calls);
    OnceDecides(hook, d, Outcomes(calls[..|calls| - 1]));
    assert Called(hook, i, Prior(before, calls, 0), Outcomes(calls[..0]), calls[0].before);
    assert Outcomes(calls[..0]) == [];
  }

  /** A run leaves the mutations of earlier builders alone. */
  lemma {:induction false} EarlierKept(c: MutatorChain, run: Run, i: nat, h: nat, F: seq<Row>, e: nat)
    requires i < |c.hooks| && h <= |c.hooks[i]| && Follows(c, run, i, h, F) && e < i
    ensures |run.before.drafts| == |run.after.drafts| == |c.hooks|
    ensures run.after.drafts[e] == run.before.drafts[e]
    decreases run
  {
    hide EdgesOf, Verdict, Hook.Again, CallsLink;
    match run {
      case Onward(before, _, _, rest) =>
        EarlierKept(c, rest, i + 1, 0, F + [RowOf(before.drafts[i], c.now)], e);
      case Hooked(before, _, _, calls) =>
        PriorKept(c, c.hooks[i][h], before, calls, i, h + 1, F, e, |calls|);
      case _ =>
    }
  }

  lemma {:induction false} PriorKept(c: MutatorChain, hook: Hook, before: BatchState, calls: seq<Run>, i: nat, h: nat, F: seq<Row>, e: nat, k: nat)
    requires i < |c.hooks| && h <= |c.hooks[i]| && CallsLink(hook, i, before, calls) && e < i
    requires forall l | 0 <= l < |calls| :: Follows(c, calls[l], i, h, F)
    requires k <= |calls| && |before.drafts| == |c.hooks|
    ensures |Prior(before, calls, k).drafts| == |c.hooks|
    ensures Prior(before, calls, k).drafts[e] == before.drafts[e]
    decreases calls, k
  {
    hide Follows, Hook.Again;
    if k > 0 {
      var call := calls[k - 1];
      PriorKept(c, hook, before, calls, i, h, F, e, k - 1);
      assert Called(hook, i, Prior(before, calls, k - 1), Outcomes(calls[..k - 1]), call.before);
      EarlierKept(c, call, i, h, F, e);
    }
  }

  /**
   With hooks that call once, what is inside the hooks of builder `i` starts from the edited mutation, leaves it
   alone, and its outcome goes out through the hooks.
   */
  lemma {:induction false} InsideOnce(c: MutatorChain, run: Run, i: nat, h: nat, F: seq<Row>)
    requires i < |c.hooks| && h <= |c.hooks[i]| && Follows(c, run, i, h, F) && Once(c, i, h)
    ensures !Inside(run).Hooked? && Follows(c, Inside(run), i, |c.hooks[i]|, F)
    ensures Inside(run).before == run.before.(drafts := run.before.drafts[i := Edited(c.hooks[i], h, run.before.drafts[i])])
    ensures run.after == Inside(run).after && run.after.drafts[i] == Inside(run).before.drafts[i]
    ensures run.outcome == Reported(c.hooks[i], h, Inside(run).before.drafts[i], Inside(run).outcome)
    ensures forall j :: Finishes(run, i, j) <==> Finishes(Inside(run), i, j)
    decreases run
  {
    hide EdgesOf, Verdict, CallsLink, Hook.Again, OnceHook;
    match run {
      case Hooked(before, after, outcome, calls) =>
        OneCall(c.hooks[i][h], i, before, calls, after.drafts[i]);
        var e := c.hooks[i][h].next(before.drafts[i], []).value;
        assert before.drafts[i := e][i := Edited(c.hooks[i], h + 1, e)] == before.drafts[i := Edited(c.hooks[i], h, before.drafts[i])];
        InsideOnce(c, calls[0], i, h + 1, F);
        assert Outcomes(calls) == [calls[0].outcome];
        FinishesOne(calls, i);
      case Onward(before, _, _, rest) =>
        EarlierKept(c, rest, i + 1, 0, F + [RowOf(before.drafts[i], c.now)], i);
        assert before.drafts[i := before.drafts[i]] == before.drafts;
      case _ =>
        assert run.before.drafts[i := run.before.drafts[i]] == run.before.drafts;
    }
  }

  lemma FinishesOne(calls: seq<Run>, i: nat)
    requires |calls| == 1
    ensures forall j :: FinishesAny(calls, i, j) <==> Finishes(calls[0], i, j)
  {
    assert calls[1..] == [];
  }

  /**
   All or nothing with hooks that call once: it holds if and only if no reached builder's hooks turn an error
   into success or success into an error.  The condition speaks of the mutations, the hooks and the database
   as they are before the run.
   */
  lemma {:induction false} AllOrNothingIff(c: MutatorChain, run: Run, i: nat, F: seq<Row>)
    requires i < |c.hooks| && Follows(c, run, i, 0, F) && Once(c, i, 0)
    ensures AllOrNone(run, i, |c.hooks|) <==> KeepsOutcomes(c, i, run.before)
    ensures run.outcome == Reported(c.hooks[i], 0, Opened(c, i, run.before).drafts[i], Inner(c, i, Opened(c, i, run.before)))
    decreases |c.hooks| - i
  {
    hide EdgesOf, Verdict, CallsLink, OnceHook, Reported, Edited;
    InsideOnce(c, run, i, 0, F);
    var m := Inside(run);
    if m.Onward? {
      AllOrNothingIff(c, m.rest, i + 1, F + [RowOf(m.before.drafts[i], c.now)]);
      AllOrNoneOnward(m, i, |c.hooks|);
    } else {
      AllOrNoneHere(c, m, i, F);
    }
    AllOrNoneReported(run, m, i, |c.hooks|);
  }

  /** What the hooks of one builder make of all or nothing inside them. */
  lemma AllOrNoneReported(run: Run, m: Run, i: nat, n: nat)
    requires i < n && (forall j :: Finishes(run, i, j) <==> Finishes(m, i, j))
    requires m.outcome.Some? ==> !Finishes(m, i, i)
    requires m.outcome.None? ==> Finishes(m, i, i)
    ensures AllOrNone(run, i, n) <==> (run.outcome.None? <==> m.outcome.None?) && AllOrNone(m, i, n)
  {
    hide Finishes;
    assert Finishes(run, i, i) <==> Finishes(m, i, i);
    assert forall j :: Finishes(m, i, j) <==> Finishes(run, i, j);
  }

  lemma AllOrNoneOnward(m: Run, i: nat, n: nat)
    requires m.Onward? && m.rest.outcome == m.outcome && i + 1 < n
    ensures AllOrNone(m, i, n) <==> AllOrNone(m.rest, i + 1, n)
    ensures Finishes(m, i, i) <==> m.outcome.None?
  {
    OnlyLater(m.rest, i + 1, i);
    assert forall j | i < j < n :: FinishesNext(m, i, j);
    if AllOrNone(m.rest, i + 1, n) {
      forall j | i <= j < n ensures Finishes(m, i, j) <==> m.outcome.None? {
        assert j > i ==> FinishesNext(m, i, j);
      }
    }
    if AllOrNone(m, i, n) {
      var next := i + 1;
      forall j | next <= j < n ensures Finishes(m.rest, next, j) <==> m.outcome.None? {
        assert FinishesNext(m, i, j);
      }
    }
  }

  predicate FinishesNext(m: Run, i: nat, j: nat)
    requires m.Onward?
  {
    Finishes(m, i, j) <==> Finishes(m.rest, i + 1, j)
  }

  /** A run from builder `i` on finishes no earlier builder. */
  lemma {:induction false} OnlyLater(run: Run, i: nat, j: nat)
    requires j < i
    ensures !Finishes(run, i, j)
    decreases run
  {
    match run {
      case Onward(_, _, _, rest) => OnlyLater(rest, i + 1, j);
      case Hooked(_, _, _, calls) => OnlyLaterAny(calls, i, j);
      case _ =>
    }
  }

  lemma {:induction false} OnlyLaterAny(calls: seq<Run>, i: nat, j: nat)
    requires j < i
    ensures !FinishesAny(calls, i, j)
    decreases calls
  {
    if calls != [] {
      OnlyLater(calls[0], i, j);
      OnlyLaterAny(calls[1..], i, j);
    }
  }

  lemma AllOrNoneHere(c: MutatorChain, m: Run, i: nat, F: seq<Row>)
    requires i < |c.hooks| && Follows(c, m, i, |c.hooks[i]|, F) && (m.Stopped? || m.Last?)
    ensures AllOrNone(m, i, |c.hooks|) && (Finishes(m, i, i) <==> m.outcome.None?)
  {
    hide EdgesOf, Verdict;
  }

  /** Every hook calls once and reports an error exactly if its call did. */
  ghost predicate PassesOn(hook: Hook) {
    OnceHook(hook) && forall d, r: Outcome :: hook.after(d, [r]).None? <==> r.None?
  }

  lemma {:induction false} ReportsAlike(hooks: seq<Hook>, h: nat, d: Draft, inner: Outcome)
    requires h <= |hooks| && forall g | 0 <= g < |hooks| :: PassesOn(hooks[g])
    ensures Reported(hooks, h, d, inner).None? <==> inner.None?
    decreases |hooks| - h
  {
    if h < |hooks| {
      ReportsAlike(hooks, h + 1, d, inner);
      assert PassesOn(hooks[h]);
    }
  }

  ghost predicate AllPassOn(c: MutatorChain) {
    forall j, g | 0 <= j < |c.hooks| && 0 <= g < |c.hooks[j]| :: PassesOn(c.hooks[j][g])
  }

  /** Hooks that pass their outcome on meet the condition in every state. */
  lemma {:induction false} PassingOnKeepsOutcomes(c: MutatorChain, i: nat, s: BatchState)
    requires i < |c.hooks| == |s.drafts|
    requires AllPassOn(c)
    ensures KeepsOutcomes(c, i, s) && Once(c, i, 0)
    decreases |c.hooks| - i
  {
    hide Inner;
    var t := Opened(c, i, s);
    ReportsAlike(c.hooks[i], 0, t.drafts[i], Inner(c, i, t));
    if i + 1 < |c.hooks| {
      PassingOnKeepsOutcomes(c, i + 1, t);
    }
  }

  /** With hooks that pass their outcome on, an error is reported exactly if a check or the insert failed. */
  lemma {:induction false} ReportsFailures(c: MutatorChain, run: Run, i: nat, h: nat, F: seq<Row>)
    requires i < |c.hooks| && h <= |c.hooks[i]| && Follows(c, run, i, h, F) && AllPassOn(c)
    ensures run.outcome.None? <==> Clean(Events(run, i, h))
    decreases run
  {
    hide Clean, Smooth, EdgesOf, Verdict, CallsLink, Hook.Again, OnceHook;
    match run {
      case Stopped(_, _, _) =>
        StopIsNotClean(i);
      case Last(_, _, outcome, rows) =>
        SmoothLast(i, rows, outcome.None?);
      case Onward(before, _, _, rest) =>
        ReportsFailures(c, rest, i + 1, 0, F + [RowOf(before.drafts[i], c.now)]);
        SmoothNext(i, Events(rest, i + 1, 0));
      case Hooked(before, after, outcome, calls) =>
        assert PassesOn(c.hooks[i][h]);
        OneCall(c.hooks[i][h], i, before, calls, after.drafts[i]);
        assert Outcomes(calls) == [calls[0].outcome];
        ReportsFailures(c, calls[0], i, h + 1, F);
        EventsOfOne(calls, i, h + 1);
        SmoothHook(i, h, Events(calls[0], i, h + 1), outcome.Some?);
    }
  }

  /**
   All or nothing in plain words: with hooks that pass their outcome on, either no check and no insert fails,
   there was one insert and every builder is done, or something failed, an error is returned and no builder is done.
   */
  lemma AllOrNothing(c: MutatorChain, run: Run, i: nat, F: seq<Row>)
    requires i < |c.hooks| && Follows(c, run, i, 0, F) && AllPassOn(c)
    ensures run.outcome.None? ==>
              Clean(Events(run, i, 0)) && Inserts(Events(run, i, 0)) == 1 && forall j | i <= j < |c.hooks| :: Finishes(run, i, j)
    ensures run.outcome.Some? ==>
              !Clean(Events(run, i, 0)) && forall j | i <= j < |c.hooks| :: !Finishes(run, i, j)
  {
    hide Follows, Clean, Inserts, Finishes, KeepsOutcomes, Reported, Opened, Inner;
    FollowsSize(c, run, i, 0, F);
    ReportsFailures(c, run, i, 0, F);
    PassingOnKeepsOutcomes(c, i, run.before);
    AllOrNothingIff(c, run, i, F);
    OnceInserts(c, run, i, 0, F);
  }

  lemma FollowsSize(c: MutatorChain, run: Run, i: nat, h: nat, F: seq<Row>)
    requires i < |c.hooks| && h <= |c.hooks[i]| && Follows(c, run, i, h, F)
    ensures |run.before.drafts| == |c.hooks|
  {
    hide CallsLink, Verdict, EdgesOf;
  }

  // ------------------------------------------------------- one run per start

  /** What a chain does is determined by the state that it starts in. */
  lemma {:induction false} SameRun(c: MutatorChain, a: Run, b: Run, i: nat, h: nat, F: seq<Row>)
    requires i < |c.hooks| && h <= |c.hooks[i]| && Follows(c, a, i, h, F) && Follows(c, b, i, h, F) && a.before == b.before
    ensures a == b
    decreases a
  {
    hide EdgesOf, Verdict, CallsLink, Hook.Again, RowOf;
    if h < |c.hooks[i]| {
      SameCalls(c, c.hooks[i][h], a.before, a.calls, b.calls, i, h + 1, F, if |a.calls| < |b.calls| then |a.calls| else |b.calls|);
      if |a.calls| < |b.calls| {
        WouldCall(c.hooks[i][h], i, a.before, a.calls, b.calls);
        assert false;
      }
      if |b.calls| < |a.calls| {
        WouldCall(c.hooks[i][h], i, a.before, b.calls, a.calls);
        assert false;
      }
      assert a.calls[..|a.calls|] == a.calls && b.calls[..|a.calls|] == b.calls;
    } else if a.Onward? {
      SameRun(c, a.rest, b.rest, i + 1, 0, F + [RowOf(a.before.drafts[i], c.now)]);
    }
  }

  lemma {:induction false} SameCalls(c: MutatorChain, hook: Hook, before: BatchState, a: seq<Run>, b: seq<Run>, i: nat, h: nat, F: seq<Row>, k: nat)
    requires i < |c.hooks| && h <= |c.hooks[i]| && CallsLink(hook, i, before, a) && CallsLink(hook, i, before, b)
    requires (forall l | 0 <= l < |a| :: Follows(c, a[l], i, h, F)) && forall l | 0 <= l < |b| :: Follows(c, b[l], i, h, F)
    requires k <= |a| && k <= |b|
    ensures a[..k] == b[..k]
    decreases a, k
  {
    hide Follows, Hook.Again, CallsLink;
    if k > 0 {
      var m := k - 1;
      SameCalls(c, hook, before, a, b, i, h, F, m);
      SameEntry(hook, i, before, a, b, m);
      SameRun(c, a[m], b[m], i, h, F);
      assert a[..k] == a[..m] + [a[m]] && b[..k] == b[..m] + [b[m]];
    }
  }

  /** After the same calls a hook makes the next call in the same state. */
  lemma SameEntry(hook: Hook, i: nat, before: BatchState, a: seq<Run>, b: seq<Run>, m: nat)
    requires CallsLink(hook, i, before, a) && CallsLink(hook, i, before, b) && m < |a| && m < |b| && a[..m] == b[..m]
    ensures a[m].before == b[m].before
  {
    NextCall(hook, i, before, a, m);
    NextCall(hook, i, before, b, m);
    SamePrior(before, a, b, m);
    hide CallsLink, Outcomes, Prior, Hook.Again;
  }

  lemma NextCall(hook: Hook, i: nat, before: BatchState, b: seq<Run>, m: nat)
    requires CallsLink(hook, i, before, b) && m < |b|
    ensures Called(hook, i, Prior(before, b, m), Outcomes(b[..m]), b[m].before)
  {
    hide Called, Outcomes, Prior;
  }

  lemma SamePrior(before: BatchState, a: seq<Run>, b: seq<Run>, m: nat)
    requires m <= |a| && m <= |b| && a[..m] == b[..m]
    ensures Prior(before, a, m) == Prior(before, b, m)
  {
    assert m > 0 ==> a[..m][m - 1] == b[..m][m - 1];
  }

  /** After the calls of `a` the hook calls again, if it did so in `b`. */
  lemma WouldCall(hook: Hook, i: nat, before: BatchState, a: seq<Run>, b: seq<Run>)
    requires CallsLink(hook, i, before, b) && |a| < |b| && a[..|a|] == b[..|a|] && i < |Prior(before, a, |a|).drafts|
    ensures hook.Again(Prior(before, a, |a|).drafts[i], Outcomes(a))
  {
    NextCall(hook, i, before, b, |a|);
    SamePrior(before, a, b, |a|);
    hide CallsLink, Outcomes, Prior, Hook.Again;
    assert a[..|a|] == a;
  }

  // ------------------------------------------------------ the inserted rows

  /** Every insert has a row per builder, and those from builder `i` on hold the mutations of state `s`. */
  ghost predicate RowsShow(trace: seq<Event>, i: nat, s: BatchState, now: Time) {
    forall p | 0 <= p < |trace| && trace[p].Insert? :: RowsHold(trace[p].rows, i, s, now)
  }

  ghost predicate RowsHold(rows: seq<Row>, i: nat, s: BatchState, now: Time) {
    |rows| == |s.drafts| && forall j | i <= j < |rows| :: rows[j] == RowOf(s.drafts[j], now)
  }

  /** The insert ran, in a run in which every hook calls once. */
  predicate Tried(run: Run) {
    match run
    case Stopped(_, _, _) => false
    case Last(_, _, _, _) => true
    case Onward(_, _, _, rest) => Tried(rest)
    case Hooked(_, _, _, calls) => |calls| == 1 && Tried(calls[0])
  }

  /** The insert ran and succeeded, in a run in which every hook calls once. */
  predicate Landed(run: Run) {
    match run
    case Stopped(_, _, _) => false
    case Last(_, _, outcome, _) => outcome.None?
    case Onward(_, _, _, rest) => Landed(rest)
    case Hooked(_, _, _, calls) => |calls| == 1 && Landed(calls[0])
  }

  /** With hooks that call once, an insert that runs sends the final values and edges of all mutations, in builder order. */
  lemma {:induction false} OnceRows(c: MutatorChain, run: Run, i: nat, h: nat, F: seq<Row>)
    requires i < |c.hooks| && h <= |c.hooks[i]| && Follows(c, run, i, h, F) && Once(c, i, h) && |F| == i && Accepted(F)
    ensures RowsShow(Events(run, i, h), i, run.after, c.now)
    decreases run
  {
    hide EdgesOf, CallsLink, Hook.Again, OnceHook, RowsHold, Acceptable;
    match run {
      case Stopped(_, _, _) =>
      case Last(_, _, _, _) =>
        RowsOfLast(c, run, i, F);
      case Onward(before, after, _, rest) =>
        var row := RowOf(before.drafts[i], c.now);
        assert Accepted(F + [row]);
        OnceRows(c, rest, i + 1, 0, F + [row]);
        RunIsChecked(c, rest, i + 1, 0, F + [row]);
        EarlierKept(c, rest, i + 1, 0, F + [row], i);
        RowsOfNext(Events(rest, i + 1, 0), i, after, c.now, F, row, |c.hooks|);
      case Hooked(before, after, outcome, calls) =>
        OneCall(c.hooks[i][h], i, before, calls, after.drafts[i]);
        OnceRows(c, calls[0], i, h + 1, F);
        EventsOfOne(calls, i, h + 1);
        RowsOfHook(Events(calls[0], i, h + 1), i, h, outcome.Some?, after, c.now);
    }
  }

  lemma EventsOfOne(calls: seq<Run>, i: nat, h: nat)
    requires |calls| == 1
    ensures EventsAll(calls, i, h) == Events(calls[0], i, h)
  {
    assert calls[1..] == [];
  }

  lemma RowsOfHook(body: seq<Event>, i: nat, h: nat, failed: bool, s: BatchState, now: Time)
    requires RowsShow(body, i, s, now)
    ensures RowsShow([Enter(i, h)] + body + [Exit(i, h, failed)], i, s, now)
  {
    hide RowsHold;
  }

  /** With hooks that call once the insert runs at most once, and the last builder is done exactly if it succeeds. */
  lemma {:induction false} OnceInserts(c: MutatorChain, run: Run, i: nat, h: nat, F: seq<Row>)
    requires i < |c.hooks| && h <= |c.hooks[i]| && Follows(c, run, i, h, F) && Once(c, i, h)
    ensures Inserts(Events(run, i, h)) == if Tried(run) then 1 else 0
    ensures Landed(run) ==> Tried(run)
    ensures Landed(run) <==> Finishes(run, i, |c.hooks| - 1)
    ensures Landed(run) ==> c.database(run.before.batches).Inserted?
    decreases run
  {
    hide EdgesOf, Verdict, CallsLink, Hook.Again, OnceHook, Inserts;
    match run {
      case Stopped(_, _, _) =>
        CountsOfStop(i, 0, 0);
      case Last(_, _, outcome, rows) =>
        CountsOfLast(i, rows, outcome.None?, 0, 0);
      case Onward(before, after, _, rest) =>
        OnceInserts(c, rest, i + 1, 0, F + [RowOf(before.drafts[i], c.now)]);
        CountsOfNext(i, Events(rest, i + 1, 0), 0, 0);
      case Hooked(before, after, outcome, calls) =>
        OneCall(c.hooks[i][h], i, before, calls, after.drafts[i]);
        OnceInserts(c, calls[0], i, h + 1, F);
        FinishesOne(calls, i);
        EventsOfOne(calls, i, h + 1);
        CountsOfHook(Events(calls[0], i, h + 1), i, h, outcome.Some?, 0, 0);
    }
  }

  lemma RowsOfLast(c: MutatorChain, run: Run, i: nat, F: seq<Row>)
    requires i < |c.hooks| && Follows(c, run, i, |c.hooks[i]|, F) && |F| == i && run.Last?
    ensures RowsShow([Checked(i, true), Insert(run.rows, run.outcome.None?)], i, run.after, c.now)
  {
    hide EdgesOf, Verdict;
    assert RowsHold(run.rows, i, run.after, c.now);
  }

  lemma RowsOfNext(rest: seq<Event>, i: nat, s: BatchState, now: Time, F: seq<Row>, row: Row, n: nat)
    requires RowsShow(rest, i + 1, s, now) && |F| == i < |s.drafts| && row == RowOf(s.drafts[i], now)
    requires InsertsChecked(rest, i + 1, n, F + [row])
    ensures RowsShow([Checked(i, true)] + rest, i, s, now)
  {
    hide RowOf;
    var t := [Checked(i, true)] + rest;
    forall p | 0 <= p < |t| && t[p].Insert? ensures RowsHold(t[p].rows, i, s, now) {
      assert t[p] == rest[p - 1] && RowsHold(rest[p - 1].rows, i + 1, s, now);
      assert InsertChecked(rest, i + 1, n, F + [row], p - 1);
      assert (F + [row])[i] == row;
    }
  }

  // ------------------------------------------------------- a swallowed error

  /** Two builders, the second with a hook that calls once and never reports an error. */
  function Swallowing(database: nat -> BatchOutcome, now: Time): MutatorChain {
    MutatorChain([[], [Hook(1, (d: Draft, outcomes: seq<Outcome>) => Some(d), (d: Draft, outcomes: seq<Outcome>) => None)]], database, now)
  }

  /** An account that passes its check. */
  const GOOD: map<Column, Cell> := map[
    CreatedAt := TimeCell(0), UpdatedAt := TimeCell(0), Name := StringCell("a"), Platform := StringCell("p"),
    AccountType := StringCell("t"), Credentials := JsonCell(Object(map[])), Extra := JsonCell(Object(map[])),
    Concurrency := IntCell(3), Priority := IntCell(50), RateMultiplier := FloatCell(1.0), Status := StringCell("active"),
    AutoPauseOnExpired := BoolCell(true), Schedulable := BoolCell(true), QuotaDimension := StringCell("global")]

  lemma GoodIsAcceptable()
    ensures Acceptable(GOOD) && !Acceptable(map[])
  {
    assert Required(Name);
  }

  /**
   The failing input for all or nothing: the second builder sets nothing and fails its check, its hook hides
   that, and the first builder is done and no error is returned although nothing was inserted.
   */
  lemma SwallowedError(database: nat -> BatchOutcome, now: Time, run: Run, batches: nat)
    requires Follows(Swallowing(database, now), run, 0, 0, [])
    requires run.before == BatchState([Draft(GOOD, NO_EDGES), Draft(map[], NO_EDGES)], batches)
    ensures run.outcome.None? && Finishes(run, 0, 0) && !Finishes(run, 0, 1) && Inserts(Events(run, 0, 0)) == 0
  {
    hide EdgesOf, Verdict, Acceptable, OnceHook;
    var c := Swallowing(database, now);
    GoodIsAcceptable();
    SwallowingIsOnce(database, now);
    assert run.Onward?;
    SwallowedRest(database, now, run.rest, [] + [RowOf(run.before.drafts[0], now)]);
    OnceInserts(c, run, 0, 0, []);
  }

  lemma SwallowingIsOnce(database: nat -> BatchOutcome, now: Time)
    ensures Once(Swallowing(database, now), 0, 0) && Once(Swallowing(database, now), 1, 0)
  {
  }

  lemma SwallowedRest(database: nat -> BatchOutcome, now: Time, rest: Run, F: seq<Row>)
    requires Follows(Swallowing(database, now), rest, 1, 0, F) && |rest.before.drafts| == 2
    requires rest.before.drafts[1] == Draft(map[], NO_EDGES)
    ensures rest.outcome.None? && !Finishes(rest, 1, 1) && !Tried(rest)
  {
    hide EdgesOf, Verdict, Acceptable, OnceHook, CallsLink;
    var c := Swallowing(database, now);
    GoodIsAcceptable();
    SwallowingIsOnce(database, now);
    OneCall(c.hooks[1][0], 1, rest.before, rest.calls, rest.after.drafts[1]);
    FinishesOne(rest.calls, 1);
  }

  /** The run of the failing input, spelled out. */
  lemma SwallowedRun(database: nat -> BatchOutcome, now: Time, batches: nat) returns (run: Run)
    ensures run.before == BatchState([Draft(GOOD, NO_EDGES), Draft(map[], NO_EDGES)], batches)
    ensures Follows(Swallowing(database, now), run, 0, 0, [])
  {
    hide EdgesOf, Acceptable, Once, Verdict;
    GoodIsAcceptable();
    var c, s := Swallowing(database, now), BatchState([Draft(GOOD, NO_EDGES), Draft(map[], NO_EDGES)], batches);
    var F := [] + [RowOf(s.drafts[0], now)];
    StoppedFollows(c, s, 1, F);
    var stopped := Stopped(s, s, Some(CheckFailed(Verdict(s.drafts[1].values).value)));
    NoCalls(c, 1, 0, s, F);
    assert s.drafts[1 := s.drafts[1]] == s.drafts;
    LinkedMore(c, [], stopped, 1, 0, s, F);
    assert [] + [stopped] == [stopped];
    HookedFollows(c, s, [stopped], 1, 0, F);
    OnwardFollows(c, s, Hooked(s, s, None, [stopped]), 0, []);
    run := Onward(s, s, None, Hooked(s, s, None, [stopped]));
  }
}
