/**
 What a bulk create does, as the sequence of its events: hooks entered and left, checks, and batch
 inserts.  Position `(i, h)` is hook `h` of builder `i`; `shape` holds the number of hooks of every builder.
 */
module BulkTrace {
  import opened Wrappers
  import opened AccountCodec
  import opened AccountCreate

  /** One row of a batch insert. */
  datatype Row = Row(fields: map<Column, Cell>, edges: seq<EdgeSpec>)

  datatype Event =
    Enter(builder: nat, hook: nat) | Exit(builder: nat, hook: nat, failed: bool) |
    Checked(checked: nat, ok: bool) | Insert(rows: seq<Row>, inserted: bool)

  /** All positions before `(i, h)`, the hooks of the first builder first. */
  function HooksBefore(shape: seq<nat>, i: nat, h: nat): seq<(nat, nat)>
    requires i < |shape|
    decreases i, h
  {
    if h > 0 then HooksBefore(shape, i, h - 1) + [(i, h - 1)]
    else if i > 0 then HooksBefore(shape, i - 1, shape[i - 1])
    else []
  }

  /**
   The open hooks after one event.  A hook is entered exactly when all hooks of earlier builders and all
   earlier hooks of its builder are open; it is left when it is the innermost one; a check runs inside
   all hooks up to those of its builder, and an insert inside all hooks.  Anything else is `None`.
   */
  function Step(shape: seq<nat>, open: seq<(nat, nat)>, e: Event): Option<seq<(nat, nat)>> {
    match e
    case Enter(i, h) =>
      if i < |shape| && h < shape[i] && open == HooksBefore(shape, i, h) then Some(open + [(i, h)]) else None
    case Exit(i, h, _) =>
      if i < |shape| && h < shape[i] && open == HooksBefore(shape, i, h) + [(i, h)] then Some(HooksBefore(shape, i, h)) else None
    case Checked(i, _) =>
      if i < |shape| && open == HooksBefore(shape, i, shape[i]) then Some(open) else None
    case Insert(_, _) =>
      if |shape| > 0 && open == HooksBefore(shape, |shape| - 1, shape[|shape| - 1]) then Some(open) else None
  }

  function Replay(shape: seq<nat>, open: seq<(nat, nat)>, trace: seq<Event>): Option<seq<(nat, nat)>> {
    if trace == [] then Some(open)
    else
      var before := Replay(shape, open, trace[..|trace| - 1]);
      if before.None? then None else Step(shape, before.value, trace[|trace| - 1])
  }

  /** Every event happens inside exactly the hooks before it, `hooks[0]` outermost, and every hook is left again. */
  predicate WellNested(shape: seq<nat>, trace: seq<Event>) {
    Replay(shape, [], trace) == Some([])
  }

  lemma {:induction false} ReplayConcat(shape: seq<nat>, open: seq<(nat, nat)>, a: seq<Event>, b: seq<Event>)
    ensures Replay(shape, open, a + b)
         == var mid := Replay(shape, open, a); if mid.None? then None else Replay(shape, mid.value, b)
  {
    if b == [] {
      assert a + b == a;
    } else {
      assert (a + b)[..|a + b| - 1] == a + b[..|b| - 1];
      ReplayConcat(shape, open, a, b[..|b| - 1]);
    }
  }

  lemma ReplayOne(shape: seq<nat>, open: seq<(nat, nat)>, e: Event)
    ensures Replay(shape, open, [e]) == Step(shape, open, e)
  {
    assert [e][..0] == [];
  }

  /** A segment that happens at position `(i, h)` and leaves the open hooks as they were. */
  predicate HappensAt(shape: seq<nat>, i: nat, h: nat, segment: seq<Event>)
    requires i < |shape|
  {
    Replay(shape, HooksBefore(shape, i, h), segment) == Some(HooksBefore(shape, i, h))
  }

  lemma NothingHappens(shape: seq<nat>, i: nat, h: nat)
    requires i < |shape|
    ensures HappensAt(shape, i, h, [])
  {
  }

  lemma HappensConcat(shape: seq<nat>, i: nat, h: nat, a: seq<Event>, b: seq<Event>)
    requires i < |shape| && HappensAt(shape, i, h, a) && HappensAt(shape, i, h, b)
    ensures HappensAt(shape, i, h, a + b)
  {
    ReplayConcat(shape, HooksBefore(shape, i, h), a, b);
  }

  lemma CheckHappens(shape: seq<nat>, i: nat, ok: bool)
    requires i < |shape|
    ensures HappensAt(shape, i, shape[i], [Checked(i, ok)])
  {
    ReplayOne(shape, HooksBefore(shape, i, shape[i]), Checked(i, ok));
  }

  lemma InsertHappens(shape: seq<nat>, i: nat, rows: seq<Row>, inserted: bool)
    requires i + 1 == |shape|
    ensures HappensAt(shape, i, shape[i], [Insert(rows, inserted)])
  {
    ReplayOne(shape, HooksBefore(shape, i, shape[i]), Insert(rows, inserted));
  }

  /** The hooks of the next builder are inside all hooks of this one. */
  lemma HappensNext(shape: seq<nat>, i: nat, segment: seq<Event>)
    requires i + 1 < |shape| && HappensAt(shape, i + 1, 0, segment)
    ensures HappensAt(shape, i, shape[i], segment)
  {
    assert HooksBefore(shape, i + 1, 0) == HooksBefore(shape, i, shape[i]);
  }

  /** A hook around what happens inside it. */
  lemma HookHappens(shape: seq<nat>, i: nat, h: nat, body: seq<Event>, failed: bool)
    requires i < |shape| && h < shape[i] && HappensAt(shape, i, h + 1, body)
    ensures HappensAt(shape, i, h, [Enter(i, h)] + body + [Exit(i, h, failed)])
  {
    var at := HooksBefore(shape, i, h);
    var enter, exit := Enter(i, h), Exit(i, h, failed);
    assert HooksBefore(shape, i, h + 1) == at + [(i, h)];
    ReplayOne(shape, at, enter);
    ReplayOne(shape, at + [(i, h)], exit);
    ReplayConcat(shape, at, [enter], body);
    ReplayConcat(shape, at, [enter] + body, [exit]);
  }

  /** Every position is among the positions before a later one. */
  lemma {:induction false} HooksBeforeComplete(shape: seq<nat>, i: nat, h: nat, j: nat, g: nat)
    requires i < |shape|
    requires (j < i && g < shape[j]) || (j == i && g < h)
    ensures (j, g) in HooksBefore(shape, i, h)
    decreases i, h
  {
    if h > 0 {
      if (j, g) != (i, h - 1) {
        HooksBeforeComplete(shape, i, h - 1, j, g);
      }
    } else {
      HooksBeforeComplete(shape, i - 1, shape[i - 1], j, g);
    }
  }

  /** An insert runs inside all hooks of all builders: in a well-nested trace every hook is open at it, in order. */
  lemma InsertInsideAllHooks(shape: seq<nat>, before: seq<Event>, e: Event, after: seq<Event>)
    requires WellNested(shape, before + [e] + after) && e.Insert?
    ensures |shape| > 0 && Replay(shape, [], before) == Some(HooksBefore(shape, |shape| - 1, shape[|shape| - 1]))
    ensures forall j: nat, g: nat | j < |shape| && g < shape[j] :: (j, g) in Replay(shape, [], before).value
  {
    hide Replay, HooksBefore;
    ReplayConcat(shape, [], before + [e], after);
    ReplayConcat(shape, [], before, [e]);
    ReplayOne(shape, Replay(shape, [], before).value, e);
    forall j: nat, g: nat | j < |shape| && g < shape[j] ensures (j, g) in Replay(shape, [], before).value {
      HooksBeforeComplete(shape, |shape| - 1, shape[|shape| - 1], j, g);
    }
  }

  /** A hook is entered only when exactly the hooks before it are open. */
  lemma EnterBehindEarlierHooks(shape: seq<nat>, before: seq<Event>, e: Event, after: seq<Event>)
    requires WellNested(shape, before + [e] + after) && e.Enter?
    ensures e.builder < |shape| && e.hook < shape[e.builder]
    ensures Replay(shape, [], before) == Some(HooksBefore(shape, e.builder, e.hook))
  {
    hide Replay, HooksBefore;
    ReplayConcat(shape, [], before + [e], after);
    ReplayConcat(shape, [], before, [e]);
    ReplayOne(shape, Replay(shape, [], before).value, e);
  }

  // -------------------------------------------------------------- counting

  /** The number of batch inserts. */
  function Inserts(trace: seq<Event>): nat {
    if trace == [] then 0
    else Inserts(trace[..|trace| - 1]) + if trace[|trace| - 1].Insert? then 1 else 0
  }

  /** How often hook `(i, h)` is entered. */
  function Entered(trace: seq<Event>, i: nat, h: nat): nat {
    if trace == [] then 0
    else Entered(trace[..|trace| - 1], i, h) + if trace[|trace| - 1] == Enter(i, h) then 1 else 0
  }

  lemma {:induction false} InsertsConcat(a: seq<Event>, b: seq<Event>)
    ensures Inserts(a + b) == Inserts(a) + Inserts(b)
  {
    if b == [] {
      assert a + b == a;
    } else {
      assert (a + b)[..|a + b| - 1] == a + b[..|b| - 1];
      InsertsConcat(a, b[..|b| - 1]);
    }
  }

  lemma {:induction false} EnteredConcat(a: seq<Event>, b: seq<Event>, i: nat, h: nat)
    ensures Entered(a + b, i, h) == Entered(a, i, h) + Entered(b, i, h)
  {
    if b == [] {
      assert a + b == a;
    } else {
      assert (a + b)[..|a + b| - 1] == a + b[..|b| - 1];
      EnteredConcat(a, b[..|b| - 1], i, h);
    }
  }

  lemma CountsOfOne(e: Event, i: nat, h: nat)
    ensures Inserts([e]) == if e.Insert? then 1 else 0
    ensures Entered([e], i, h) == if e == Enter(i, h) then 1 else 0
  {
    assert [e][..0] == [];
  }

  /** Every check passed and every insert succeeded. */
  predicate Clean(trace: seq<Event>) {
    forall k | 0 <= k < |trace| :: (trace[k].Checked? ==> trace[k].ok) && (trace[k].Insert? ==> trace[k].inserted)
  }

  /** Besides, no hook reported an error. */
  predicate Smooth(trace: seq<Event>) {
    Clean(trace) && forall k | 0 <= k < |trace| && trace[k].Exit? :: !trace[k].failed
  }

  lemma CleanConcat(a: seq<Event>, b: seq<Event>)
    ensures Clean(a + b) <==> Clean(a) && Clean(b)
    ensures Smooth(a + b) <==> Smooth(a) && Smooth(b)
  {
    var s := a + b;
    assert forall k | 0 <= k < |a| :: s[k] == a[k];
    assert forall k | 0 <= k < |b| :: s[|a| + k] == b[k];
    assert forall k | 0 <= k < |s| :: s[k] == if k < |a| then a[k] else b[k - |a|];
  }
}
