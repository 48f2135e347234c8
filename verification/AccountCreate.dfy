/**
 Creating one account: the defaults and the checks of the builder, and the specification that is
 handed to the database together with the entity that is handed to the caller.
 */
module AccountCreate {
  import opened Wrappers
  import opened AccountCodec
  import opened Entities

  /** The columns that a mutation sets by value; the id is the database's, and two keys are set as edges. */
  predicate IsField(c: Column) {
    !c.Other? && c != ID && c != ProxyID && c != ParentAccountID
  }

  /** A value of the column's own type. */
  predicate HasType(c: Column, v: Cell) {
    match HolderFor(c)
    case NullInt64(_) => v.IntCell?
    case NullString(_) => v.StringCell?
    case NullTime(_) => v.TimeCell?
    case NullBool(_) => v.BoolCell?
    case NullFloat64(_) => v.FloatCell?
    case Bytes(_) => v.JsonCell? && (v.bytes.NullLiteral? || v.bytes.Object?)
    case UnknownType(_) => false
  }

  /** An edge of the new row; a many-to-one edge is written as a foreign key of the row itself. */
  datatype EdgeSpec =
    GroupsEdge(groups: seq<int>, priority: int, createdAt: Time) |
    ProxyEdge(proxy: seq<int>) | ParentEdge(parent: seq<int>) |
    ChildrenEdge(children: seq<int>) | UsageLogsEdge(usageLogs: seq<int>)

  /** The ids that a mutation sets for its edges. */
  datatype EdgeIDs = EdgeIDs(groups: seq<int>, proxies: seq<int>, parents: seq<int>, children: seq<int>, usageLogs: seq<int>)

  const NO_EDGES := EdgeIDs([], [], [], [], [])

  /** What a mutation sets: a column that is not set is not a key. */
  datatype Draft = Draft(values: map<Column, Cell>, edges: EdgeIDs)

  class CreateSpec {
    var fields: map<Column, Cell>
    var edges: seq<EdgeSpec>
    var id: Option<int>

    constructor ()
      ensures fields == map[] && edges == [] && id == None
    {
      fields, edges, id := map[], [], None;
    }

    method SetField(c: Column, v: Cell)
      modifies this`fields
      ensures fields == old(fields)[c := v]
    {
      fields := fields[c := v];
    }
  }

  class AccountMutation {
    var values: map<Column, Cell>
    var edges: EdgeIDs
    /** The created entity, whose id is the id of the mutation. */
    var node: AccountNode?
    var done: bool

    constructor ()
      ensures Value() == Draft(map[], NO_EDGES) && node == null && !done && WellFormed()
    {
      values, edges, node, done := map[], NO_EDGES, null, false;
    }

    function Value(): Draft
      reads this`values, this`edges
    {
      Draft(values, edges)
    }

    ghost predicate WellFormed()
      reads this`values
    {
      TypedFields(values)
    }
  }

  ghost predicate TypedFields(values: map<Column, Cell>) {
    forall c | c in values :: IsField(c) && HasType(c, values[c])
  }

  // ---------------------------------------------------------------- defaults

  const DEFAULT_CONCURRENCY := 3
  const DEFAULT_PRIORITY := 50
  const DEFAULT_RATE_MULTIPLIER := 1.0
  const DEFAULT_STATUS := "active"
  const DEFAULT_QUOTA_DIMENSION := "global"
  const DEFAULT_JOIN_PRIORITY := 50

  /** The place of a column in the order of `defaults`; 11 for a column without a default. */
  function DefaultRank(c: Column): nat {
    match c
    case CreatedAt => 0
    case UpdatedAt => 1
    case Credentials => 2
    case Extra => 3
    case Concurrency => 4
    case Priority => 5
    case RateMultiplier => 6
    case Status => 7
    case AutoPauseOnExpired => 8
    case Schedulable => 9
    case QuotaDimension => 10
    case _ => 11
  }

  predicate HasDefault(c: Column) {
    DefaultRank(c) < 11
  }

  function DefaultValue(c: Column, created: Time, updated: Time): Cell
    requires HasDefault(c)
  {
    match c
    case CreatedAt => TimeCell(created)
    case UpdatedAt => TimeCell(updated)
    case Credentials => JsonCell(Object(map[]))
    case Extra => JsonCell(Object(map[]))
    case Concurrency => IntCell(DEFAULT_CONCURRENCY)
    case Priority => IntCell(DEFAULT_PRIORITY)
    case RateMultiplier => FloatCell(DEFAULT_RATE_MULTIPLIER)
    case Status => StringCell(DEFAULT_STATUS)
    case AutoPauseOnExpired => BoolCell(true)
    case Schedulable => BoolCell(true)
    case QuotaDimension => StringCell(DEFAULT_QUOTA_DIMENSION)
  }

  /** `values` is `start` with the first `n` defaults filled in. */
  ghost predicate Filled(start: map<Column, Cell>, values: map<Column, Cell>, n: nat, created: Time, updated: Time) {
    && (forall c :: c in values <==> c in start || (DefaultRank(c) < n && HasDefault(c)))
    && forall c | c in values :: values[c] == if c in start then start[c] else DefaultValue(c, created, updated)
  }

  /** One column of `defaults`. */
  method SetDefault(m: AccountMutation, c: Column, v: Cell, ghost start: map<Column, Cell>, ghost n: nat,
                    ghost created: Time, ghost updated: Time)
    requires DefaultRank(c) == n < 11 && v == DefaultValue(c, created, updated)
    requires Filled(start, m.values, n, created, updated)
    modifies m`values
    ensures Filled(start, m.values, n + 1, created, updated)
  {
    forall d | DefaultRank(d) == DefaultRank(c) ensures d == c { }
    if c !in m.values {
      m.values := m.values[c := v];
    }
  }

  lemma TheDefaults(created: Time, updated: Time)
    ensures DefaultRank(CreatedAt) == 0
    ensures DefaultRank(UpdatedAt) == 1
    ensures DefaultRank(Credentials) == 2
    ensures DefaultRank(Extra) == 3
    ensures DefaultRank(Concurrency) == 4
    ensures DefaultRank(Priority) == 5
    ensures DefaultRank(RateMultiplier) == 6
    ensures DefaultRank(Status) == 7
    ensures DefaultRank(AutoPauseOnExpired) == 8
    ensures DefaultRank(Schedulable) == 9
    ensures DefaultRank(QuotaDimension) == 10
    ensures DefaultValue(CreatedAt, created, updated) == TimeCell(created)
    ensures DefaultValue(UpdatedAt, created, updated) == TimeCell(updated)
    ensures DefaultValue(Credentials, created, updated) == JsonCell(Object(map[]))
    ensures DefaultValue(Extra, created, updated) == JsonCell(Object(map[]))
    ensures DefaultValue(Concurrency, created, updated) == IntCell(DEFAULT_CONCURRENCY)
    ensures DefaultValue(Priority, created, updated) == IntCell(DEFAULT_PRIORITY)
    ensures DefaultValue(RateMultiplier, created, updated) == FloatCell(DEFAULT_RATE_MULTIPLIER)
    ensures DefaultValue(Status, created, updated) == StringCell(DEFAULT_STATUS)
    ensures DefaultValue(AutoPauseOnExpired, created, updated) == BoolCell(true)
    ensures DefaultValue(Schedulable, created, updated) == BoolCell(true)
    ensures DefaultValue(QuotaDimension, created, updated) == StringCell(DEFAULT_QUOTA_DIMENSION)
  {
  }

  /**
   `defaults`: `created` and `updated` are two readings of the clock.  What the caller has set is
   kept, every column with a default is set afterwards, and no other column is touched.
   */
  method Defaults(m: AccountMutation, created: Time, updated: Time)
    requires m.WellFormed()
    modifies m`values
    ensures m.WellFormed()
    ensures Filled(old(m.values), m.values, 11, created, updated)
  {
    hide Filled, DefaultRank, DefaultValue;
    ghost var start := m.values;
    TheDefaults(created, updated);
    FilledNone(start, created, updated);
    SetDefault(m, CreatedAt, TimeCell(created), start, 0, created, updated);
    SetDefault(m, UpdatedAt, TimeCell(updated), start, 1, created, updated);
    SetDefault(m, Credentials, JsonCell(Object(map[])), start, 2, created, updated);
    SetDefault(m, Extra, JsonCell(Object(map[])), start, 3, created, updated);
    SetDefault(m, Concurrency, IntCell(DEFAULT_CONCURRENCY), start, 4, created, updated);
    SetDefault(m, Priority, IntCell(DEFAULT_PRIORITY), start, 5, created, updated);
    SetDefault(m, RateMultiplier, FloatCell(DEFAULT_RATE_MULTIPLIER), start, 6, created, updated);
    SetDefault(m, Status, StringCell(DEFAULT_STATUS), start, 7, created, updated);
    SetDefault(m, AutoPauseOnExpired, BoolCell(true), start, 8, created, updated);
    SetDefault(m, Schedulable, BoolCell(true), start, 9, created, updated);
    SetDefault(m, QuotaDimension, StringCell(DEFAULT_QUOTA_DIMENSION), start, 10, created, updated);
    FilledTyped(start, m.values, created, updated);
  }

  /** After `defaults`: each of these columns has the caller's value or this one, and every other column is as it was. */
  lemma FilledMeans(start: map<Column, Cell>, values: map<Column, Cell>, created: Time, updated: Time)
    requires Filled(start, values, 11, created, updated)
    ensures GivenOrDefault(start, values, CreatedAt, TimeCell(created)) && GivenOrDefault(start, values, UpdatedAt, TimeCell(updated))
    ensures GivenOrDefault(start, values, Credentials, JsonCell(Object(map[]))) && GivenOrDefault(start, values, Extra, JsonCell(Object(map[])))
    ensures GivenOrDefault(start, values, Concurrency, IntCell(3)) && GivenOrDefault(start, values, Priority, IntCell(50))
    ensures GivenOrDefault(start, values, RateMultiplier, FloatCell(1.0)) && GivenOrDefault(start, values, Status, StringCell("active"))
    ensures GivenOrDefault(start, values, AutoPauseOnExpired, BoolCell(true)) && GivenOrDefault(start, values, Schedulable, BoolCell(true))
    ensures GivenOrDefault(start, values, QuotaDimension, StringCell("global"))
    ensures forall c | c !in {CreatedAt, UpdatedAt, Credentials, Extra, Concurrency, Priority, RateMultiplier, Status, AutoPauseOnExpired,
                              Schedulable, QuotaDimension} ::
              (c in values <==> c in start) && (c in start ==> values[c] == start[c])
  {
    TheDefaults(created, updated);
    NoOtherDefaults();
    hide DefaultRank, DefaultValue;
  }

  /** The column has the value that was set, or else the given one. */
  ghost predicate GivenOrDefault(start: map<Column, Cell>, values: map<Column, Cell>, c: Column, v: Cell) {
    c in values && values[c] == if c in start then start[c] else v
  }

  lemma NoOtherDefaults()
    ensures forall c :: HasDefault(c) ==>
              c in {CreatedAt, UpdatedAt, Credentials, Extra, Concurrency, Priority, RateMultiplier, Status, AutoPauseOnExpired, Schedulable, QuotaDimension}
  {
  }

  lemma FilledNone(start: map<Column, Cell>, created: Time, updated: Time)
    ensures Filled(start, start, 0, created, updated)
  {
  }

  lemma DefaultHasType(c: Column, created: Time, updated: Time)
    requires HasDefault(c)
    ensures IsField(c) && HasType(c, DefaultValue(c, created, updated))
  {
  }

  lemma FilledTyped(start: map<Column, Cell>, values: map<Column, Cell>, created: Time, updated: Time)
    requires TypedFields(start) && Filled(start, values, 11, created, updated)
    ensures TypedFields(values)
  {
    hide IsField, HasType, HasDefault, DefaultRank, DefaultValue;
    forall c | c in values ensures IsField(c) && HasType(c, values[c]) {
      if c !in start {
        DefaultHasType(c, created, updated);
      }
    }
  }

  // ------------------------------------------------------------------ checks

  datatype CheckError = MissingField(missing: Column) | InvalidValue(column: Column)

  /** The columns that are `NOT NULL` in the table, other than the id. */
  predicate Required(c: Column) {
    HasDefault(c) || c in {Name, Platform, AccountType}
  }

  /** The validators of the schema. */
  predicate ValidValue(c: Column, v: Cell) {
    v.StringCell? ==>
      match c
      case Name => 0 < |v.s| <= 100
      case Platform => 0 < |v.s| <= 50
      case AccountType => 0 < |v.s| <= 20
      case Status => |v.s| <= 20
      case SessionWindowStatus => |v.s| <= 20
      case QuotaDimension => v.s == "global" || v.s == "spark"
      case _ => true
  }

  function FieldError(values: map<Column, Cell>, c: Column): Option<CheckError> {
    if c !in values then if Required(c) then Some(MissingField(c)) else None
    else if !ValidValue(c, values[c]) then Some(InvalidValue(c)) else None
  }

  /** The place of a column in the order of `check`; 15 for a column that is not checked. */
  function CheckRank(c: Column): nat {
    match c
    case CreatedAt => 0
    case UpdatedAt => 1
    case Name => 2
    case Platform => 3
    case AccountType => 4
    case Credentials => 5
    case Extra => 6
    case Concurrency => 7
    case Priority => 8
    case RateMultiplier => 9
    case Status => 10
    case AutoPauseOnExpired => 11
    case Schedulable => 12
    case SessionWindowStatus => 13
    case QuotaDimension => 14
    case _ => 15
  }

  /** Column `c` is the first in the order of the checks that has an error. */
  ghost predicate FirstError(values: map<Column, Cell>, c: Column) {
    FieldError(values, c).Some? && forall d | CheckRank(d) < CheckRank(c) :: FieldError(values, d).None?
  }

  /** The mutation can be saved. */
  ghost predicate Acceptable(values: map<Column, Cell>) {
    && (forall c | Required(c) :: c in values)
    && forall c | c in values :: ValidValue(c, values[c])
  }

  /** The first `n` columns in the order of the checks have no error. */
  ghost predicate PassedUpTo(values: map<Column, Cell>, n: nat) {
    forall c | CheckRank(c) < n :: FieldError(values, c).None?
  }

  /** One column of `check`. */
  method CheckField(m: AccountMutation, c: Column, ghost n: nat) returns (err: Option<CheckError>)
    requires CheckRank(c) == n < 15 && PassedUpTo(m.values, n)
    ensures err.None? ==> PassedUpTo(m.values, n + 1)
    ensures err.Some? ==> FirstError(m.values, c) && err == FieldError(m.values, c)
  {
    forall d | CheckRank(d) == CheckRank(c) ensures d == c { }
    err := FieldError(m.values, c);
  }

  lemma TheFirstChecks()
    ensures CheckRank(CreatedAt) == 0
    ensures CheckRank(UpdatedAt) == 1
    ensures CheckRank(Name) == 2
    ensures CheckRank(Platform) == 3
    ensures CheckRank(AccountType) == 4
    ensures CheckRank(Credentials) == 5
    ensures CheckRank(Extra) == 6
  {
  }

  lemma TheLastChecks()
    ensures CheckRank(Concurrency) == 7
    ensures CheckRank(Priority) == 8
    ensures CheckRank(RateMultiplier) == 9
    ensures CheckRank(Status) == 10
    ensures CheckRank(AutoPauseOnExpired) == 11
    ensures CheckRank(Schedulable) == 12
    ensures CheckRank(SessionWindowStatus) == 13
    ensures CheckRank(QuotaDimension) == 14
  {
  }

  /** A mutation can be saved exactly if no check has an error. */
  lemma PassedOrNot(values: map<Column, Cell>)
    ensures PassedUpTo(values, 0)
    ensures PassedUpTo(values, 15) <==> Acceptable(values)
    ensures forall c :: FirstError(values, c) ==> !Acceptable(values)
  {
    if PassedUpTo(values, 15) {
      forall c: Column ensures (Required(c) ==> c in values) && (c in values ==> ValidValue(c, values[c])) {
        if CheckRank(c) < 15 {
          assert FieldError(values, c).None?;
        }
      }
    }
  }

  /** The columns whose checks come first, if some column has an error. */
  lemma ErrorExists(values: map<Column, Cell>, n: nat)
    requires n <= 15 && PassedUpTo(values, n) && !PassedUpTo(values, 15)
    ensures exists c :: FirstError(values, c)
    decreases 15 - n
  {
    if PassedUpTo(values, n + 1) {
      ErrorExists(values, n + 1);
    } else {
      var c :| CheckRank(c) < n + 1 && FieldError(values, c).Some?;
      assert FirstError(values, c);
    }
  }

  lemma OneFirstError(values: map<Column, Cell>, c: Column, d: Column)
    requires FirstError(values, c) && FirstError(values, d)
    ensures c == d
  {
    hide FieldError;
    CheckedColumn(values, c);
    CheckedColumn(values, d);
    RanksDiffer(c, d);
  }

  lemma RanksDiffer(c: Column, d: Column)
    requires CheckRank(c) == CheckRank(d) < 15
    ensures c == d
  {
  }

  /** Only columns in the order of the checks can have an error. */
  lemma CheckedColumn(values: map<Column, Cell>, c: Column)
    requires FieldError(values, c).Some?
    ensures CheckRank(c) < 15
  {
  }

  /** The error that `check` reports. */
  ghost function Verdict(values: map<Column, Cell>): (r: Option<CheckError>)
    ensures r.None? <==> Acceptable(values)
    ensures r.Some? ==> exists c :: FirstError(values, c) && r == FieldError(values, c)
  {
    if Acceptable(values) then None
    else
      PassedOrNot(values);
      ErrorExists(values, 0);
      var c :| FirstError(values, c);
      FieldError(values, c)
  }

  lemma VerdictIs(values: map<Column, Cell>, c: Column)
    requires FirstError(values, c)
    ensures Verdict(values) == FieldError(values, c)
  {
    PassedOrNot(values);
    var d :| FirstError(values, d) && Verdict(values) == FieldError(values, d);
    OneFirstError(values, c, d);
  }

  lemma EveryVerdict(values: map<Column, Cell>)
    ensures Acceptable(values) ==> Verdict(values).None?
    ensures forall c :: FirstError(values, c) ==> Verdict(values) == FieldError(values, c)
  {
    hide FieldError, FirstError, Acceptable;
    forall c | FirstError(values, c) ensures Verdict(values) == FieldError(values, c) {
      VerdictIs(values, c);
    }
  }

  /** The column has a text of `least` to `most` characters. */
  ghost predicate TextWithin(values: map<Column, Cell>, c: Column, least: nat, most: nat) {
    c in values && values[c].StringCell? && least <= |values[c].s| <= most
  }

  /** Which values the validators accept. */
  lemma ValidValueMeans(values: map<Column, Cell>)
    requires TypedFields(values)
    ensures Name in values ==> (ValidValue(Name, values[Name]) <==> TextWithin(values, Name, 1, 100))
    ensures Platform in values ==> (ValidValue(Platform, values[Platform]) <==> TextWithin(values, Platform, 1, 50))
    ensures AccountType in values ==> (ValidValue(AccountType, values[AccountType]) <==> TextWithin(values, AccountType, 1, 20))
    ensures Status in values ==> (ValidValue(Status, values[Status]) <==> TextWithin(values, Status, 0, 20))
    ensures SessionWindowStatus in values ==>
              (ValidValue(SessionWindowStatus, values[SessionWindowStatus]) <==> TextWithin(values, SessionWindowStatus, 0, 20))
    ensures QuotaDimension in values ==>
              (ValidValue(QuotaDimension, values[QuotaDimension]) <==> values[QuotaDimension] in {StringCell("global"), StringCell("spark")})
    ensures forall c | c in values && c !in {Name, Platform, AccountType, Status, SessionWindowStatus, QuotaDimension} :: ValidValue(c, values[c])
  {
    TextColumns(values);
    hide TypedFields;
  }

  lemma AllPresent(values: map<Column, Cell>)
    ensures (forall c | Required(c) :: c in values) <==>
              && Name in values && Platform in values && AccountType in values && Status in values && QuotaDimension in values
              && CreatedAt in values && UpdatedAt in values && Credentials in values && Extra in values && Concurrency in values
              && Priority in values && RateMultiplier in values && AutoPauseOnExpired in values && Schedulable in values
  {
    RequiredColumns();
    hide Required;
  }

  lemma AllValid(values: map<Column, Cell>)
    requires TypedFields(values)
    ensures (forall c | c in values :: ValidValue(c, values[c])) <==>
              && (Name in values ==> TextWithin(values, Name, 1, 100)) && (Platform in values ==> TextWithin(values, Platform, 1, 50))
              && (AccountType in values ==> TextWithin(values, AccountType, 1, 20)) && (Status in values ==> TextWithin(values, Status, 0, 20))
              && (SessionWindowStatus in values ==> TextWithin(values, SessionWindowStatus, 0, 20))
              && (QuotaDimension in values ==> values[QuotaDimension] in {StringCell("global"), StringCell("spark")})
  {
    ValidValueMeans(values);
    hide TypedFields, ValidValue, TextWithin;
  }

  /** What a mutation needs to be saved. */
  lemma AcceptableMeans(values: map<Column, Cell>)
    requires TypedFields(values)
    ensures Acceptable(values) <==>
              && TextWithin(values, Name, 1, 100) && TextWithin(values, Platform, 1, 50) && TextWithin(values, AccountType, 1, 20)
              && TextWithin(values, Status, 0, 20)
              && (SessionWindowStatus in values ==> TextWithin(values, SessionWindowStatus, 0, 20))
              && QuotaDimension in values && values[QuotaDimension] in {StringCell("global"), StringCell("spark")}
              && CreatedAt in values && UpdatedAt in values && Credentials in values && Extra in values && Concurrency in values
              && Priority in values && RateMultiplier in values && AutoPauseOnExpired in values && Schedulable in values
  {
    AllPresent(values);
    AllValid(values);
    hide TypedFields, Required, ValidValue;
  }

  lemma TextColumns(values: map<Column, Cell>)
    requires TypedFields(values)
    ensures forall c | c in {Name, Platform, AccountType, Status, SessionWindowStatus, QuotaDimension} :: c in values ==> values[c].StringCell?
  {
    hide IsField;
  }

  lemma RequiredColumns()
    ensures forall c :: Required(c) <==> c in {CreatedAt, UpdatedAt, Name, Platform, AccountType, Credentials, Extra, Concurrency, Priority,
                                               RateMultiplier, Status, AutoPauseOnExpired, Schedulable, QuotaDimension}
  {
  }

  /** The error of one column: it is missing, or its text is too short, too long or not one of those allowed. */
  lemma FieldErrorMeans(values: map<Column, Cell>, c: Column)
    requires TypedFields(values)
    ensures FieldError(values, c) == Some(MissingField(c)) <==>
              c !in values && c in {CreatedAt, UpdatedAt, Name, Platform, AccountType, Credentials, Extra, Concurrency, Priority,
                                    RateMultiplier, Status, AutoPauseOnExpired, Schedulable, QuotaDimension}
    ensures FieldError(values, c) == Some(InvalidValue(c)) <==>
              c in values && (|| (c == Name && !TextWithin(values, c, 1, 100)) || (c == Platform && !TextWithin(values, c, 1, 50))
                              || (c == AccountType && !TextWithin(values, c, 1, 20))
                              || (c in {Status, SessionWindowStatus} && !TextWithin(values, c, 0, 20))
                              || (c == QuotaDimension && values[c] !in {StringCell("global"), StringCell("spark")}))
    ensures FieldError(values, c) in {None, Some(MissingField(c)), Some(InvalidValue(c))}
  {
    ValidValueMeans(values);
    RequiredColumns();
    hide TypedFields, Required, ValidValue, TextWithin;
  }

  /** `check`: the first error in the order of the columns, if the mutation cannot be saved. */
  method Check(m: AccountMutation) returns (err: Option<CheckError>)
    requires m.WellFormed()
    ensures err.None? <==> Acceptable(m.values)
    ensures err.Some? ==> exists c :: FirstError(m.values, c) && err == FieldError(m.values, c)
    ensures err == Verdict(m.values)
    ensures err.None? <==>
              && TextWithin(m.values, Name, 1, 100) && TextWithin(m.values, Platform, 1, 50) && TextWithin(m.values, AccountType, 1, 20)
              && TextWithin(m.values, Status, 0, 20)
              && (SessionWindowStatus in m.values ==> TextWithin(m.values, SessionWindowStatus, 0, 20))
              && QuotaDimension in m.values && m.values[QuotaDimension] in {StringCell("global"), StringCell("spark")}
              && CreatedAt in m.values && UpdatedAt in m.values && Credentials in m.values && Extra in m.values && Concurrency in m.values
              && Priority in m.values && RateMultiplier in m.values && AutoPauseOnExpired in m.values && Schedulable in m.values
  {
    hide FieldError, FirstError, Acceptable, PassedUpTo, CheckRank, Verdict, TextWithin, TypedFields;
    TheFirstChecks();
    TheLastChecks();
    AcceptableMeans(m.values);
    PassedOrNot(m.values);
    EveryVerdict(m.values);
    err := CheckField(m, CreatedAt, 0);
    if err.Some? { return; }
    err := CheckField(m, UpdatedAt, 1);
    if err.Some? { return; }
    err := CheckField(m, Name, 2);
    if err.Some? { return; }
    err := CheckField(m, Platform, 3);
    if err.Some? { return; }
    err := CheckField(m, AccountType, 4);
    if err.Some? { return; }
    err := CheckField(m, Credentials, 5);
    if err.Some? { return; }
    err := CheckField(m, Extra, 6);
    if err.Some? { return; }
    err := CheckField(m, Concurrency, 7);
    if err.Some? { return; }
    err := CheckField(m, Priority, 8);
    if err.Some? { return; }
    err := CheckField(m, RateMultiplier, 9);
    if err.Some? { return; }
    err := CheckField(m, Status, 10);
    if err.Some? { return; }
    err := CheckField(m, AutoPauseOnExpired, 11);
    if err.Some? { return; }
    err := CheckField(m, Schedulable, 12);
    if err.Some? { return; }
    err := CheckField(m, SessionWindowStatus, 13);
    if err.Some? { return; }
    err := CheckField(m, QuotaDimension, 14);
    if err.Some? { return; }
  }

  // ----------------------------------------------------- the specification

  /** The holder that carries a cell. */
  function HolderOf(v: Cell): Holder {
    match v
    case IntCell(i) => NullInt64(Some(i))
    case StringCell(t) => NullString(Some(t))
    case TimeCell(t) => NullTime(Some(t))
    case BoolCell(b) => NullBool(Some(b))
    case FloatCell(f) => NullFloat64(Some(f))
    case JsonCell(b) => Bytes(b)
    case Null => UnknownType(Null)
  }

  /** The entity with one field set; a JSON value replaces what was there. */
  function Put(a: Account, c: Column, v: Cell): Account
    requires IsField(c) && HasType(c, v)
  {
    if c == Credentials then a.(credentials := if v.bytes.NullLiteral? then None else Some(v.bytes.members))
    else if c == Extra then a.(extra := if v.bytes.NullLiteral? then None else Some(v.bytes.members))
    else AssignOne(a, c, HolderOf(v)).account
  }

  lemma JsonPutWrites(a: Account, c: Column, v: Cell, d: Column)
    requires KindOf(c) == JsonKind && v.JsonCell? && (v.bytes.NullLiteral? || v.bytes.Object?)
    ensures CellOf(Put(a, c, v), d) == if d == c then v else CellOf(a, d)
  {
    hide AssignOne, KindOf, NumberCell, TimeCellOf, StringCellOf;
    KindsOfOne(c, d);
    KindsOfOne(d, c);
  }

  lemma HolderOfValue(a: Account, c: Column, v: Cell)
    requires IsField(c) && HasType(c, v) && KindOf(c) != JsonKind
    ensures Typed(c, HolderOf(v)) && HolderOf(v) != Bytes(Malformed)
    ensures Updated(c, CellOf(a, c), HolderOf(v)) == v
  {
    hide KindOf, CellOf;
    KindsOfOne(c, c);
  }

  lemma PutWrites(a: Account, c: Column, v: Cell, d: Column)
    requires IsField(c) && HasType(c, v)
    ensures CellOf(Put(a, c, v), d) == if d == c then v else CellOf(a, d)
  {
    KindsOfOne(c, d);
    if KindOf(c) == JsonKind {
      assert v.JsonCell? && (v.bytes.NullLiteral? || v.bytes.Object?) by { hide KindOf; }
      hide Put, CellOf, HasType, KindOf;
      JsonPutWrites(a, c, v, d);
    } else {
      HolderOfValue(a, c, v);
      hide AssignOne, KindOf, HasType, CellOf, HolderOf, Updated, Typed;
      AssignOneWritesOneField(a, c, HolderOf(v), d);
    }
  }

  /** The place of a column in the order of `createSpec`; 29 for a column that is not set by value. */
  function FieldRank(c: Column): nat {
    match c
    case CreatedAt => 0
    case UpdatedAt => 1
    case DeletedAt => 2
    case Name => 3
    case Notes => 4
    case Platform => 5
    case AccountType => 6
    case Credentials => 7
    case Extra => 8
    case ProxyFallbackOriginID => 9
    case Concurrency => 10
    case LoadFactor => 11
    case Priority => 12
    case RateMultiplier => 13
    case Status => 14
    case ErrorMessage => 15
    case LastUsedAt => 16
    case ExpiresAt => 17
    case AutoPauseOnExpired => 18
    case Schedulable => 19
    case RateLimitedAt => 20
    case RateLimitResetAt => 21
    case OverloadUntil => 22
    case TempUnschedulableUntil => 23
    case TempUnschedulableReason => 24
    case SessionWindowStart => 25
    case SessionWindowEnd => 26
    case SessionWindowStatus => 27
    case QuotaDimension => 28
    case _ => 29
  }

  /** The first `n` columns are copied into the entity and the specification, and nothing else is. */
  ghost predicate Copied(values: map<Column, Cell>, a: Account, fields: map<Column, Cell>, n: nat) {
    && (forall c :: c in fields <==> c in values && FieldRank(c) < n)
    && (forall c | c in fields :: fields[c] == values[c])
    && forall c: Column | !c.Other? ::
         CellOf(a, c) == if c in values && FieldRank(c) < n then values[c] else CellOf(ZERO_ACCOUNT, c)
  }

  lemma NextRank(c: Column)
    requires FieldRank(c) < 29
    ensures forall d :: FieldRank(d) < FieldRank(c) + 1 <==> FieldRank(d) < FieldRank(c) || d == c
  {
  }

  /** One more column copied. */
  lemma CopiedSet(values: map<Column, Cell>, a: Account, fields: map<Column, Cell>, c: Column, n: nat)
    requires FieldRank(c) == n < 29 && IsField(c) && Copied(values, a, fields, n)
    requires c in values && HasType(c, values[c])
    ensures Copied(values, Put(a, c, values[c]), fields[c := values[c]], n + 1)
  {
    hide Put, CellOf, HasType, FieldRank;
    NextRank(c);
    forall d ensures CellOf(Put(a, c, values[c]), d) == if d == c then values[c] else CellOf(a, d) {
      PutWrites(a, c, values[c], d);
    }
  }

  /** A column without a value. */
  lemma CopiedSkip(values: map<Column, Cell>, a: Account, fields: map<Column, Cell>, c: Column, n: nat)
    requires FieldRank(c) == n < 29 && Copied(values, a, fields, n) && c !in values
    ensures Copied(values, a, fields, n + 1)
  {
    hide CellOf, FieldRank;
    NextRank(c);
  }

  /** One column of `createSpec`. */
  method CopyField(m: AccountMutation, node: AccountNode, spec: CreateSpec, c: Column, ghost n: nat)
    requires m.WellFormed() && FieldRank(c) == n < 29 && IsField(c)
    requires Copied(m.values, node.fields, spec.fields, n)
    modifies node`fields, spec`fields
    ensures Copied(m.values, node.fields, spec.fields, n + 1)
  {
    hide Copied, Put, FieldRank, HasType;
    if c !in m.values {
      CopiedSkip(m.values, node.fields, spec.fields, c, n);
    } else {
      CopiedSet(m.values, node.fields, spec.fields, c, n);
      spec.SetField(c, m.values[c]);
      node.fields := Put(node.fields, c, m.values[c]);
    }
  }

  lemma CopiedNone(values: map<Column, Cell>)
    ensures Copied(values, ZERO_ACCOUNT, map[], 0)
  {
  }

  lemma TheFirstFields()
    ensures FieldRank(CreatedAt) == 0 && IsField(CreatedAt)
    ensures FieldRank(UpdatedAt) == 1 && IsField(UpdatedAt)
    ensures FieldRank(DeletedAt) == 2 && IsField(DeletedAt)
    ensures FieldRank(Name) == 3 && IsField(Name)
    ensures FieldRank(Notes) == 4 && IsField(Notes)
    ensures FieldRank(Platform) == 5 && IsField(Platform)
    ensures FieldRank(AccountType) == 6 && IsField(AccountType)
    ensures FieldRank(Credentials) == 7 && IsField(Credentials)
    ensures FieldRank(Extra) == 8 && IsField(Extra)
    ensures FieldRank(ProxyFallbackOriginID) == 9 && IsField(ProxyFallbackOriginID)
  {
  }

  lemma TheNextFields()
    ensures FieldRank(Concurrency) == 10 && IsField(Concurrency)
    ensures FieldRank(LoadFactor) == 11 && IsField(LoadFactor)
    ensures FieldRank(Priority) == 12 && IsField(Priority)
    ensures FieldRank(RateMultiplier) == 13 && IsField(RateMultiplier)
    ensures FieldRank(Status) == 14 && IsField(Status)
  {
  }

  lemma TheMiddleFields()
    ensures FieldRank(ErrorMessage) == 15 && IsField(ErrorMessage)
    ensures FieldRank(LastUsedAt) == 16 && IsField(LastUsedAt)
    ensures FieldRank(ExpiresAt) == 17 && IsField(ExpiresAt)
    ensures FieldRank(AutoPauseOnExpired) == 18 && IsField(AutoPauseOnExpired)
    ensures FieldRank(Schedulable) == 19 && IsField(Schedulable)
  {
  }

  lemma TheLaterFields()
    ensures FieldRank(RateLimitedAt) == 20 && IsField(RateLimitedAt)
    ensures FieldRank(RateLimitResetAt) == 21 && IsField(RateLimitResetAt)
    ensures FieldRank(OverloadUntil) == 22 && IsField(OverloadUntil)
    ensures FieldRank(TempUnschedulableUntil) == 23 && IsField(TempUnschedulableUntil)
    ensures FieldRank(TempUnschedulableReason) == 24 && IsField(TempUnschedulableReason)
  {
  }

  lemma TheLastFields()
    ensures FieldRank(SessionWindowStart) == 25 && IsField(SessionWindowStart)
    ensures FieldRank(SessionWindowEnd) == 26 && IsField(SessionWindowEnd)
    ensures FieldRank(SessionWindowStatus) == 27 && IsField(SessionWindowStatus)
    ensures FieldRank(QuotaDimension) == 28 && IsField(QuotaDimension)
  {
  }

  /** What `createSpec` returns for a mutation: the entity and the specification say the same. */
  ghost predicate Created(d: Draft, a: Account, spec: CreateSpec, joined: Time)
    reads spec`fields, spec`edges
  {
    && spec.fields == d.values && spec.edges == EdgesOf(d.edges, joined)
    && a.numbers.proxyID == First(d.edges.proxies) && a.numbers.parentAccountID == First(d.edges.parents)
    && forall c: Column | IsField(c) :: CellOf(a, c) == if c in d.values then d.values[c] else CellOf(ZERO_ACCOUNT, c)
  }

  function First(ids: seq<int>): Option<int> {
    if ids == [] then None else Some(ids[0])
  }

  /** The key that the proxy edge writes into the row. */
  function ProxyOf(edges: seq<EdgeSpec>): Option<int> {
    if edges == [] then None
    else
      var last := edges[|edges| - 1];
      if last.ProxyEdge? then First(last.proxy) else ProxyOf(edges[..|edges| - 1])
  }

  function ParentOf(edges: seq<EdgeSpec>): Option<int> {
    if edges == [] then None
    else
      var last := edges[|edges| - 1];
      if last.ParentEdge? then First(last.parent) else ParentOf(edges[..|edges| - 1])
  }

  /** The edges of a specification, in the order of `createSpec`: those that have targets. */
  function EdgesOf(e: EdgeIDs, joined: Time): seq<EdgeSpec> {
      Targets(e.groups, GroupsEdge(e.groups, DEFAULT_JOIN_PRIORITY, joined))
    + Targets(e.proxies, ProxyEdge(e.proxies))
    + Targets(e.parents, ParentEdge(e.parents))
    + Targets(e.children, ChildrenEdge(e.children))
    + Targets(e.usageLogs, UsageLogsEdge(e.usageLogs))
  }

  function Targets(targets: seq<int>, e: EdgeSpec): seq<EdgeSpec> {
    if targets == [] then [] else [e]
  }

  /** An edge is written exactly if it has targets; a membership starts with priority 50 at the time of the save. */
  lemma EdgesMean(e: EdgeIDs, joined: Time, x: EdgeSpec)
    ensures x in EdgesOf(e, joined) <==>
              || (e.groups != [] && x == GroupsEdge(e.groups, 50, joined)) || (e.proxies != [] && x == ProxyEdge(e.proxies))
              || (e.parents != [] && x == ParentEdge(e.parents)) || (e.children != [] && x == ChildrenEdge(e.children))
              || (e.usageLogs != [] && x == UsageLogsEdge(e.usageLogs))
  {
  }

  /** `createSpec`; `joined` is the time that the rows of the join table get. */
  method MakeSpec(m: AccountMutation, joined: Time) returns (node: AccountNode, spec: CreateSpec)
    requires m.WellFormed()
    ensures fresh(node) && fresh(spec) && Created(m.Value(), node.fields, spec, joined) && spec.id == None && node.fields.id == 0
    ensures ProxyOf(spec.edges) == First(m.edges.proxies) && ParentOf(spec.edges) == First(m.edges.parents)
  {
    hide Copied, ProxyOf, ParentOf, CellOf, EdgesOf;
    node := new AccountNode([false, false, false, false, false, false]);
    spec := new CreateSpec();
    CopiedNone(m.values);
    CopyFirstFields(m, node, spec);
    CopyNextFields(m, node, spec);
    CopyLastFields(m, node, spec);
    CopiedAll(m.values, node.fields, spec.fields);
    KeysAside(node.fields, First(m.edges.proxies), First(m.edges.parents));
    if |m.edges.proxies| > 0 {
      node.fields := node.fields.(numbers := node.fields.numbers.(proxyID := Some(m.edges.proxies[0])));
    }
    if |m.edges.parents| > 0 {
      node.fields := node.fields.(numbers := node.fields.numbers.(parentAccountID := Some(m.edges.parents[0])));
    }
    MakeEdges(m, spec, joined);
    KeysOfEdges(m.edges, joined);
  }

  lemma KeysAside(a: Account, proxy: Option<int>, parent: Option<int>)
    ensures forall c: Column | IsField(c) :: CellOf(a.(numbers := a.numbers.(proxyID := proxy, parentAccountID := parent)), c) == CellOf(a, c)
  {
  }

  /** The part of `createSpec` that adds the edges. */
  method MakeEdges(m: AccountMutation, spec: CreateSpec, joined: Time)
    requires spec.edges == []
    modifies spec`edges
    ensures spec.edges == EdgesOf(m.edges, joined)
  {
    hide Targets;
    AddEdge(spec, m.edges.groups, GroupsEdge(m.edges.groups, DEFAULT_JOIN_PRIORITY, joined));
    AddEdge(spec, m.edges.proxies, ProxyEdge(m.edges.proxies));
    AddEdge(spec, m.edges.parents, ParentEdge(m.edges.parents));
    AddEdge(spec, m.edges.children, ChildrenEdge(m.edges.children));
    AddEdge(spec, m.edges.usageLogs, UsageLogsEdge(m.edges.usageLogs));
  }

  /** Adds an edge that has targets. */
  method AddEdge(spec: CreateSpec, targets: seq<int>, e: EdgeSpec)
    modifies spec`edges
    ensures spec.edges == old(spec.edges) + Targets(targets, e)
  {
    if |targets| > 0 {
      spec.edges := spec.edges + [e];
    }
  }

  /** The foreign keys that the edges write are those of the first proxy and the first parent. */
  lemma KeysOfEdges(e: EdgeIDs, joined: Time)
    ensures ProxyOf(EdgesOf(e, joined)) == First(e.proxies) && ParentOf(EdgesOf(e, joined)) == First(e.parents)
  {
    hide ProxyOf, ParentOf;
    var t1 := Targets(e.groups, GroupsEdge(e.groups, DEFAULT_JOIN_PRIORITY, joined));
    NoKeys();
    assert [] + t1 == t1;
    KeysOfTargets([], e.groups, GroupsEdge(e.groups, DEFAULT_JOIN_PRIORITY, joined));
    var t2 := t1 + Targets(e.proxies, ProxyEdge(e.proxies));
    KeysOfTargets(t1, e.proxies, ProxyEdge(e.proxies));
    var t3 := t2 + Targets(e.parents, ParentEdge(e.parents));
    KeysOfTargets(t2, e.parents, ParentEdge(e.parents));
    var t4 := t3 + Targets(e.children, ChildrenEdge(e.children));
    KeysOfTargets(t3, e.children, ChildrenEdge(e.children));
    KeysOfTargets(t4, e.usageLogs, UsageLogsEdge(e.usageLogs));
  }

  lemma KeysOfTargets(edges: seq<EdgeSpec>, targets: seq<int>, e: EdgeSpec)
    ensures ProxyOf(edges + Targets(targets, e))
         == if targets != [] && e.ProxyEdge? then First(e.proxy) else ProxyOf(edges)
    ensures ParentOf(edges + Targets(targets, e))
         == if targets != [] && e.ParentEdge? then First(e.parent) else ParentOf(edges)
  {
    if targets == [] {
      assert edges + [] == edges;
    } else {
      assert (edges + [e])[..|edges|] == edges;
    }
  }

  lemma NoKeys()
    ensures ProxyOf([]) == None && ParentOf([]) == None
  {
  }

  /** Columns 0 to 9 of `createSpec`. */
  method CopyFirstFields(m: AccountMutation, node: AccountNode, spec: CreateSpec)
    requires m.WellFormed() && Copied(m.values, node.fields, spec.fields, 0)
    modifies node`fields, spec`fields
    ensures Copied(m.values, node.fields, spec.fields, 10)
  {
    hide Copied, FieldRank, IsField, TypedFields, AccountMutation.WellFormed;
    TheFirstFields();
    CopyField(m, node, spec, CreatedAt, 0);
    CopyField(m, node, spec, UpdatedAt, 1);
    CopyField(m, node, spec, DeletedAt, 2);
    CopyField(m, node, spec, Name, 3);
    CopyField(m, node, spec, Notes, 4);
    CopyField(m, node, spec, Platform, 5);
    CopyField(m, node, spec, AccountType, 6);
    CopyField(m, node, spec, Credentials, 7);
    CopyField(m, node, spec, Extra, 8);
    CopyField(m, node, spec, ProxyFallbackOriginID, 9);
  }

  /** Columns 10 to 19 of `createSpec`. */
  method CopyNextFields(m: AccountMutation, node: AccountNode, spec: CreateSpec)
    requires m.WellFormed() && Copied(m.values, node.fields, spec.fields, 10)
    modifies node`fields, spec`fields
    ensures Copied(m.values, node.fields, spec.fields, 20)
  {
    hide Copied, FieldRank, IsField, TypedFields, AccountMutation.WellFormed;
    TheNextFields();
    TheMiddleFields();
    CopyField(m, node, spec, Concurrency, 10);
    CopyField(m, node, spec, LoadFactor, 11);
    CopyField(m, node, spec, Priority, 12);
    CopyField(m, node, spec, RateMultiplier, 13);
    CopyField(m, node, spec, Status, 14);
    CopyField(m, node, spec, ErrorMessage, 15);
    CopyField(m, node, spec, LastUsedAt, 16);
    CopyField(m, node, spec, ExpiresAt, 17);
    CopyField(m, node, spec, AutoPauseOnExpired, 18);
    CopyField(m, node, spec, Schedulable, 19);
  }

  /** Columns 20 to 28 of `createSpec`. */
  method CopyLastFields(m: AccountMutation, node: AccountNode, spec: CreateSpec)
    requires m.WellFormed() && Copied(m.values, node.fields, spec.fields, 20)
    modifies node`fields, spec`fields
    ensures Copied(m.values, node.fields, spec.fields, 29)
  {
    hide Copied, FieldRank, IsField, TypedFields, AccountMutation.WellFormed;
    TheLaterFields();
    TheLastFields();
    CopyField(m, node, spec, RateLimitedAt, 20);
    CopyField(m, node, spec, RateLimitResetAt, 21);
    CopyField(m, node, spec, OverloadUntil, 22);
    CopyField(m, node, spec, TempUnschedulableUntil, 23);
    CopyField(m, node, spec, TempUnschedulableReason, 24);
    CopyField(m, node, spec, SessionWindowStart, 25);
    CopyField(m, node, spec, SessionWindowEnd, 26);
    CopyField(m, node, spec, SessionWindowStatus, 27);
    CopyField(m, node, spec, QuotaDimension, 28);
  }

  lemma CopiedAll(values: map<Column, Cell>, a: Account, fields: map<Column, Cell>)
    requires TypedFields(values) && Copied(values, a, fields, 29)
    ensures fields == values && a.id == 0 && a.numbers.proxyID == None && a.numbers.parentAccountID == None
    ensures forall c: Column | IsField(c) :: CellOf(a, c) == if c in values then values[c] else CellOf(ZERO_ACCOUNT, c)
  {
    RanksOfFields();
    assert fields == values && (forall c: Column | !c.Other? ::
        CellOf(a, c) == if c in values then values[c] else CellOf(ZERO_ACCOUNT, c)) by {
      hide CellOf, FieldRank, HasType, IsField;
    }
    assert ID !in values && ProxyID !in values && ParentAccountID !in values;
    hide FieldRank, HasType, TypedFields, Copied;
    KeysOfCells(a);
  }

  lemma RanksOfFields()
    ensures forall c: Column | IsField(c) :: FieldRank(c) < 29
  {
  }

  lemma KeysOfCells(a: Account)
    ensures CellOf(a, ID) == CellOf(ZERO_ACCOUNT, ID) ==> a.id == 0
    ensures CellOf(a, ProxyID) == CellOf(ZERO_ACCOUNT, ProxyID) ==> a.numbers.proxyID == None
    ensures CellOf(a, ParentAccountID) == CellOf(ZERO_ACCOUNT, ParentAccountID) ==> a.numbers.parentAccountID == None
  {
  }

  // ------------------------------------------------------- create, then read

  /** The default of a column in the table itself, for a column that the insert does not name. */
  function TableDefault(c: Column): Cell {
    match c
    case Concurrency => IntCell(DEFAULT_CONCURRENCY)
    case Priority => IntCell(DEFAULT_PRIORITY)
    case RateMultiplier => FloatCell(DEFAULT_RATE_MULTIPLIER)
    case Status => StringCell(DEFAULT_STATUS)
    case AutoPauseOnExpired => BoolCell(true)
    case Schedulable => BoolCell(true)
    case QuotaDimension => StringCell(DEFAULT_QUOTA_DIMENSION)
    case _ => Null
  }

  /** The cell that the insert writes into a column. */
  function WrittenCell(fields: map<Column, Cell>, edges: seq<EdgeSpec>, id: int, c: Column): Cell {
    if c == ID then IntCell(id)
    else if c in fields then fields[c]
    else if c == ProxyID && ProxyOf(edges).Some? then IntCell(ProxyOf(edges).value)
    else if c == ParentAccountID && ParentOf(edges).Some? then IntCell(ParentOf(edges).value)
    else TableDefault(c)
  }

  /** The holders after a query over `columns` has scanned the written row. */
  function ScannedRow(fields: map<Column, Cell>, edges: seq<EdgeSpec>, id: int, columns: seq<Column>): (r: seq<Holder>)
    ensures |r| == |columns|
    ensures forall i | 0 <= i < |columns| :: r[i] == Fill(HolderFor(columns[i]), WrittenCell(fields, edges, id, columns[i]))
  {
    seq(|columns|, i requires 0 <= i < |columns| => Fill(HolderFor(columns[i]), WrittenCell(fields, edges, id, columns[i])))
  }

  /** A cell that the insert can write into a column. */
  predicate Writable(c: Column, v: Cell) {
    if c == ID then v.IntCell? else v.Null? || HasType(c, v)
  }

  lemma WrittenIsWritable(fields: map<Column, Cell>, edges: seq<EdgeSpec>, id: int, c: Column)
    requires TypedFields(fields)
    ensures Writable(c, WrittenCell(fields, edges, id, c))
  {
  }

  /** What a field shows once a writable cell has been scanned. */
  function Shown(c: Column, v: Cell): Cell {
    if v.Null? then CellOf(ZERO_ACCOUNT, c) else v
  }

  /** The zero values that a scanned value or a NULL meets. */
  lemma ZeroCells()
    ensures CellOf(ZERO_ACCOUNT, ID) == IntCell(0)
    ensures CellOf(ZERO_ACCOUNT, Credentials) == JsonCell(NullLiteral) && CellOf(ZERO_ACCOUNT, Extra) == JsonCell(NullLiteral)
  {
  }

  lemma FillIsHolderOf(c: Column, v: Cell)
    requires !c.Other? && Writable(c, v)
    ensures Fill(HolderFor(c), v) == if v.Null? then HolderFor(c) else HolderOf(v)
    ensures v.JsonCell? ==> (c == Credentials || c == Extra) && v.bytes != Malformed
  {
  }

  lemma ScanIsTyped(c: Column, v: Cell)
    requires !c.Other? && Writable(c, v)
    ensures var h := Fill(HolderFor(c), v);
            Typed(c, h) && h != Bytes(Malformed)
  {
  }

  /** Scanning a written cell into an untouched field shows it; scanning it again changes nothing. */
  lemma FillShows(c: Column, v: Cell)
    requires !c.Other? && Writable(c, v)
    ensures var h := Fill(HolderFor(c), v);
            Typed(c, h) && h != Bytes(Malformed)
    ensures var h := Fill(HolderFor(c), v);
            Updated(c, CellOf(ZERO_ACCOUNT, c), h) == Shown(c, v) && Updated(c, Shown(c, v), h) == Shown(c, v)
  {
    ScanIsTyped(c, v);
    FillIsHolderOf(c, v);
    ZeroCells();
    if v.JsonCell? && v.bytes.Object? {
      assert v.bytes.members + v.bytes.members == v.bytes.members;
    }
    hide CellOf, Fill, Typed, Writable, HasType;
  }

  lemma {:induction false} WrittenHistory(fields: map<Column, Cell>, edges: seq<EdgeSpec>, id: int, columns: seq<Column>, c: Column)
    requires TypedFields(fields) && !c.Other?
    requires TypedAll(columns, ScannedRow(fields, edges, id, columns))
    ensures FinalCell(c, CellOf(ZERO_ACCOUNT, c), columns, ScannedRow(fields, edges, id, columns))
         == if c in columns then Shown(c, WrittenCell(fields, edges, id, c)) else CellOf(ZERO_ACCOUNT, c)
  {
    hide WrittenCell, CellOf, Updated, Shown;
    if columns != [] {
      var n := |columns| - 1;
      assert columns == columns[..n] + [columns[n]];
      assert ScannedRow(fields, edges, id, columns)[..n] == ScannedRow(fields, edges, id, columns[..n]);
      WrittenHistory(fields, edges, id, columns[..n], c);
      WrittenIsWritable(fields, edges, id, c);
      FillShows(c, WrittenCell(fields, edges, id, c));
    }
  }

  lemma ScannedIsTyped(fields: map<Column, Cell>, edges: seq<EdgeSpec>, id: int, columns: seq<Column>)
    requires TypedFields(fields)
    ensures TypedAll(columns, ScannedRow(fields, edges, id, columns))
    ensures AssignAll(ZERO_ACCOUNT, columns, ScannedRow(fields, edges, id, columns)).error.None?
  {
    forall i | 0 <= i < |columns|
      ensures Typed(columns[i], ScannedRow(fields, edges, id, columns)[i])
      ensures ScannedRow(fields, edges, id, columns)[i] != Bytes(Malformed)
    {
      WrittenIsWritable(fields, edges, id, columns[i]);
      if !columns[i].Other? {
        FillShows(columns[i], WrittenCell(fields, edges, id, columns[i]));
      }
    }
    AssignAllFailsOnMalformedJsonOnly(ZERO_ACCOUNT, columns, ScannedRow(fields, edges, id, columns));
  }

  /**
   Create and read agree: for every mutation that passes the check, scanning all columns of the row that
   its specification writes gives the entity that `createSpec` returned, with the id that the insert assigned.
   */
  lemma CreateReadRoundTrip(d: Draft, a: Account, spec: CreateSpec, joined: Time, id: int, c: Column)
    requires TypedFields(d.values) && Acceptable(d.values) && Created(d, a, spec, joined) && !c.Other?
    ensures var r := AssignAll(ZERO_ACCOUNT, ALL_COLUMNS, ScannedRow(spec.fields, spec.edges, id, ALL_COLUMNS));
            r.error.None? && CellOf(r.account, c) == if c == ID then IntCell(id) else CellOf(a, c)
  {
    hide WrittenCell, CellOf, Shown, Acceptable, EdgesOf;
    var holders := ScannedRow(spec.fields, spec.edges, id, ALL_COLUMNS);
    ScannedIsTyped(spec.fields, spec.edges, id, ALL_COLUMNS);
    AssignAllFields(ZERO_ACCOUNT, ALL_COLUMNS, holders, c);
    WrittenHistory(spec.fields, spec.edges, id, ALL_COLUMNS, c);
    KnownColumn(c);
    WrittenShows(d, a, spec, joined, id, c);
  }

  /** Each cell of the written row shows the field of the returned entity. */
  lemma WrittenShows(d: Draft, a: Account, spec: CreateSpec, joined: Time, id: int, c: Column)
    requires TypedFields(d.values) && Acceptable(d.values) && Created(d, a, spec, joined) && !c.Other?
    ensures Shown(c, WrittenCell(spec.fields, spec.edges, id, c)) == if c == ID then IntCell(id) else CellOf(a, c)
  {
    if IsField(c) {
      FieldShows(d, a, spec, joined, id, c);
    } else {
      hide HasType, Acceptable, Required, ValidValue, EdgesOf, ProxyOf, ParentOf;
      KeysOfEdges(d.edges, joined);
      assert c !in d.values;
    }
  }

  lemma FieldShows(d: Draft, a: Account, spec: CreateSpec, joined: Time, id: int, c: Column)
    requires TypedFields(d.values) && Acceptable(d.values) && Created(d, a, spec, joined) && IsField(c)
    ensures Shown(c, WrittenCell(spec.fields, spec.edges, id, c)) == CellOf(a, c)
  {
    hide CellOf, EdgesOf, ProxyOf, ParentOf, ValidValue, TableDefault, Required;
    DefaultsAreRequired(c);
    assert CellOf(a, c) == if c in d.values then d.values[c] else CellOf(ZERO_ACCOUNT, c);
    NotNull(c);
  }

  /** A value of a column's type is not NULL. */
  lemma NotNull(c: Column)
    ensures forall v :: HasType(c, v) ==> v != Null
  {
  }

  /** A column with a default in the table is one that the check requires. */
  lemma DefaultsAreRequired(c: Column)
    ensures TableDefault(c) != Null ==> Required(c)
  {
  }

  lemma KnownColumn(c: Column)
    requires !c.Other?
    ensures c in ALL_COLUMNS
  {
  }

  /** A mutation that passes `check` leaves no `NOT NULL` column empty, and no default to the table. */
  lemma CheckedRowIsComplete(d: Draft, a: Account, spec: CreateSpec, joined: Time, id: int, c: Column)
    requires TypedFields(d.values) && Created(d, a, spec, joined) && Acceptable(d.values) && Required(c)
    ensures WrittenCell(spec.fields, spec.edges, id, c) == d.values[c] != Null
  {
    assert c in d.values && IsField(c) && HasType(c, d.values[c]);
  }

  lemma DefaultIsValid(c: Column, created: Time, updated: Time)
    requires HasDefault(c)
    ensures ValidValue(c, DefaultValue(c, created, updated))
  {
  }

  lemma WithoutDefault()
    ensures !HasDefault(Name) && !HasDefault(Platform) && !HasDefault(AccountType)
  {
  }

  lemma ValuesMean(start: map<Column, Cell>)
    requires TypedFields(start)
    ensures (forall c | c in {Name, Platform, AccountType} :: c in start) && (forall c | c in start :: ValidValue(c, start[c])) <==>
              && TextWithin(start, Name, 1, 100) && TextWithin(start, Platform, 1, 50) && TextWithin(start, AccountType, 1, 20)
              && (Status in start ==> TextWithin(start, Status, 0, 20))
              && (SessionWindowStatus in start ==> TextWithin(start, SessionWindowStatus, 0, 20))
              && (QuotaDimension in start ==> start[QuotaDimension] in {StringCell("global"), StringCell("spark")})
  {
    AllValid(start);
    hide TypedFields, ValidValue;
  }

  /** After `defaults` only what the caller sets or leaves out can fail the check. */
  lemma WhatCheckRejects(start: map<Column, Cell>, values: map<Column, Cell>, created: Time, updated: Time)
    requires TypedFields(start) && Filled(start, values, 11, created, updated)
    ensures Acceptable(values) <==>
              (forall c | c in {Name, Platform, AccountType} :: c in start) && forall c | c in start :: ValidValue(c, start[c])
    ensures Acceptable(values) <==>
              && TextWithin(start, Name, 1, 100) && TextWithin(start, Platform, 1, 50) && TextWithin(start, AccountType, 1, 20)
              && (Status in start ==> TextWithin(start, Status, 0, 20))
              && (SessionWindowStatus in start ==> TextWithin(start, SessionWindowStatus, 0, 20))
              && (QuotaDimension in start ==> start[QuotaDimension] in {StringCell("global"), StringCell("spark")})
  {
    ValuesMean(start);
    hide ValidValue, DefaultValue, DefaultRank, TypedFields, TextWithin;
    WithoutDefault();
    if forall c | c in start :: ValidValue(c, start[c]) {
      forall c | c in values ensures ValidValue(c, values[c]) {
        if c !in start {
          DefaultIsValid(c, created, updated);
        }
      }
    } else {
      var c :| c in start && !ValidValue(c, start[c]);
      assert c in values && !ValidValue(c, values[c]);
    }
  }
}
