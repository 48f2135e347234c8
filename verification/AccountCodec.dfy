/**
 The row codec of `Account`: `scanValues` allocates one typed holder per selected column, the
 driver fills the holders, and `assignValues` copies them into the entity.  Both work on any
 column list: repeated columns and columns the entity does not know are allowed.
 */
module AccountCodec {
  import opened Wrappers

  type Time = int

  /** A JSON object column as the entity holds it: a Go map, or nil. */
  type Json = Option<map<string, string>>

  /** The bytes of a JSON column; SQL NULL is the empty slice. */
  datatype JsonBytes = Empty | NullLiteral | Object(members: map<string, string>) | Malformed

  /** Encoding a map: nil becomes the literal `null`. */
  function Marshal(j: Json): JsonBytes {
    if j.None? then NullLiteral else Object(j.value)
  }

  /** Decoding into a map that may already hold members: they are kept unless overwritten. */
  function Unmarshal(b: JsonBytes, into: Json): Json
    requires b.NullLiteral? || b.Object?
  {
    match b
    case NullLiteral => None
    case Object(members) => if into.None? then Some(members) else Some(into.value + members)
  }

  datatype Column =
    ID | CreatedAt | UpdatedAt | DeletedAt | Name | Notes | Platform | AccountType | Credentials | Extra |
    ProxyID | ProxyFallbackOriginID | Concurrency | LoadFactor | Priority | RateMultiplier | Status |
    ErrorMessage | LastUsedAt | ExpiresAt | AutoPauseOnExpired | Schedulable | RateLimitedAt |
    RateLimitResetAt | OverloadUntil | TempUnschedulableUntil | TempUnschedulableReason |
    SessionWindowStart | SessionWindowEnd | SessionWindowStatus | ParentAccountID | QuotaDimension |
    Other(column: string)

  /** The value of one column in one row of the table. */
  datatype Cell =
    Null | IntCell(i: int) | StringCell(s: string) | TimeCell(t: Time) | BoolCell(b: bool) |
    FloatCell(f: real) | JsonCell(bytes: JsonBytes)

  /** What `rows.Scan` writes into; the `Option` is the `Valid` flag together with the value. */
  datatype Holder =
    NullInt64(int64: Option<int>) | NullString(str: Option<string>) | NullTime(time: Option<Time>) |
    NullBool(boolean: Option<bool>) | NullFloat64(float64: Option<real>) | Bytes(bytes: JsonBytes) |
    UnknownType(any: Cell)

  // The fields of the entity, grouped by their type.

  datatype Numbers = Numbers(
    proxyID: Option<int>, proxyFallbackOriginID: Option<int>, concurrency: int, loadFactor: Option<int>, priority: int,
    parentAccountID: Option<int>)

  datatype Times = Times(
    createdAt: Time, updatedAt: Time, deletedAt: Option<Time>, lastUsedAt: Option<Time>, expiresAt: Option<Time>,
    rateLimitedAt: Option<Time>, rateLimitResetAt: Option<Time>, overloadUntil: Option<Time>,
    tempUnschedulableUntil: Option<Time>, sessionWindowStart: Option<Time>, sessionWindowEnd: Option<Time>)

  datatype Strings = Strings(
    name: string, notes: Option<string>, platform: string, accountType: string, status: string,
    errorMessage: Option<string>, tempUnschedulableReason: Option<string>, sessionWindowStatus: Option<string>,
    quotaDimension: string)

  datatype Account = Account(
    id: int, numbers: Numbers, times: Times, strings: Strings, rateMultiplier: real,
    autoPauseOnExpired: bool, schedulable: bool, credentials: Json, extra: Json, selectValues: map<string, Holder>)

  /** `account.Columns`. */
  const ALL_COLUMNS: seq<Column> := [
    ID, CreatedAt, UpdatedAt, DeletedAt, Name, Notes, Platform, AccountType, Credentials, Extra, ProxyID,
    ProxyFallbackOriginID, Concurrency, LoadFactor, Priority, RateMultiplier, Status, ErrorMessage,
    LastUsedAt, ExpiresAt, AutoPauseOnExpired, Schedulable, RateLimitedAt, RateLimitResetAt, OverloadUntil,
    TempUnschedulableUntil, TempUnschedulableReason, SessionWindowStart, SessionWindowEnd,
    SessionWindowStatus, ParentAccountID, QuotaDimension]

  const ZERO_ACCOUNT := Account(
    0, Numbers(None, None, 0, None, 0, None), Times(0, 0, None, None, None, None, None, None, None, None, None),
    Strings("", None, "", "", "", None, None, None, ""), 0.0, false, false, None, None, map[])

  datatype CodecError =
    MismatchedLength(values: nat, columns: nat) | UnexpectedType(column: Column) | UnmarshalField(column: Column)

  /** The entity after an assignment, and the error that stopped it. */
  datatype AssignResult = AssignResult(account: Account, error: Option<CodecError>)

  function Assigned(a: Account): AssignResult {
    AssignResult(a, None)
  }

  function Unexpected(a: Account, c: Column): AssignResult {
    AssignResult(a, Some(UnexpectedType(c)))
  }

  /** The type of a column. */
  datatype Kind = IdKind | NumberKind | TimeKind | StringKind | BoolKind | FloatKind | JsonKind | UnknownKind

  function KindOf(c: Column): Kind {
    match c
    case ID => IdKind
    case ProxyID | ProxyFallbackOriginID | Concurrency | LoadFactor | Priority | ParentAccountID => NumberKind
    case CreatedAt | UpdatedAt | DeletedAt | LastUsedAt | ExpiresAt | RateLimitedAt | RateLimitResetAt |
      OverloadUntil | TempUnschedulableUntil | SessionWindowStart | SessionWindowEnd => TimeKind
    case Name | Notes | Platform | AccountType | Status | ErrorMessage | TempUnschedulableReason |
      SessionWindowStatus | QuotaDimension => StringKind
    case AutoPauseOnExpired | Schedulable => BoolKind
    case RateMultiplier => FloatKind
    case Credentials | Extra => JsonKind
    case Other(_) => UnknownKind
  }

  /** The empty holder that `scanValues` allocates for a column. */
  function HolderFor(c: Column): Holder {
    match KindOf(c)
    case IdKind | NumberKind => NullInt64(None)
    case TimeKind => NullTime(None)
    case StringKind => NullString(None)
    case BoolKind => NullBool(None)
    case FloatKind => NullFloat64(None)
    case JsonKind => Bytes(Empty)
    case UnknownKind => UnknownType(Null)
  }

  // The cell of the table that holds a field of an entity.

  function NumberCell(n: Numbers, c: Column): Cell {
    match c
    case ProxyID => if n.proxyID.None? then Null else IntCell(n.proxyID.value)
    case ProxyFallbackOriginID => if n.proxyFallbackOriginID.None? then Null else IntCell(n.proxyFallbackOriginID.value)
    case Concurrency => IntCell(n.concurrency)
    case LoadFactor => if n.loadFactor.None? then Null else IntCell(n.loadFactor.value)
    case Priority => IntCell(n.priority)
    case ParentAccountID => if n.parentAccountID.None? then Null else IntCell(n.parentAccountID.value)
    case _ => Null
  }

  function TimeCellOf(t: Times, c: Column): Cell {
    match c
    case CreatedAt => TimeCell(t.createdAt)
    case UpdatedAt => TimeCell(t.updatedAt)
    case DeletedAt => if t.deletedAt.None? then Null else TimeCell(t.deletedAt.value)
    case LastUsedAt => if t.lastUsedAt.None? then Null else TimeCell(t.lastUsedAt.value)
    case ExpiresAt => if t.expiresAt.None? then Null else TimeCell(t.expiresAt.value)
    case RateLimitedAt => if t.rateLimitedAt.None? then Null else TimeCell(t.rateLimitedAt.value)
    case RateLimitResetAt => if t.rateLimitResetAt.None? then Null else TimeCell(t.rateLimitResetAt.value)
    case OverloadUntil => if t.overloadUntil.None? then Null else TimeCell(t.overloadUntil.value)
    case TempUnschedulableUntil => if t.tempUnschedulableUntil.None? then Null else TimeCell(t.tempUnschedulableUntil.value)
    case SessionWindowStart => if t.sessionWindowStart.None? then Null else TimeCell(t.sessionWindowStart.value)
    case SessionWindowEnd => if t.sessionWindowEnd.None? then Null else TimeCell(t.sessionWindowEnd.value)
    case _ => Null
  }

  function StringCellOf(s: Strings, c: Column): Cell {
    match c
    case Name => StringCell(s.name)
    case Notes => if s.notes.None? then Null else StringCell(s.notes.value)
    case Platform => StringCell(s.platform)
    case AccountType => StringCell(s.accountType)
    case Status => StringCell(s.status)
    case ErrorMessage => if s.errorMessage.None? then Null else StringCell(s.errorMessage.value)
    case TempUnschedulableReason => if s.tempUnschedulableReason.None? then Null else StringCell(s.tempUnschedulableReason.value)
    case SessionWindowStatus => if s.sessionWindowStatus.None? then Null else StringCell(s.sessionWindowStatus.value)
    case QuotaDimension => StringCell(s.quotaDimension)
    case _ => Null
  }

  function CellOf(a: Account, c: Column): Cell {
    match KindOf(c)
    case IdKind => IntCell(a.id)
    case NumberKind => NumberCell(a.numbers, c)
    case TimeKind => TimeCellOf(a.times, c)
    case StringKind => StringCellOf(a.strings, c)
    case BoolKind => BoolCell(if c == Schedulable then a.schedulable else a.autoPauseOnExpired)
    case FloatKind => FloatCell(a.rateMultiplier)
    case JsonKind => JsonCell(Marshal(if c == Credentials then a.credentials else a.extra))
    case UnknownKind => Null
  }

  /** A field that was not selected has the zero value of its type. */
  lemma ZeroCell(c: Column)
    ensures CellOf(ZERO_ACCOUNT, c) in {Null, IntCell(0), TimeCell(0), StringCell(""), BoolCell(false), FloatCell(0.0), JsonCell(NullLiteral)}
  {
  }

  // Setting one field.

  function PutNumber(n: Numbers, c: Column, v: int): Numbers {
    match c
    case ProxyID => n.(proxyID := Some(v))
    case ProxyFallbackOriginID => n.(proxyFallbackOriginID := Some(v))
    case Concurrency => n.(concurrency := v)
    case LoadFactor => n.(loadFactor := Some(v))
    case Priority => n.(priority := v)
    case ParentAccountID => n.(parentAccountID := Some(v))
    case _ => n
  }

  function PutTime(t: Times, c: Column, v: Time): Times {
    match c
    case CreatedAt => t.(createdAt := v)
    case UpdatedAt => t.(updatedAt := v)
    case DeletedAt => t.(deletedAt := Some(v))
    case LastUsedAt => t.(lastUsedAt := Some(v))
    case ExpiresAt => t.(expiresAt := Some(v))
    case RateLimitedAt => t.(rateLimitedAt := Some(v))
    case RateLimitResetAt => t.(rateLimitResetAt := Some(v))
    case OverloadUntil => t.(overloadUntil := Some(v))
    case TempUnschedulableUntil => t.(tempUnschedulableUntil := Some(v))
    case SessionWindowStart => t.(sessionWindowStart := Some(v))
    case SessionWindowEnd => t.(sessionWindowEnd := Some(v))
    case _ => t
  }

  function PutString(s: Strings, c: Column, v: string): Strings {
    match c
    case Name => s.(name := v)
    case Notes => s.(notes := Some(v))
    case Platform => s.(platform := v)
    case AccountType => s.(accountType := v)
    case Status => s.(status := v)
    case ErrorMessage => s.(errorMessage := Some(v))
    case TempUnschedulableReason => s.(tempUnschedulableReason := Some(v))
    case SessionWindowStatus => s.(sessionWindowStatus := Some(v))
    case QuotaDimension => s.(quotaDimension := v)
    case _ => s
  }

  function PutJson(a: Account, c: Column, b: JsonBytes): Account
    requires b.NullLiteral? || b.Object?
  {
    if c == Credentials then a.(credentials := Unmarshal(b, a.credentials)) else a.(extra := Unmarshal(b, a.extra))
  }

  /** One turn of the loop of `assignValues`: the holder must have the type of its column. */
  function AssignOne(a: Account, c: Column, h: Holder): AssignResult {
    match KindOf(c)
    case IdKind =>
      if !h.NullInt64? then Unexpected(a, c)
      else Assigned(a.(id := if h.int64.None? then 0 else h.int64.value))
    case NumberKind =>
      if !h.NullInt64? then Unexpected(a, c)
      else Assigned(if h.int64.None? then a else a.(numbers := PutNumber(a.numbers, c, h.int64.value)))
    case TimeKind =>
      if !h.NullTime? then Unexpected(a, c)
      else Assigned(if h.time.None? then a else a.(times := PutTime(a.times, c, h.time.value)))
    case StringKind =>
      if !h.NullString? then Unexpected(a, c)
      else Assigned(if h.str.None? then a else a.(strings := PutString(a.strings, c, h.str.value)))
    case BoolKind =>
      if !h.NullBool? then Unexpected(a, c)
      else Assigned(
        if h.boolean.None? then a
        else if c == Schedulable then a.(schedulable := h.boolean.value) else a.(autoPauseOnExpired := h.boolean.value))
    case FloatKind =>
      if !h.NullFloat64? then Unexpected(a, c)
      else Assigned(if h.float64.None? then a else a.(rateMultiplier := h.float64.value))
    case JsonKind =>
      if !h.Bytes? then Unexpected(a, c)
      else if h.bytes.Empty? then Assigned(a)
      else if h.bytes.Malformed? then AssignResult(a, Some(UnmarshalField(c)))
      else Assigned(PutJson(a, c, h.bytes))
    case UnknownKind => Assigned(if c.Other? then a.(selectValues := a.selectValues[c.column := h]) else a)
  }

  /** The loop of `assignValues` from column `0`; it stops at the first error. */
  function AssignAll(a: Account, columns: seq<Column>, values: seq<Holder>): AssignResult
    requires |columns| <= |values|
  {
    if columns == [] then Assigned(a)
    else
      var n := |columns| - 1;
      var before := AssignAll(a, columns[..n], values[..n]);
      if before.error.Some? then before else AssignOne(before.account, columns[n], values[n])
  }

  // ---------------------------------------------------------------- methods

  /** `scanValues`. */
  method ScanValues(columns: seq<Column>) returns (values: array<Holder>)
    ensures fresh(values) && values.Length == |columns|
    ensures forall i | 0 <= i < |columns| :: values[i] == HolderFor(columns[i])
  {
    values := new Holder[|columns|](_ => UnknownType(Null));
    for i := 0 to |columns|
      invariant forall k | 0 <= k < i :: values[k] == HolderFor(columns[k])
    {
      values[i] := HolderFor(columns[i]);
    }
  }

  /** What the driver stores when it scans `cell` into an empty holder for that column. */
  function Fill(h: Holder, cell: Cell): Holder {
    match (h, cell)
    case (NullInt64(_), IntCell(i)) => NullInt64(Some(i))
    case (NullString(_), StringCell(s)) => NullString(Some(s))
    case (NullTime(_), TimeCell(t)) => NullTime(Some(t))
    case (NullBool(_), BoolCell(b)) => NullBool(Some(b))
    case (NullFloat64(_), FloatCell(f)) => NullFloat64(Some(f))
    case (Bytes(_), JsonCell(b)) => Bytes(b)
    case (UnknownType(_), any) => UnknownType(any)
    case _ => h
  }

  /** The holder of the right type for its column, whatever it contains. */
  predicate Typed(c: Column, h: Holder) {
    match HolderFor(c)
    case NullInt64(_) => h.NullInt64?
    case NullString(_) => h.NullString?
    case NullTime(_) => h.NullTime?
    case NullBool(_) => h.NullBool?
    case NullFloat64(_) => h.NullFloat64?
    case Bytes(_) => h.Bytes?
    case UnknownType(_) => h.UnknownType?
  }

  predicate TypedAll(columns: seq<Column>, values: seq<Holder>) {
    |columns| <= |values| && forall i | 0 <= i < |columns| :: Typed(columns[i], values[i])
  }

  // ------------------------------------------------- what one field ends as

  /** How one holder changes the field it belongs to. */
  function Updated(c: Column, before: Cell, h: Holder): Cell
    requires Typed(c, h)
  {
    match h
    case NullInt64(v) => if v.Some? then IntCell(v.value) else if c == ID then IntCell(0) else before
    case NullString(v) => if v.Some? then StringCell(v.value) else before
    case NullTime(v) => if v.Some? then TimeCell(v.value) else before
    case NullBool(v) => if v.Some? then BoolCell(v.value) else before
    case NullFloat64(v) => if v.Some? then FloatCell(v.value) else before
    case Bytes(b) =>
      if b.Object? && before.JsonCell? && before.bytes.Object? then JsonCell(Object(before.bytes.members + b.members))
      else if b.Object? || b.NullLiteral? then JsonCell(b)
      else before
    case UnknownType(_) => before
  }

  /** The history of field `c`: the holders of its columns applied in column order. */
  function FinalCell(c: Column, start: Cell, columns: seq<Column>, values: seq<Holder>): Cell
    requires TypedAll(columns, values)
  {
    if columns == [] then start
    else
      var n := |columns| - 1;
      var before := FinalCell(c, start, columns[..n], values[..n]);
      if columns[n] == c then Updated(c, before, values[n]) else before
  }

  lemma PutNumberWrites(n: Numbers, c: Column, v: int, d: Column)
    requires KindOf(c) == NumberKind
    ensures NumberCell(PutNumber(n, c, v), d) == if d == c then IntCell(v) else NumberCell(n, d)
  {
  }

  lemma PutTimeWrites(t: Times, c: Column, v: Time, d: Column)
    requires KindOf(c) == TimeKind
    ensures TimeCellOf(PutTime(t, c, v), d) == if d == c then TimeCell(v) else TimeCellOf(t, d)
  {
  }

  lemma PutStringWrites(s: Strings, c: Column, v: string, d: Column)
    requires KindOf(c) == StringKind
    ensures StringCellOf(PutString(s, c, v), d) == if d == c then StringCell(v) else StringCellOf(s, d)
  {
  }

  lemma KindsOfOne(c: Column, d: Column)
    ensures KindOf(c) == IdKind <==> c == ID
    ensures KindOf(c) == FloatKind <==> c == RateMultiplier
    ensures KindOf(c) == BoolKind <==> c == Schedulable || c == AutoPauseOnExpired
    ensures KindOf(c) == JsonKind <==> c == Credentials || c == Extra
    ensures KindOf(c) == UnknownKind <==> c.Other?
  {
  }

  /** The holder is accepted and writes the field of its own column and no other. */
  predicate WritesOneField(a: Account, c: Column, h: Holder, d: Column)
    requires Typed(c, h)
  {
    && AssignOne(a, c, h).error.None?
    && CellOf(AssignOne(a, c, h).account, d) == if d == c then Updated(c, CellOf(a, c), h) else CellOf(a, d)
  }

  lemma NumberSet(a: Account, c: Column, v: int, d: Column)
    requires KindOf(c) == NumberKind
    ensures AssignOne(a, c, NullInt64(Some(v))) == Assigned(a.(numbers := PutNumber(a.numbers, c, v)))
    ensures CellOf(a.(numbers := PutNumber(a.numbers, c, v)), d) == if d == c then IntCell(v) else CellOf(a, d)
  {
    hide KindOf, NumberCell, TimeCellOf, StringCellOf, PutNumber, PutTime, PutString;
    PutNumberWrites(a.numbers, c, v, d);
  }

  lemma NumberWrites(a: Account, c: Column, v: int, d: Column)
    requires KindOf(c) == NumberKind && Typed(c, NullInt64(Some(v)))
    ensures WritesOneField(a, c, NullInt64(Some(v)), d)
  {
    hide KindOf, CellOf, AssignOne, PutNumber, Typed;
    NumberSet(a, c, v, d);
  }

  lemma NumberKept(a: Account, c: Column, d: Column)
    requires KindOf(c) == NumberKind && Typed(c, NullInt64(None))
    ensures WritesOneField(a, c, NullInt64(None), d)
  {
    hide KindOf, CellOf, Typed;
    KindsOfOne(c, c);
  }

  lemma TimeSet(a: Account, c: Column, v: Time, d: Column)
    requires KindOf(c) == TimeKind
    ensures AssignOne(a, c, NullTime(Some(v))) == Assigned(a.(times := PutTime(a.times, c, v)))
    ensures CellOf(a.(times := PutTime(a.times, c, v)), d) == if d == c then TimeCell(v) else CellOf(a, d)
  {
    hide KindOf, NumberCell, TimeCellOf, StringCellOf, PutNumber, PutTime, PutString;
    PutTimeWrites(a.times, c, v, d);
  }

  lemma TimeWrites(a: Account, c: Column, v: Time, d: Column)
    requires KindOf(c) == TimeKind && Typed(c, NullTime(Some(v)))
    ensures WritesOneField(a, c, NullTime(Some(v)), d)
  {
    hide KindOf, CellOf, AssignOne, PutTime, Typed;
    TimeSet(a, c, v, d);
  }

  lemma TimeKept(a: Account, c: Column, d: Column)
    requires KindOf(c) == TimeKind && Typed(c, NullTime(None))
    ensures WritesOneField(a, c, NullTime(None), d)
  {
    hide KindOf, CellOf, Typed;
    KindsOfOne(c, c);
  }

  lemma StringSet(a: Account, c: Column, v: string, d: Column)
    requires KindOf(c) == StringKind
    ensures AssignOne(a, c, NullString(Some(v))) == Assigned(a.(strings := PutString(a.strings, c, v)))
    ensures CellOf(a.(strings := PutString(a.strings, c, v)), d) == if d == c then StringCell(v) else CellOf(a, d)
  {
    hide KindOf, NumberCell, TimeCellOf, StringCellOf, PutNumber, PutTime, PutString;
    PutStringWrites(a.strings, c, v, d);
  }

  lemma StringWrites(a: Account, c: Column, v: string, d: Column)
    requires KindOf(c) == StringKind && Typed(c, NullString(Some(v)))
    ensures WritesOneField(a, c, NullString(Some(v)), d)
  {
    hide KindOf, CellOf, AssignOne, PutString, Typed;
    StringSet(a, c, v, d);
  }

  lemma StringKept(a: Account, c: Column, d: Column)
    requires KindOf(c) == StringKind && Typed(c, NullString(None))
    ensures WritesOneField(a, c, NullString(None), d)
  {
    hide KindOf, CellOf, Typed;
    KindsOfOne(c, c);
  }

  lemma IdWrites(a: Account, c: Column, h: Holder, d: Column)
    requires Typed(c, h) && h != Bytes(Malformed) && KindOf(c) == IdKind
    ensures WritesOneField(a, c, h, d)
  {
    hide KindOf, NumberCell, TimeCellOf, StringCellOf, PutNumber, PutTime, PutString;
    KindsOfOne(c, d);
    KindsOfOne(d, c);
  }

  lemma BoolWrites(a: Account, c: Column, h: Holder, d: Column)
    requires Typed(c, h) && h != Bytes(Malformed) && KindOf(c) == BoolKind
    ensures WritesOneField(a, c, h, d)
  {
    hide KindOf, NumberCell, TimeCellOf, StringCellOf, PutNumber, PutTime, PutString;
    KindsOfOne(c, d);
    KindsOfOne(d, c);
  }

  lemma FloatWrites(a: Account, c: Column, h: Holder, d: Column)
    requires Typed(c, h) && h != Bytes(Malformed) && KindOf(c) == FloatKind
    ensures WritesOneField(a, c, h, d)
  {
    hide KindOf, NumberCell, TimeCellOf, StringCellOf, PutNumber, PutTime, PutString;
    KindsOfOne(c, d);
    KindsOfOne(d, c);
  }

  lemma JsonWrites(a: Account, c: Column, h: Holder, d: Column)
    requires Typed(c, h) && h != Bytes(Malformed) && KindOf(c) == JsonKind
    ensures WritesOneField(a, c, h, d)
  {
    hide KindOf, NumberCell, TimeCellOf, StringCellOf, PutNumber, PutTime, PutString;
    KindsOfOne(c, d);
    KindsOfOne(d, c);
  }

  lemma UnknownWrites(a: Account, c: Column, h: Holder, d: Column)
    requires Typed(c, h) && h != Bytes(Malformed) && KindOf(c) == UnknownKind
    ensures WritesOneField(a, c, h, d)
  {
    KindsOfOne(c, c);
    UnknownIsAccepted(a, c, h);
    SelectedAside(a, a.selectValues[c.column := h], d);
    hide KindOf, CellOf, AssignOne;
  }

  lemma SelectedAside(a: Account, selected: map<string, Holder>, d: Column)
    ensures CellOf(a.(selectValues := selected), d) == CellOf(a, d)
  {
  }

  /** A typed holder matches the kind of its column. */
  lemma HolderOfKind(c: Column, h: Holder)
    requires Typed(c, h)
    ensures KindOf(c) == NumberKind ==> h.NullInt64?
    ensures KindOf(c) == TimeKind ==> h.NullTime?
    ensures KindOf(c) == StringKind ==> h.NullString?
  {
    hide KindOf;
  }

  lemma AssignOneWritesOneField(a: Account, c: Column, h: Holder, d: Column)
    requires Typed(c, h) && h != Bytes(Malformed)
    ensures AssignOne(a, c, h).error.None?
    ensures CellOf(AssignOne(a, c, h).account, d)
         == if d == c then Updated(c, CellOf(a, c), h) else CellOf(a, d)
  {
    assert WritesOneField(a, c, h, d) by {
      hide Typed, AssignOne, WritesOneField, KindOf;
      HolderOfKind(c, h);
      match KindOf(c) {
        case IdKind => IdWrites(a, c, h, d);
        case NumberKind =>
          if h.int64.Some? { NumberWrites(a, c, h.int64.value, d); } else { NumberKept(a, c, d); }
        case TimeKind =>
          if h.time.Some? { TimeWrites(a, c, h.time.value, d); } else { TimeKept(a, c, d); }
        case StringKind =>
          if h.str.Some? { StringWrites(a, c, h.str.value, d); } else { StringKept(a, c, d); }
        case BoolKind => BoolWrites(a, c, h, d);
        case FloatKind => FloatWrites(a, c, h, d);
        case JsonKind => JsonWrites(a, c, h, d);
        case UnknownKind => UnknownWrites(a, c, h, d);
      }
    }
    hide CellOf, AssignOne, Updated, Typed;
  }

  /** `assignValues` on typed holders fails on malformed JSON and on nothing else. */
  lemma {:induction false} AssignAllFailsOnMalformedJsonOnly(a: Account, columns: seq<Column>, values: seq<Holder>)
    requires TypedAll(columns, values)
    ensures AssignAll(a, columns, values).error.None?
       <==> forall i | 0 <= i < |columns| :: values[i] != Bytes(Malformed)
    ensures AssignAll(a, columns, values).error.Some? ==> AssignAll(a, columns, values).error.value.UnmarshalField?
  {
    if columns != [] {
      var n := |columns| - 1;
      AssignAllFailsOnMalformedJsonOnly(a, columns[..n], values[..n]);
      var before := AssignAll(a, columns[..n], values[..n]);
      if before.error.None? {
        if values[n] != Bytes(Malformed) {
          AssignOneWritesOneField(before.account, columns[n], values[n], ID);
        }
      } else {
        assert exists i | 0 <= i < n :: values[..n][i] == Bytes(Malformed);
      }
    }
  }

  /** Each field ends as the history of the holders for it, and of no others. */
  lemma {:induction false} AssignAllFields(a: Account, columns: seq<Column>, values: seq<Holder>, c: Column)
    requires TypedAll(columns, values)
    requires AssignAll(a, columns, values).error.None?
    ensures CellOf(AssignAll(a, columns, values).account, c) == FinalCell(c, CellOf(a, c), columns, values)
  {
    if columns != [] {
      var n := |columns| - 1;
      AssignAllFields(a, columns[..n], values[..n], c);
      AssignAllFailsOnMalformedJsonOnly(a, columns, values);
      var before := AssignAll(a, columns[..n], values[..n]);
      AssignOneWritesOneField(before.account, columns[n], values[n], c);
    }
  }

  /** The value a holder carries, if it is not NULL. */
  function Carried(h: Holder): Option<Cell> {
    match h
    case NullInt64(v) => if v.Some? then Some(IntCell(v.value)) else None
    case NullString(v) => if v.Some? then Some(StringCell(v.value)) else None
    case NullTime(v) => if v.Some? then Some(TimeCell(v.value)) else None
    case NullBool(v) => if v.Some? then Some(BoolCell(v.value)) else None
    case NullFloat64(v) => if v.Some? then Some(FloatCell(v.value)) else None
    case Bytes(b) => if b.Object? || b.NullLiteral? then Some(JsonCell(b)) else None
    case UnknownType(_) => None
  }

  /** Position `i` is the last one that carries a value for column `c`. */
  ghost predicate LastCarrier(c: Column, columns: seq<Column>, values: seq<Holder>, i: nat) {
    && i < |columns| <= |values|
    && columns[i] == c && Carried(values[i]).Some?
    && forall j | i < j < |columns| :: columns[j] == c ==> Carried(values[j]).None?
  }

  /** A NULL leaves every field but the id alone. */
  lemma NullKeeps(c: Column, before: Cell, h: Holder)
    requires Typed(c, h) && c != ID && Carried(h).None?
    ensures Updated(c, before, h) == before
  {
  }

  /** A value replaces a scalar field. */
  lemma ValueReplaces(c: Column, before: Cell, h: Holder)
    requires Typed(c, h) && c !in [ID, Credentials, Extra] && Carried(h).Some?
    ensures Some(Updated(c, before, h)) == Carried(h)
  {
  }

  /** A scalar field other than the id ends as the last non-NULL value for it. */
  lemma {:induction false} LastNonNullValueWins(c: Column, start: Cell, columns: seq<Column>, values: seq<Holder>, i: nat)
    requires TypedAll(columns, values) && c !in [ID, Credentials, Extra] && !c.Other?
    requires LastCarrier(c, columns, values, i)
    ensures Some(FinalCell(c, start, columns, values)) == Carried(values[i])
  {
    hide Updated, Carried, Typed;
    var n := |columns| - 1;
    var before := FinalCell(c, start, columns[..n], values[..n]);
    if i < n {
      LastNonNullValueWins(c, start, columns[..n], values[..n], i);
      if columns[n] == c {
        NullKeeps(c, before, values[n]);
      }
    } else {
      ValueReplaces(c, before, values[n]);
    }
  }

  /** A JSON field ends as its last non-NULL value applied to what the field held before it. */
  lemma {:induction false} LastJsonValueApplied(c: Column, start: Cell, columns: seq<Column>, values: seq<Holder>, i: nat)
    requires TypedAll(columns, values) && c in [Credentials, Extra] && LastCarrier(c, columns, values, i)
    ensures FinalCell(c, start, columns, values) == Updated(c, FinalCell(c, start, columns[..i], values[..i]), values[i])
  {
    hide Updated, Carried, Typed;
    var n := |columns| - 1;
    if i < n {
      assert columns[..n][..i] == columns[..i] && values[..n][..i] == values[..i];
      LastJsonValueApplied(c, start, columns[..n], values[..n], i);
      if columns[n] == c {
        NullKeeps(c, FinalCell(c, start, columns[..n], values[..n]), values[n]);
      }
    }
  }

  /** Its last non-NULL value wins if and only if there was no map to merge with, or only one with fewer members. */
  lemma LastJsonValueWinsIff(c: Column, start: Cell, columns: seq<Column>, values: seq<Holder>, i: nat)
    requires TypedAll(columns, values) && c in [Credentials, Extra] && LastCarrier(c, columns, values, i)
    ensures values[i].Bytes?
    ensures var before := FinalCell(c, start, columns[..i], values[..i]);
            Some(FinalCell(c, start, columns, values)) == Carried(values[i])
            <==> || values[i].bytes.NullLiteral? || !before.JsonCell? || !before.bytes.Object?
                 || before.bytes.members.Keys <= values[i].bytes.members.Keys
  {
    hide FinalCell;
    LastJsonValueApplied(c, start, columns, values, i);
    assert Typed(columns[i], values[i]);
    var before := FinalCell(c, start, columns[..i], values[..i]);
    if before.JsonCell? && before.bytes.Object? && values[i].bytes.Object? {
      MergeAddsNothing(before.bytes.members, values[i].bytes.members);
    }
  }

  lemma MergeAddsNothing(before: map<string, string>, after: map<string, string>)
    ensures before + after == after <==> before.Keys <= after.Keys
  {
    assert (before + after).Keys == before.Keys + after.Keys;
  }

  /** The failing input: selecting the credentials twice can merge two values. */
  lemma JsonValuesMerge()
    ensures AssignAll(ZERO_ACCOUNT, [Credentials, Credentials], [Bytes(Object(map["a" := "1"])), Bytes(Object(map["b" := "2"]))])
         == Assigned(ZERO_ACCOUNT.(credentials := Some(map["a" := "1", "b" := "2"])))
  {
    var columns, values := [Credentials, Credentials], [Bytes(Object(map["a" := "1"])), Bytes(Object(map["b" := "2"]))];
    assert columns[..1] == [Credentials] && values[..1] == [values[0]];
    assert columns[..1][..0] == [] && values[..1][..0] == [];
    assert map["a" := "1"] + map["b" := "2"] == map["a" := "1", "b" := "2"];
  }

  /** A field other than the id whose holders are all NULL keeps its value. */
  lemma {:induction false} NullsKeepTheField(c: Column, start: Cell, columns: seq<Column>, values: seq<Holder>)
    requires TypedAll(columns, values) && c != ID
    requires forall i | 0 <= i < |columns| && columns[i] == c :: Carried(values[i]).None?
    ensures FinalCell(c, start, columns, values) == start
  {
    if columns != [] {
      var n := |columns| - 1;
      NullsKeepTheField(c, start, columns[..n], values[..n]);
    }
  }

  /** The id takes 0 on NULL: the last holder for it decides, NULL or not. */
  lemma {:induction false} LastIdHolderWins(start: Cell, columns: seq<Column>, values: seq<Holder>, i: nat)
    requires TypedAll(columns, values) && i < |columns| && columns[i] == ID
    requires forall j | i < j < |columns| :: columns[j] != ID
    ensures values[i].NullInt64?
    ensures FinalCell(ID, start, columns, values)
         == IntCell(if values[i].int64.None? then 0 else values[i].int64.value)
  {
    var n := |columns| - 1;
    assert Typed(columns[i], values[i]);
    if i < n {
      LastIdHolderWins(start, columns[..n], values[..n], i);
    }
  }

  /** A holder is rejected for its type, or because its bytes cannot be decoded; the entity is then left alone. */
  lemma AssignOneFails(a: Account, c: Column, h: Holder)
    requires !c.Other?
    ensures AssignOne(a, c, h).error == Some(UnexpectedType(c)) <==> !Typed(c, h)
    ensures AssignOne(a, c, h).error == Some(UnmarshalField(c)) <==> Typed(c, h) && h == Bytes(Malformed)
    ensures AssignOne(a, c, h).error in {None, Some(UnexpectedType(c)), Some(UnmarshalField(c))}
    ensures AssignOne(a, c, h).error.Some? ==> AssignOne(a, c, h).account == a
  {
    hide PutNumber, PutTime, PutString, PutJson;
  }

  /** The error of the loop is that of the first holder that is rejected, and nothing behind it is assigned. */
  lemma {:induction false} FirstErrorStops(a: Account, columns: seq<Column>, values: seq<Holder>)
    requires |columns| <= |values| && AssignAll(a, columns, values).error.Some?
    ensures exists i :: 0 <= i < |columns| && var before := AssignAll(a, columns[..i], values[..i]);
              && before.error.None? && !columns[i].Other? && AssignAll(a, columns, values).account == before.account
              && AssignAll(a, columns, values).error == AssignOne(before.account, columns[i], values[i]).error
  {
    hide AssignOne;
    var n := |columns| - 1;
    var before := AssignAll(a, columns[..n], values[..n]);
    if before.error.Some? {
      FirstErrorStops(a, columns[..n], values[..n]);
      var i :| 0 <= i < n && AssignAll(a, columns[..n][..i], values[..n][..i]).error.None? && !columns[..n][i].Other?
        && AssignAll(a, columns[..n], values[..n]).account == AssignAll(a, columns[..n][..i], values[..n][..i]).account
        && AssignAll(a, columns[..n], values[..n]).error == AssignOne(AssignAll(a, columns[..n][..i], values[..n][..i]).account, columns[..n][i], values[..n][i]).error;
      assert columns[..n][..i] == columns[..i] && values[..n][..i] == values[..i];
    } else {
      if columns[n].Other? {
        UnknownIsAccepted(before.account, columns[n], values[n]);
      } else {
        AssignOneFails(before.account, columns[n], values[n]);
      }
    }
  }

  lemma UnknownIsAccepted(a: Account, c: Column, h: Holder)
    requires c.Other?
    ensures AssignOne(a, c, h) == Assigned(a.(selectValues := a.selectValues[c.column := h]))
  {
  }

  lemma KnownKeepsSelected(a: Account, c: Column, h: Holder)
    requires !c.Other?
    ensures AssignOne(a, c, h).account.selectValues == a.selectValues
  {
    hide PutNumber, PutTime, PutString, Unmarshal;
  }

  /** A column that is none of the table's ends in the selected values, with its last holder. */
  lemma {:induction false} LastUnknownHolderKept(a: Account, columns: seq<Column>, values: seq<Holder>, i: nat)
    requires |columns| <= |values| && AssignAll(a, columns, values).error.None?
    requires i < |columns| && columns[i].Other? && forall j | i < j < |columns| :: columns[j] != columns[i]
    ensures var selected := AssignAll(a, columns, values).account.selectValues;
            columns[i].column in selected && selected[columns[i].column] == values[i]
  {
    hide AssignOne;
    var n := |columns| - 1;
    var before := AssignAll(a, columns[..n], values[..n]);
    if i < n {
      LastUnknownHolderKept(a, columns[..n], values[..n], i);
    }
    if columns[n].Other? {
      UnknownIsAccepted(before.account, columns[n], values[n]);
    } else {
      KnownKeepsSelected(before.account, columns[n], values[n]);
    }
  }

  // ------------------------------------------------------- reading one row

  /** The holders after the driver has scanned `row` into them. */
  function RowHolders(row: Account, columns: seq<Column>): (r: seq<Holder>)
    ensures |r| == |columns|
    ensures forall i | 0 <= i < |columns| :: r[i] == Fill(HolderFor(columns[i]), CellOf(row, columns[i]))
  {
    seq(|columns|, i requires 0 <= i < |columns| => Fill(HolderFor(columns[i]), CellOf(row, columns[i])))
  }

  /** The entity that a query over `columns` builds from `row`. */
  function Decode(row: Account, columns: seq<Column>): Account {
    AssignAll(ZERO_ACCOUNT, columns, RowHolders(row, columns)).account
  }

  /** The type of a cell is that of its column; where a field may be missing, the zero entity has none. */
  lemma CellShape(row: Account, c: Column)
    ensures KindOf(c) == NumberKind ==>
              NumberCell(row.numbers, c).IntCell? || (NumberCell(row.numbers, c).Null? && NumberCell(ZERO_ACCOUNT.numbers, c).Null?)
    ensures KindOf(c) == TimeKind ==>
              TimeCellOf(row.times, c).TimeCell? || (TimeCellOf(row.times, c).Null? && TimeCellOf(ZERO_ACCOUNT.times, c).Null?)
    ensures KindOf(c) == StringKind ==>
              StringCellOf(row.strings, c).StringCell? || (StringCellOf(row.strings, c).Null? && StringCellOf(ZERO_ACCOUNT.strings, c).Null?)
  {
  }

  lemma FillIsTyped(row: Account, c: Column)
    ensures Typed(c, Fill(HolderFor(c), CellOf(row, c)))
    ensures Fill(HolderFor(c), CellOf(row, c)) != Bytes(Malformed)
  {
    hide KindOf, NumberCell, TimeCellOf, StringCellOf;
    CellShape(row, c);
  }

  /** Scanning a cell into an untouched field restores it; scanning it again changes nothing. */
  lemma FillRestores(row: Account, c: Column)
    requires !c.Other?
    ensures var h := Fill(HolderFor(c), CellOf(row, c));
            Typed(c, h) && Updated(c, CellOf(row, c), h) == CellOf(row, c)
    ensures var h := Fill(HolderFor(c), CellOf(row, c));
            Typed(c, h) && Updated(c, CellOf(ZERO_ACCOUNT, c), h) == CellOf(row, c)
  {
    hide KindOf, NumberCell, TimeCellOf, StringCellOf;
    CellShape(row, c);
    KindsOfOne(c, c);
    if c == Credentials && row.credentials.Some? {
      assert row.credentials.value + row.credentials.value == row.credentials.value;
    }
    if c == Extra && row.extra.Some? {
      assert row.extra.value + row.extra.value == row.extra.value;
    }
  }

  /** Reading a row never fails, whatever columns are selected. */
  lemma DecodeSucceeds(row: Account, columns: seq<Column>)
    ensures TypedAll(columns, RowHolders(row, columns))
    ensures AssignAll(ZERO_ACCOUNT, columns, RowHolders(row, columns)).error.None?
  {
    forall i | 0 <= i < |columns|
      ensures Typed(columns[i], RowHolders(row, columns)[i])
      ensures RowHolders(row, columns)[i] != Bytes(Malformed)
    {
      FillIsTyped(row, columns[i]);
    }
    AssignAllFailsOnMalformedJsonOnly(ZERO_ACCOUNT, columns, RowHolders(row, columns));
  }

  /** A decoded entity is the projection of its row: selected fields are the row's, the others zero. */
  lemma DecodeProjects(row: Account, columns: seq<Column>, c: Column)
    requires !c.Other?
    ensures CellOf(Decode(row, columns), c)
         == if c in columns then CellOf(row, c) else CellOf(ZERO_ACCOUNT, c)
  {
    DecodeSucceeds(row, columns);
    AssignAllFields(ZERO_ACCOUNT, columns, RowHolders(row, columns), c);
    RowHistory(row, columns, c);
  }

  lemma {:induction false} RowHistory(row: Account, columns: seq<Column>, c: Column)
    requires !c.Other? && TypedAll(columns, RowHolders(row, columns))
    ensures FinalCell(c, CellOf(ZERO_ACCOUNT, c), columns, RowHolders(row, columns))
         == if c in columns then CellOf(row, c) else CellOf(ZERO_ACCOUNT, c)
  {
    if columns != [] {
      var n := |columns| - 1;
      assert columns == columns[..n] + [columns[n]];
      assert RowHolders(row, columns)[..n] == RowHolders(row, columns[..n]);
      RowHistory(row, columns[..n], c);
      FillRestores(row, c);
    }
  }

  /** The selected fields are the row's, the others are zero. */
  ghost predicate IsProjection(a: Account, row: Account, columns: seq<Column>) {
    forall c: Column :: !c.Other? ==>
      CellOf(a, c) == if c in columns then CellOf(row, c) else CellOf(ZERO_ACCOUNT, c)
  }

  /** What a query builds from a row is its projection on the selected columns. */
  lemma DecodeIsProjection(row: Account, columns: seq<Column>)
    ensures IsProjection(Decode(row, columns), row, columns)
  {
    forall c: Column | !c.Other?
      ensures CellOf(Decode(row, columns), c) == if c in columns then CellOf(row, c) else CellOf(ZERO_ACCOUNT, c)
    {
      DecodeProjects(row, columns, c);
    }
  }

  /** The three fields that the loaders read, as far as their columns are selected. */
  lemma ProjectionKeys(a: Account, row: Account, columns: seq<Column>)
    requires IsProjection(a, row, columns)
    ensures ID in columns ==> a.id == row.id
    ensures ProxyID in columns ==> a.numbers.proxyID == row.numbers.proxyID
    ensures ParentAccountID in columns ==> a.numbers.parentAccountID == row.numbers.parentAccountID
  {
    assert ID in columns ==> CellOf(a, ID) == CellOf(row, ID);
    assert ProxyID in columns ==> CellOf(a, ProxyID) == CellOf(row, ProxyID);
    assert ParentAccountID in columns ==> CellOf(a, ParentAccountID) == CellOf(row, ParentAccountID);
  }

  /** Reading every column gives the row back. */
  lemma DecodeAllColumns(row: Account, c: Column)
    requires !c.Other?
    ensures CellOf(Decode(row, ALL_COLUMNS), c) == CellOf(row, c)
  {
    DecodeProjects(row, ALL_COLUMNS, c);
    assert c in ALL_COLUMNS;
  }
}
