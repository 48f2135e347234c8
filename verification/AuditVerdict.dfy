/**
 The verdict of the audit check: the exceptions are indexed by package and advisory, and every high
 or critical finding must have a valid exception in the index.
 */
module AuditVerdict {
  import opened Wrappers
  import opened AuditParser
  import opened AuditReport
  import Rows

  type Key = (string, string)

  // ---------------------------------------------------------------- exceptions

  const REQUIRED_FIELDS: set<string> := {"package", "advisory", "severity", "mitigation", "expires_on"}

  /** Every required field is there and is not empty. */
  predicate Complete(e: Entry) {
    forall f | f in REQUIRED_FIELDS :: f in e && e[f] != ""
  }

  function EntryKey(py: Python, e: Entry): Key
    requires Complete(e)
  {
    (NormalizePackage(py, JStr(e["package"])), NormalizeAdvisory(py, JStr(e["advisory"])))
  }

  /** An exception that can be indexed: complete, dated, and with a package and an advisory that are not blank. */
  predicate Usable(py: Python, e: Entry) {
    Complete(e) && py.date(e["expires_on"]).Some? && EntryKey(py, e).0 != "" && EntryKey(py, e).1 != ""
  }

  datatype Granted = Granted(severity: string, expires: int)

  function GrantOf(py: Python, e: Entry): Granted
    requires Usable(py, e)
  {
    Granted(py.lower(Strip(e["severity"])), py.date(e["expires_on"]).value)
  }

  /** Entry `e` is usable and has the key. */
  predicate For(py: Python, e: Entry, key: Key) {
    Usable(py, e) && EntryKey(py, e) == key
  }

  /** The linear scan: the first usable entry with the key. */
  function Scan(py: Python, entries: seq<Entry>, key: Key): Option<Granted> {
    if entries == [] then None
    else
      var init := Scan(py, entries[..|entries| - 1], key);
      var last := entries[|entries| - 1];
      if init.Some? then init else if For(py, last, key) then Some(GrantOf(py, last)) else None
  }

  datatype ReportError =
    MissingFields(entry: Entry) | InvalidDate(entry: Entry) | BlankKey | Duplicate(duplicate: Key) |
    NoAdvisory(finding: Finding) | SeverityMismatch(mismatch: Key) | MissingException(missing: Key) | Expired(expired: Key)

  /** All entries are usable and no two have the same key. */
  ghost predicate ExceptionsValid(py: Python, entries: seq<Entry>) {
    && (forall i | 0 <= i < |entries| :: Usable(py, entries[i]))
    && forall i, j | 0 <= i < j < |entries| :: EntryKey(py, entries[i]) != EntryKey(py, entries[j])
  }

  /** The first loop of `main`. */
  method BuildIndex(py: Python, entries: seq<Entry>) returns (index: map<Key, Granted>, errors: seq<ReportError>)
    ensures forall key :: Scan(py, entries, key) == if key in index then Some(index[key]) else None
    ensures errors == [] <==> ExceptionsValid(py, entries)
  {
    index, errors := map[], [];
    for i := 0 to |entries|
      invariant forall key :: Scan(py, entries[..i], key) == if key in index then Some(index[key]) else None
      invariant errors == [] <==> ExceptionsValid(py, entries[..i])
    {
      var e := entries[i];
      assert entries[..i + 1][..i] == entries[..i];
      OneMoreEntry(py, entries, i);
      if !Complete(e) {
        errors := errors + [MissingFields(e)];
        continue;
      }
      var severity, key := py.lower(Strip(e["severity"])), EntryKey(py, e);
      var day := py.date(e["expires_on"]);
      if day.None? {
        errors := errors + [InvalidDate(e)];
        continue;
      }
      if key.0 == "" || key.1 == "" {
        errors := errors + [BlankKey];
        continue;
      }
      if key in index {
        errors := errors + [Duplicate(key)];
        continue;
      }
      index := index[key := Granted(severity, day.value)];
    }
    assert entries[..|entries|] == entries;
  }

  /** One more entry keeps the list valid exactly if it is usable and its key is new. */
  lemma OneMoreEntry(py: Python, entries: seq<Entry>, i: nat)
    requires i < |entries|
    ensures ExceptionsValid(py, entries[..i + 1]) <==>
              ExceptionsValid(py, entries[..i]) && Usable(py, entries[i]) && Scan(py, entries[..i], EntryKey(py, entries[i])).None?
  {
    hide Scan, EntryKey, GrantOf, Complete;
    if Usable(py, entries[i]) {
      ScanFinds(py, entries[..i], EntryKey(py, entries[i]));
    }
    var s := entries[..i + 1];
    if ExceptionsValid(py, s) {
      forall k | 0 <= k < i ensures Usable(py, entries[..i][k]) && EntryKey(py, entries[..i][k]) != EntryKey(py, entries[i]) {
        assert Usable(py, s[k]) && Usable(py, s[i]) && EntryKey(py, s[k]) != EntryKey(py, s[i]);
      }
      assert Usable(py, s[i]);
      forall j, k | 0 <= j < k < i ensures EntryKey(py, entries[..i][j]) != EntryKey(py, entries[..i][k]) {
        assert EntryKey(py, s[j]) != EntryKey(py, s[k]);
      }
    }
  }

  /** The scan finds something exactly if some entry is for the key. */
  lemma {:induction false} ScanFinds(py: Python, entries: seq<Entry>, key: Key)
    ensures Scan(py, entries, key).Some? <==> exists i :: 0 <= i < |entries| && For(py, entries[i], key)
    ensures Scan(py, entries, key).Some? ==>
              exists i :: 0 <= i < |entries| && For(py, entries[i], key) && Scan(py, entries, key) == Some(GrantOf(py, entries[i]))
  {
    hide Usable, EntryKey, GrantOf;
    if entries != [] {
      var n := |entries| - 1;
      var init := entries[..n];
      ScanFinds(py, init, key);
      if Scan(py, init, key).Some? {
        var i :| 0 <= i < n && For(py, init[i], key) && Scan(py, init, key) == Some(GrantOf(py, init[i]));
        assert entries[i] == init[i];
      } else {
        forall i | 0 <= i < n ensures !For(py, entries[i], key) {
          assert entries[i] == init[i];
        }
      }
    }
  }

  /** Of several entries for a key the scan takes the first. */
  lemma {:induction false} ScanTakesFirst(py: Python, entries: seq<Entry>, key: Key, i: nat)
    requires i < |entries| && For(py, entries[i], key)
    requires forall k | 0 <= k < i :: !For(py, entries[k], key)
    ensures Scan(py, entries, key) == Some(GrantOf(py, entries[i]))
  {
    hide EntryKey, GrantOf, Usable;
    var n := |entries| - 1;
    if i < n {
      ScanTakesFirst(py, entries[..n], key, i);
    } else {
      ScanFinds(py, entries[..n], key);
    }
  }

  // --------------------------------------------------------------- the verdict

  function Severity(py: Python, f: Finding): string {
    var s := NormalizeSeverity(py, f.severity);
    if s.Raised? then "" else s.value
  }

  /** A named finding of high or critical severity. */
  predicate Relevant(py: Python, f: Finding) {
    Severity(py, f) in HIGH_SEVERITIES && Truthy(f.name)
  }

  function FindingKey(py: Python, f: Finding): Key {
    (NormalizePackage(py, f.name), NormalizeAdvisory(py, f.advisory))
  }

  /** An earlier relevant finding has the key. */
  predicate SeenBefore(py: Python, findings: seq<Finding>, i: nat, key: Key)
    requires i <= |findings|
  {
    exists k | 0 <= k < i :: Relevant(py, findings[k]) && FindingKey(py, findings[k]) == key
  }

  /** The key has an advisory and a granted exception that has not expired. */
  predicate StillGranted(g: Option<Granted>, key: Key, today: int) {
    key.1 != "" && g.Some? && g.value.expires >= today
  }

  /** The severity of the exception is blank or that of the finding. */
  predicate Agrees(g: Option<Granted>, severity: string) {
    g.Some? && (g.value.severity == "" || g.value.severity == severity)
  }

  /**
   Every relevant finding is covered, and the exception of each key agrees with the severity of the
   first finding that has the key.
   */
  ghost predicate AllGranted(py: Python, findings: seq<Finding>, entries: seq<Entry>, today: int) {
    forall i | 0 <= i < |findings| && Relevant(py, findings[i]) :: GrantedAt(py, findings, entries, today, i)
  }

  ghost predicate GrantedAt(py: Python, findings: seq<Finding>, entries: seq<Entry>, today: int, i: nat)
    requires i < |findings|
  {
    var key := FindingKey(py, findings[i]);
    var g := Scan(py, entries, key);
    StillGranted(g, key, today) && (!SeenBefore(py, findings, i, key) ==> Agrees(g, Severity(py, findings[i])))
  }

  /** One more finding. */
  lemma OneMoreFinding(py: Python, findings: seq<Finding>, entries: seq<Entry>, today: int, i: nat)
    requires i < |findings|
    ensures AllGranted(py, findings[..i + 1], entries, today) <==>
              && AllGranted(py, findings[..i], entries, today)
              && (Relevant(py, findings[i]) ==>
                    var key := FindingKey(py, findings[i]);
                    key.1 != "" && (SeenBefore(py, findings, i, key)
                                    || (StillGranted(Scan(py, entries, key), key, today) && Agrees(Scan(py, entries, key), Severity(py, findings[i])))))
  {
    hide Scan, Relevant, FindingKey, Agrees, Severity;
    var before, after := findings[..i], findings[..i + 1];
    forall k | 0 <= k < i ensures GrantedAt(py, before, entries, today, k) <==> GrantedAt(py, after, entries, today, k) {
      SameSeen(py, before, after, k, FindingKey(py, findings[k]));
    }
    var key := FindingKey(py, findings[i]);
    SameSeen(py, findings, after, i, key);
    if AllGranted(py, before, entries, today) && SeenBefore(py, findings, i, key) {
      var k :| 0 <= k < i && Relevant(py, findings[k]) && FindingKey(py, findings[k]) == key;
      assert before[k] == findings[k];
      assert GrantedAt(py, before, entries, today, k);
    }
    if AllGranted(py, after, entries, today) {
      forall k | 0 <= k < i && Relevant(py, before[k]) ensures GrantedAt(py, before, entries, today, k) {
        assert after[k] == before[k];
      }
      if Relevant(py, findings[i]) {
        assert after[i] == findings[i];
        assert GrantedAt(py, after, entries, today, i);
      }
    }
  }

  lemma SameSeen(py: Python, a: seq<Finding>, b: seq<Finding>, i: nat, key: Key)
    requires i <= |a| && i <= |b| && a[..i] == b[..i]
    ensures SeenBefore(py, a, i, key) <==> SeenBefore(py, b, i, key)
  {
    forall k | 0 <= k < i ensures a[k] == b[k] {
      assert a[..i][k] == b[..i][k];
    }
  }

  /** The second loop of `main`: `r` is the errors it finds. */
  method ScanFindings(py: Python, findings: seq<Finding>, index: map<Key, Granted>, today: int, ghost entries: seq<Entry>)
      returns (r: Attempt<seq<ReportError>>)
    requires forall key :: Scan(py, entries, key) == if key in index then Some(index[key]) else None
    ensures r.Raised? <==> exists i :: 0 <= i < |findings| && NormalizeSeverity(py, findings[i].severity).Raised?
    ensures r.Value? ==> (r.value == [] <==> AllGranted(py, findings, entries, today))
  {
    hide Scan, AllGranted, Agrees, FindingKey, SeenBefore;
    NothingFound(py, findings, entries, today);
    var seen: set<Key> := {};
    var errors := [];
    for i := 0 to |findings|
      invariant forall k | 0 <= k < i :: NormalizeSeverity(py, findings[k].severity).Value?
      invariant forall key: Key | key.1 != "" :: key in seen <==> SeenBefore(py, findings, i, key)
      invariant errors == [] <==> AllGranted(py, findings[..i], entries, today)
    {
      var f := findings[i];
      OneMoreFinding(py, findings, entries, today, i);
      SeenNext(py, findings, i);
      var severity := NormalizeSeverity(py, f.severity);
      if severity.Raised? {
        return Raised;
      }
      if severity.value !in HIGH_SEVERITIES || !Truthy(f.name) {
        continue;
      }
      var key := FindingKey(py, f);
      if key.1 == "" {
        errors := errors + [NoAdvisory(f)];
        continue;
      }
      if key in seen {
        continue;
      }
      seen := seen + {key};
      if key !in index {
        errors := errors + [MissingException(key)];
        continue;
      }
      var wrong := CheckGrant(index[key], key, severity.value, today);
      errors := errors + wrong;
    }
    assert findings[..|findings|] == findings;
    return Value(errors);
  }

  lemma NothingFound(py: Python, findings: seq<Finding>, entries: seq<Entry>, today: int)
    ensures AllGranted(py, findings[..0], entries, today)
    ensures forall key :: !SeenBefore(py, findings, 0, key)
  {
  }

  /** The two checks of an exception against the first finding of its key. */
  method CheckGrant(exc: Granted, key: Key, severity: string, today: int) returns (errors: seq<ReportError>)
    requires key.1 != ""
    ensures errors == [] <==> StillGranted(Some(exc), key, today) && Agrees(Some(exc), severity)
  {
    errors := [];
    if exc.severity != "" && exc.severity != severity {
      errors := errors + [SeverityMismatch(key)];
    }
    if exc.expires < today {
      errors := errors + [Expired(key)];
    }
  }

  lemma SeenNext(py: Python, findings: seq<Finding>, i: nat)
    requires i < |findings|
    ensures forall key :: SeenBefore(py, findings, i + 1, key)
              <==> SeenBefore(py, findings, i, key) || (Relevant(py, findings[i]) && FindingKey(py, findings[i]) == key)
  {
    forall key
      ensures SeenBefore(py, findings, i + 1, key)
         <==> SeenBefore(py, findings, i, key) || (Relevant(py, findings[i]) && FindingKey(py, findings[i]) == key)
    {
      if SeenBefore(py, findings, i, key) {
        var k :| 0 <= k < i && Relevant(py, findings[k]) && FindingKey(py, findings[k]) == key;
        assert 0 <= k < i + 1;
      }
    }
  }

  /** How the program ends: with an exit code, or with an exception. */
  datatype ExitStatus = Exit(code: nat) | Exception

  /** Every severity can be normalised. */
  ghost predicate SeveritiesRead(py: Python, findings: seq<Finding>) {
    forall i | 0 <= i < |findings| :: NormalizeSeverity(py, findings[i].severity).Value?
  }

  /** The condition for passing, in terms of a linear scan of the exceptions. */
  ghost predicate PassesAudit(py: Python, findings: seq<Finding>, entries: seq<Entry>, today: int) {
    ExceptionsValid(py, entries) && SeveritiesRead(py, findings) && AllGranted(py, findings, entries, today)
  }

  // ------------------------------------------------- the verdict, on the report

  /** The severity counts as high or critical. */
  ghost predicate IsHigh(py: Python, severity: JsonValue) {
    (Falsy(severity) || severity.JStr?) && py.lower(Strip(if severity.JStr? then severity.s else "")) in {"high", "critical"}
  }

  /** The text of a name or an advisory. */
  ghost predicate IsText(py: Python, v: JsonValue, text: string) {
    v != JNull && text == if v.JStr? then v.s else py.repr(v)
  }

  predicate FieldGiven(e: Entry, field: string) {
    field in e && e[field] != ""
  }

  /** The entry has all required fields, a date, and a package and an advisory that are not blank. */
  ghost predicate IsException(py: Python, e: Entry) {
    && FieldGiven(e, "package") && FieldGiven(e, "advisory") && FieldGiven(e, "severity") && FieldGiven(e, "mitigation") && FieldGiven(e, "expires_on")
    && py.date(e["expires_on"]) != None && Strip(e["package"]) != "" && py.lower(Strip(e["advisory"])) != ""
  }

  /** The entries are for the same package and advisory. */
  ghost predicate SameTarget(py: Python, e: Entry, f: Entry)
    requires IsException(py, e) && IsException(py, f)
  {
    Strip(e["package"]) == Strip(f["package"]) && py.lower(Strip(e["advisory"])) == py.lower(Strip(f["advisory"]))
  }

  /** Every entry is an exception, and no two are for the same package and advisory. */
  ghost predicate AllExceptions(py: Python, entries: seq<Entry>) {
    && (forall i | 0 <= i < |entries| :: IsException(py, entries[i]))
    && forall i, j | 0 <= i < j < |entries| :: !SameTarget(py, entries[i], entries[j])
  }

  /** The exception is for this package and advisory, and has not expired. */
  ghost predicate Covers(py: Python, e: Entry, name: JsonValue, id: JsonValue, today: int)
    requires IsException(py, e)
  {
    && py.date(e["expires_on"]).value >= today
    && (exists text :: IsText(py, name, text) && Strip(e["package"]) == Strip(text))
    && (exists text :: IsText(py, id, text) && py.lower(Strip(e["advisory"])) == py.lower(Strip(text)))
  }

  /** The exception names no severity, or that of the finding. */
  ghost predicate Fits(py: Python, e: Entry, severity: JsonValue)
    requires IsException(py, e)
  {
    var s := py.lower(Strip(e["severity"]));
    s == "" || s == py.lower(Strip(if severity.JStr? then severity.s else ""))
  }

  lemma CompleteMeans(e: Entry)
    ensures Complete(e) <==>
              FieldGiven(e, "package") && FieldGiven(e, "advisory") && FieldGiven(e, "severity") && FieldGiven(e, "mitigation") && FieldGiven(e, "expires_on")
  {
  }

  lemma UsableMeans(py: Python, e: Entry)
    ensures Usable(py, e) <==> IsException(py, e)
    ensures Usable(py, e) ==> EntryKey(py, e) == (Strip(e["package"]), py.lower(Strip(e["advisory"])))
    ensures Usable(py, e) ==> GrantOf(py, e) == Granted(py.lower(Strip(e["severity"])), py.date(e["expires_on"]).value)
  {
    CompleteMeans(e);
    hide Strip;
  }

  lemma ValidMeans(py: Python, entries: seq<Entry>)
    ensures ExceptionsValid(py, entries) <==> AllExceptions(py, entries)
  {
    forall e ensures (Usable(py, e) <==> IsException(py, e)) && (Usable(py, e) ==> EntryKey(py, e) == (Strip(e["package"]), py.lower(Strip(e["advisory"])))) {
      UsableMeans(py, e);
    }
    hide Usable, IsException, EntryKey, Strip;
  }

  lemma RelevantMeans(py: Python, f: Finding)
    requires NormalizeSeverity(py, f.severity).Value?
    ensures Relevant(py, f) <==> IsHigh(py, f.severity) && !Falsy(f.name)
    ensures Severity(py, f) == py.lower(Strip(if f.severity.JStr? then f.severity.s else ""))
  {
    hide Strip;
    TruthyMeans(f.severity);
    TruthyMeans(f.name);
    assert f.severity.JStr? && Falsy(f.severity) ==> f.severity.s == "";
  }

  lemma SeverityRead(py: Python, severity: JsonValue)
    ensures NormalizeSeverity(py, severity).Value? <==> Falsy(severity) || severity.JStr?
  {
    TruthyMeans(severity);
  }

  /** In a valid list the scan grants a named finding what the exception that covers it says. */
  lemma CoverMeans(py: Python, entries: seq<Entry>, f: Finding, today: int)
    requires ExceptionsValid(py, entries) && f.name != JNull
    ensures StillGranted(Scan(py, entries, FindingKey(py, f)), FindingKey(py, f), today) <==>
              exists e :: e in entries && IsException(py, e) && Covers(py, e, f.name, f.advisory, today)
    ensures forall e | e in entries && IsException(py, e) && Covers(py, e, f.name, f.advisory, today) ::
              Scan(py, entries, FindingKey(py, f)) == Some(Granted(py.lower(Strip(e["severity"])), py.date(e["expires_on"]).value))
  {
    var key := FindingKey(py, f);
    forall e | e in entries
      ensures IsException(py, e) && Scan(py, entries, EntryKey(py, e)) == Some(Granted(py.lower(Strip(e["severity"])), py.date(e["expires_on"]).value))
      ensures Covers(py, e, f.name, f.advisory, today) <==> key.1 != "" && EntryKey(py, e) == key && py.date(e["expires_on"]).value >= today
    {
      ScanOf(py, entries, e);
      UsableMeans(py, e);
      CoversKey(py, e, f, today);
    }
    if Scan(py, entries, key).Some? {
      ScanFinds(py, entries, key);
      var i :| 0 <= i < |entries| && For(py, entries[i], key) && Scan(py, entries, key) == Some(GrantOf(py, entries[i]));
      UsableMeans(py, entries[i]);
      assert entries[i] in entries;
    }
    hide Scan, EntryKey, FindingKey, Covers, IsException, Strip;
  }

  lemma CoversKey(py: Python, e: Entry, f: Finding, today: int)
    requires Usable(py, e) && IsException(py, e) && f.name != JNull
    ensures Covers(py, e, f.name, f.advisory, today) <==>
              FindingKey(py, f).1 != "" && EntryKey(py, e) == FindingKey(py, f) && py.date(e["expires_on"]).value >= today
  {
    UsableMeans(py, e);
    hide Strip, Usable;
    assert IsText(py, f.name, Text(py, f.name));
    if f.advisory != JNull {
      assert IsText(py, f.advisory, Text(py, f.advisory));
    }
  }

  /** The audit passes: everything can be read, the exceptions are valid, and every relevant finding is granted. */
  ghost predicate AuditPasses(py: Python, report: JsonValue, lines: seq<string>, today: int) {
    && ParseLines(lines).Some? && Findings(py, report).Value?
    && PassesAudit(py, Findings(py, report).value, ParseLines(lines).value, today)
  }

  /** The finding needs an exception: it has a name, and a severity that counts. */
  ghost predicate NeedsException(py: Python, report: JsonValue, name: JsonValue, severity: JsonValue, id: JsonValue) {
    Reported(py, report, name, severity, id) && IsHigh(py, severity) && !Falsy(name)
  }

  /** Every severity that is reported is falsy or a text. */
  ghost predicate SeveritiesAreTexts(py: Python, report: JsonValue) {
    forall name, severity, id | Reported(py, report, name, severity, id) :: Falsy(severity) || severity.JStr?
  }

  lemma SeveritiesMean(py: Python, report: JsonValue)
    requires Findings(py, report).Value?
    ensures SeveritiesRead(py, Findings(py, report).value) <==> SeveritiesAreTexts(py, report)
  {
    hide Reported, NormalizeSeverity, Falsy;
    var findings := Findings(py, report).value;
    forall f: Finding ensures f in findings <==> Reported(py, report, f.name, f.severity, f.advisory) {
      FindingsMean(py, report, f);
    }
    forall severity ensures NormalizeSeverity(py, severity).Value? <==> Falsy(severity) || severity.JStr? {
      SeverityRead(py, severity);
    }
    if SeveritiesRead(py, findings) {
      forall name, severity, id | Reported(py, report, name, severity, id) ensures Falsy(severity) || severity.JStr? {
        var f := Finding(name, severity, id);
        var i :| 0 <= i < |findings| && findings[i] == f;
      }
    }
    if SeveritiesAreTexts(py, report) {
      forall i | 0 <= i < |findings| ensures NormalizeSeverity(py, findings[i].severity).Value? {
        assert findings[i] in findings;
      }
    }
  }

  /** If the audit passes, every finding that needs an exception has one that is for it and has not expired. */
  lemma PassCovers(py: Python, report: JsonValue, lines: seq<string>, today: int, name: JsonValue, severity: JsonValue, id: JsonValue)
    requires AuditPasses(py, report, lines, today) && NeedsException(py, report, name, severity, id)
    ensures exists e :: e in ParseLines(lines).value && IsException(py, e) && Covers(py, e, name, id, today)
  {
    hide Scan, Reported, Covers, IsException, NormalizeSeverity, Severity, Relevant, FindingKey, Agrees, StillGranted, IsHigh, Findings, ParseLines;
    var findings, entries := Findings(py, report).value, ParseLines(lines).value;
    var f := Finding(name, severity, id);
    FindingsMean(py, report, f);
    var i :| 0 <= i < |findings| && findings[i] == f;
    RelevantMeans(py, f);
    assert GrantedAt(py, findings, entries, today, i);
    CoverMeans(py, entries, f, today);
  }

  /** A finding whose exception fits its severity is granted. */
  lemma CoveredIsGranted(py: Python, findings: seq<Finding>, entries: seq<Entry>, today: int, i: nat, e: Entry)
    requires ExceptionsValid(py, entries) && i < |findings| && Relevant(py, findings[i]) && NormalizeSeverity(py, findings[i].severity).Value?
    requires e in entries && IsException(py, e) && Covers(py, e, findings[i].name, findings[i].advisory, today) && Fits(py, e, findings[i].severity)
    ensures GrantedAt(py, findings, entries, today, i)
  {
    var f := findings[i];
    RelevantMeans(py, f);
    assert f.name != JNull;
    CoverMeans(py, entries, f, today);
    hide Scan, Covers, IsException, NormalizeSeverity, Severity, Relevant, FindingKey, StillGranted, IsHigh, ExceptionsValid, SeenBefore, Strip;
  }

  /** If every finding that needs an exception has one that fits its severity, the audit passes. */
  lemma CoverPasses(py: Python, report: JsonValue, lines: seq<string>, today: int)
    requires ParseLines(lines).Some? && !Unreadable(report) && SeveritiesAreTexts(py, report) && AllExceptions(py, ParseLines(lines).value)
    requires forall name, severity, id | NeedsException(py, report, name, severity, id) ::
               exists e :: e in ParseLines(lines).value && IsException(py, e) && Covers(py, e, name, id, today) && Fits(py, e, severity)
    ensures AuditPasses(py, report, lines, today)
  {
    hide Reported, Covers, IsException, NormalizeSeverity, Relevant, GrantedAt, IsHigh, Fits, Findings, ParseLines, Unreadable, AllExceptions, ExceptionsValid, SeveritiesAreTexts, Falsy;
    FindingsRaise(py, report);
    SeveritiesMean(py, report);
    var findings, entries := Findings(py, report).value, ParseLines(lines).value;
    ValidMeans(py, entries);
    forall i | 0 <= i < |findings| && Relevant(py, findings[i]) ensures GrantedAt(py, findings, entries, today, i) {
      var f := findings[i];
      assert f in findings;
      FindingsMean(py, report, f);
      RelevantMeans(py, f);
      assert NeedsException(py, report, f.name, f.severity, f.advisory);
      var e :| e in entries && IsException(py, e) && Covers(py, e, f.name, f.advisory, today) && Fits(py, e, f.severity);
      CoveredIsGranted(py, findings, entries, today, i, e);
    }
  }

  /** What passing means for the report and the entries. */
  lemma MeaningOfPassing(py: Python, report: JsonValue, lines: seq<string>, today: int)
    ensures Findings(py, report).Raised? <==> Unreadable(report)
    ensures Findings(py, report).Value? ==> (SeveritiesRead(py, Findings(py, report).value) <==> SeveritiesAreTexts(py, report))
    ensures AuditPasses(py, report, lines, today) ==> AllExceptions(py, ParseLines(lines).value)
    ensures AuditPasses(py, report, lines, today) ==>
              forall name, severity, id | NeedsException(py, report, name, severity, id) ::
                exists e :: e in ParseLines(lines).value && IsException(py, e) && Covers(py, e, name, id, today)
    ensures ParseLines(lines).Some? && !Unreadable(report) && SeveritiesAreTexts(py, report) && AllExceptions(py, ParseLines(lines).value)
            && !AuditPasses(py, report, lines, today) ==>
              exists name, severity, id :: NeedsException(py, report, name, severity, id)
                && forall e | e in ParseLines(lines).value && IsException(py, e) && Covers(py, e, name, id, today) :: !Fits(py, e, severity)
  {
    hide Unreadable, SeveritiesAreTexts, NeedsException, Covers, Fits, IsException, Findings, ParseLines, AllExceptions;
    FindingsRaise(py, report);
    if Findings(py, report).Value? {
      SeveritiesMean(py, report);
    }
    if AuditPasses(py, report, lines, today) {
      ValidMeans(py, ParseLines(lines).value);
      forall name, severity, id | NeedsException(py, report, name, severity, id)
        ensures exists e :: e in ParseLines(lines).value && IsException(py, e) && Covers(py, e, name, id, today)
      {
        PassCovers(py, report, lines, today, name, severity, id);
      }
    }
    if && ParseLines(lines).Some? && !Unreadable(report) && SeveritiesAreTexts(py, report) && AllExceptions(py, ParseLines(lines).value)
       && forall name, severity, id | NeedsException(py, report, name, severity, id) ::
            exists e :: e in ParseLines(lines).value && IsException(py, e) && Covers(py, e, name, id, today) && Fits(py, e, severity) {
      CoverPasses(py, report, lines, today);
    }
  }

  lemma OneGhsaFinding(py: Python, key: string, a: seq<(string, JsonValue)>, id: string, name: string, severity: string)
    requires Has(a, "github_advisory_id", JStr(id)) && id != "" && Has(a, "module_name", JStr(name)) && name != "" && Has(a, "severity", JStr(severity))
    ensures Findings(py, JObj([("advisories", JObj([(key, JObj(a))]))])) == Value([Finding(JStr(name), JStr(severity), JStr(id))])
  {
    var f := Finding(JStr(name), JStr(severity), JStr(id));
    var inner := [(key, JObj(a))];
    var outer := [("advisories", JObj(inner))];
    KnownByGhsa(py, a, id);
    assert Picks(a, ["module_name", "name"], JStr(name)) by {
      assert ["module_name", "name"][0] == "module_name" && !Falsy(JStr(name));
    }
    AdvisoryMeans(py, JObj(a), f);
    assert outer[..0] == [] && inner[..0] == [];
    assert Get(outer, "advisories") == JObj(inner) && Get(outer, "vulnerabilities") == JNull;
    hide Has, Picks, KnownAs, AdvisoryFinding, Get;
    assert AdvisoryFindings(py, inner[..0]) == Value([]);
    assert AdvisoryFindings(py, inner) == Value([] + [f]) && [] + [f] == [f] && [f] + [] == [f];
    hide AdvisoryFindings, VulnerabilityFindings;
  }

  /**
   A report with one high advisory that has a GHSA id, and one entry: the audit passes if and only if the entry is an
   exception for the package and for that id, in any case and with any space around, is not expired, and fits the severity.
   An exception for the url of the advisory does not help, unless the url is that id.
   */
  lemma GhsaDecides(py: Python, key: string, a: seq<(string, JsonValue)>, id: string, name: string, severity: string,
                    lines: seq<string>, e: Entry, today: int)
    requires Has(a, "github_advisory_id", JStr(id)) && id != "" && Has(a, "module_name", JStr(name)) && name != ""
    requires Has(a, "severity", JStr(severity)) && IsHigh(py, JStr(severity)) && ParseLines(lines) == Some([e])
    ensures AuditPasses(py, JObj([("advisories", JObj([(key, JObj(a))]))]), lines, today) <==>
              && IsException(py, e) && py.date(e["expires_on"]).value >= today
              && Strip(e["package"]) == Strip(name) && py.lower(Strip(e["advisory"])) == py.lower(Strip(id)) && Fits(py, e, JStr(severity))
  {
    var f := Finding(JStr(name), JStr(severity), JStr(id));
    OneGhsaFinding(py, key, a, id, name, severity);
    SeverityRead(py, f.severity);
    RelevantMeans(py, f);
    OneFindingPasses(py, f, e, today);
    hide Has, Findings, ParseLines, IsHigh, NormalizeSeverity, PassesAudit, Relevant, Strip;
  }

  lemma OneFindingPasses(py: Python, f: Finding, e: Entry, today: int)
    requires NormalizeSeverity(py, f.severity).Value? && Relevant(py, f)
    ensures PassesAudit(py, [f], [e], today) <==> IsException(py, e) && Covers(py, e, f.name, f.advisory, today) && Fits(py, e, f.severity)
  {
    RelevantMeans(py, f);
    assert f.name != JNull;
    ValidMeans(py, [e]);
    assert [e][0] == e;
    assert AllExceptions(py, [e]) <==> IsException(py, e);
    if ExceptionsValid(py, [e]) {
      CoverMeans(py, [e], f, today);
    }
    OneGranted(py, f, e, today);
    hide Scan, Covers, IsException, NormalizeSeverity, Severity, Relevant, FindingKey, StillGranted, IsHigh, ExceptionsValid, Strip, AllGranted;
  }

  lemma OneGranted(py: Python, f: Finding, e: Entry, today: int)
    requires NormalizeSeverity(py, f.severity).Value? && Relevant(py, f)
    ensures SeveritiesRead(py, [f])
    ensures var g := Scan(py, [e], FindingKey(py, f));
            AllGranted(py, [f], [e], today) <==> StillGranted(g, FindingKey(py, f), today) && Agrees(g, Severity(py, f))
  {
    hide Scan, NormalizeSeverity, Severity, Relevant, FindingKey, StillGranted, Agrees;
    assert GrantedAt(py, [f], [e], today, 0) ==> AllGranted(py, [f], [e], today);
  }

  /** `main`, on a report and the lines of an exception list: exit code 0, exit code 1, or an exception. */
  method RunAudit(py: Python, report: JsonValue, lines: seq<string>, today: int) returns (outcome: ExitStatus)
    ensures outcome == Exit(0) <==>
              && ParseLines(lines).Some? && Findings(py, report).Value?
              && PassesAudit(py, Findings(py, report).value, ParseLines(lines).value, today)
    ensures outcome == Exception <==>
              || ParseLines(lines).None? || Findings(py, report).Raised?
              || !SeveritiesRead(py, Findings(py, report).value)
    ensures outcome in {Exit(0), Exit(1), Exception}
    ensures outcome == Exit(0) <==> AuditPasses(py, report, lines, today)
    ensures outcome == Exception <==> ParseLines(lines).None? || Unreadable(report) || !SeveritiesAreTexts(py, report)
    ensures outcome == Exit(0) ==> AllExceptions(py, ParseLines(lines).value)
    ensures outcome == Exit(0) ==>
              forall name, severity, id | NeedsException(py, report, name, severity, id) ::
                exists e :: e in ParseLines(lines).value && IsException(py, e) && Covers(py, e, name, id, today)
    ensures outcome == Exit(1) && AllExceptions(py, ParseLines(lines).value) ==>
              exists name, severity, id :: NeedsException(py, report, name, severity, id)
                && forall e | e in ParseLines(lines).value && IsException(py, e) && Covers(py, e, name, id, today) :: !Fits(py, e, severity)
  {
    MeaningOfPassing(py, report, lines, today);
    hide NeedsException, Unreadable, SeveritiesAreTexts, AllExceptions, Covers, IsException, Fits;
    var exceptions := ParseExceptions(lines);
    if exceptions.None? {
      return Exception;
    }
    var index, errors := BuildIndex(py, exceptions.value);
    var findings := IterVulns(py, report);
    if findings.Raised? {
      return Exception;
    }
    var found := ScanFindings(py, findings.value, index, today, exceptions.value);
    if found.Raised? {
      return Exception;
    }
    errors := errors + found.value;
    return if errors == [] then Exit(0) else Exit(1);
  }

  // -------------------------------------------------- what the verdict keeps

  /** In a valid list the entry for a key is what the scan finds. */
  lemma ScanOf(py: Python, entries: seq<Entry>, e: Entry)
    requires ExceptionsValid(py, entries) && e in entries
    ensures Usable(py, e) && Scan(py, entries, EntryKey(py, e)) == Some(GrantOf(py, e))
  {
    hide Scan, EntryKey, GrantOf;
    var i :| 0 <= i < |entries| && entries[i] == e;
    var key := EntryKey(py, e);
    ScanFinds(py, entries, key);
    assert For(py, entries[i], key);
    var j :| 0 <= j < |entries| && For(py, entries[j], key) && Scan(py, entries, key) == Some(GrantOf(py, entries[j]));
    assert i == j by {
      assert EntryKey(py, entries[i]) == EntryKey(py, entries[j]);
    }
  }

  /** Two valid lists with the same entries grant the same. */
  lemma SameScan(py: Python, a: seq<Entry>, b: seq<Entry>, key: Key)
    requires ExceptionsValid(py, a) && ExceptionsValid(py, b) && (forall e :: e in a <==> e in b)
    ensures Scan(py, a, key) == Scan(py, b, key)
  {
    hide EntryKey, GrantOf;
    ScanFinds(py, a, key);
    ScanFinds(py, b, key);
    if Scan(py, a, key).Some? {
      var i :| 0 <= i < |a| && For(py, a[i], key);
      ScanOf(py, a, a[i]);
      ScanOf(py, b, a[i]);
    } else if Scan(py, b, key).Some? {
      var i :| 0 <= i < |b| && For(py, b[i], key);
      assert b[i] in a;
      ScanOf(py, a, b[i]);
    }
  }

  lemma {:induction false} ValidCountsOne(py: Python, entries: seq<Entry>, e: Entry)
    requires ExceptionsValid(py, entries)
    ensures multiset(entries)[e] <= 1
  {
    if entries != [] {
      var n := |entries| - 1;
      var init := entries[..n];
      assert entries == init + [entries[n]];
      forall i | 0 <= i < n ensures Usable(py, init[i]) && init[i] != entries[n] {
        assert Usable(py, entries[i]) && EntryKey(py, entries[i]) != EntryKey(py, entries[n]);
      }
      forall i, j | 0 <= i < j < n ensures EntryKey(py, init[i]) != EntryKey(py, init[j]) {
        assert EntryKey(py, entries[i]) != EntryKey(py, entries[j]);
      }
      ValidCountsOne(py, init, e);
      assert entries[n] !in init;
    }
  }

  lemma SameMembers<T>(a: seq<T>, b: seq<T>)
    requires multiset(a) == multiset(b)
    ensures forall x :: x in a <==> x in b
  {
    forall x ensures x in a <==> x in b {
      assert x in a <==> x in multiset(a);
      assert x in b <==> x in multiset(b);
    }
  }

  /** Different entries of a valid list have different keys. */
  lemma KeysDiffer(py: Python, entries: seq<Entry>, e: Entry, f: Entry)
    requires ExceptionsValid(py, entries) && e in entries && f in entries && e != f
    ensures Usable(py, e) && Usable(py, f) && EntryKey(py, e) != EntryKey(py, f)
  {
    hide EntryKey;
    var i :| 0 <= i < |entries| && entries[i] == e;
    var j :| 0 <= j < |entries| && entries[j] == f;
    assert EntryKey(py, entries[i]) != EntryKey(py, entries[j]);
  }

  lemma CountsTwice<T>(s: seq<T>, i: nat, j: nat)
    requires i < j < |s| && s[i] == s[j]
    ensures multiset(s)[s[i]] >= 2
  {
    assert s == s[..i] + [s[i]] + s[i + 1..j] + [s[j]] + s[j + 1..];
  }

  lemma ValidPermutes(py: Python, a: seq<Entry>, b: seq<Entry>)
    requires ExceptionsValid(py, a) && multiset(a) == multiset(b)
    ensures ExceptionsValid(py, b)
  {
    hide EntryKey;
    SameMembers(a, b);
    forall i | 0 <= i < |b| ensures Usable(py, b[i]) {
      assert b[i] in a;
    }
    forall i, j | 0 <= i < j < |b| ensures EntryKey(py, b[i]) != EntryKey(py, b[j]) {
      assert b[i] in a && b[j] in a;
      assert b[i] != b[j] by {
        ValidCountsOne(py, a, b[i]);
        if b[i] == b[j] {
          CountsTwice(b, i, j);
        }
      }
      KeysDiffer(py, a, b[i], b[j]);
    }
  }

  /** The order of the exceptions does not matter. */
  lemma ExceptionsPermute(py: Python, findings: seq<Finding>, a: seq<Entry>, b: seq<Entry>, today: int)
    requires multiset(a) == multiset(b) && PassesAudit(py, findings, a, today)
    ensures PassesAudit(py, findings, b, today)
  {
    ValidPermutes(py, a, b);
    SameMembers(a, b);
    forall key ensures Scan(py, a, key) == Scan(py, b, key) {
      SameScan(py, a, b, key);
    }
    SameGrants(py, findings, a, b, today, today);
  }

  /** Grants that are kept, on a day that is not later, keep the verdict. */
  lemma SameGrants(py: Python, findings: seq<Finding>, a: seq<Entry>, b: seq<Entry>, later: int, today: int)
    requires today <= later && AllGranted(py, findings, a, later)
    requires forall key :: Scan(py, a, key).Some? ==> Scan(py, b, key) == Scan(py, a, key)
    ensures AllGranted(py, findings, b, today)
  {
    hide Scan, FindingKey, SeenBefore, Severity, Relevant;
    forall i | 0 <= i < |findings| && Relevant(py, findings[i]) ensures GrantedAt(py, findings, b, today, i) {
      assert GrantedAt(py, findings, a, later, i);
    }
  }

  /** Adding a usable exception with a new key keeps a pass. */
  lemma FreshExceptionKeepsPass(py: Python, findings: seq<Finding>, entries: seq<Entry>, e: Entry, today: int)
    requires PassesAudit(py, findings, entries, today) && Usable(py, e)
    requires forall i | 0 <= i < |entries| :: EntryKey(py, entries[i]) != EntryKey(py, e)
    ensures PassesAudit(py, findings, entries + [e], today)
  {
    var more := entries + [e];
    assert more[..|entries|] == entries;
    forall i | 0 <= i < |more| ensures Usable(py, more[i]) {
      assert more[i] == if i < |entries| then entries[i] else e;
    }
    SameGrants(py, findings, entries, more, today, today);
  }

  /** A pass on one day is a pass on every earlier day. */
  lemma EarlierDaysPass(py: Python, findings: seq<Finding>, entries: seq<Entry>, today: int, earlier: int)
    requires PassesAudit(py, findings, entries, today) && earlier <= today
    ensures PassesAudit(py, findings, entries, earlier)
  {
    SameGrants(py, findings, entries, entries, today, earlier);
  }

  /** Relevant findings with one key have one severity. */
  ghost predicate ConsistentSeverities(py: Python, findings: seq<Finding>) {
    forall f, g | f in findings && g in findings && Relevant(py, f) && Relevant(py, g) && FindingKey(py, f) == FindingKey(py, g) ::
      Severity(py, f) == Severity(py, g)
  }

  /** The exception agrees with every finding of its key, not just the first. */
  lemma {:induction false} AgreesEverywhere(py: Python, findings: seq<Finding>, entries: seq<Entry>, today: int, i: nat)
    requires ConsistentSeverities(py, findings) && AllGranted(py, findings, entries, today)
    requires i < |findings| && Relevant(py, findings[i])
    ensures Agrees(Scan(py, entries, FindingKey(py, findings[i])), Severity(py, findings[i]))
  {
    hide Scan, Relevant, FindingKey, Severity;
    assert GrantedAt(py, findings, entries, today, i);
    var key := FindingKey(py, findings[i]);
    if SeenBefore(py, findings, i, key) {
      var k :| 0 <= k < i && Relevant(py, findings[k]) && FindingKey(py, findings[k]) == key;
      AgreesEverywhere(py, findings, entries, today, k);
      assert findings[k] in findings && findings[i] in findings;
    }
  }

  /** With one severity per key the order of the findings does not matter either. */
  lemma FindingsPermute(py: Python, a: seq<Finding>, b: seq<Finding>, entries: seq<Entry>, today: int)
    requires multiset(a) == multiset(b) && ConsistentSeverities(py, a) && PassesAudit(py, a, entries, today)
    ensures ConsistentSeverities(py, b) && PassesAudit(py, b, entries, today)
  {
    hide Scan, Relevant, FindingKey, Severity, NormalizeSeverity;
    SameMembers(a, b);
    forall i | 0 <= i < |b| ensures NormalizeSeverity(py, b[i].severity).Value? {
      assert b[i] in a;
    }
    forall i | 0 <= i < |b| && Relevant(py, b[i]) ensures GrantedAt(py, b, entries, today, i) {
      assert b[i] in a;
      var k :| 0 <= k < |a| && a[k] == b[i];
      assert GrantedAt(py, a, entries, today, k);
      AgreesEverywhere(py, a, entries, today, k);
    }
  }

  /** Every relevant finding, and not just the first of its key, is covered and agrees with its exception. */
  ghost predicate GrantedEverywhere(py: Python, findings: seq<Finding>, entries: seq<Entry>, today: int) {
    forall i | 0 <= i < |findings| && Relevant(py, findings[i]) ::
      var g := Scan(py, entries, FindingKey(py, findings[i]));
      StillGranted(g, FindingKey(py, findings[i]), today) && Agrees(g, Severity(py, findings[i]))
  }

  /** A report passes in every order if and only if every relevant finding agrees with its exception. */
  lemma EveryOrderPasses(py: Python, a: seq<Finding>, entries: seq<Entry>, today: int)
    ensures (forall b: seq<Finding> | multiset(b) == multiset(a) :: PassesAudit(py, b, entries, today))
       <==> ExceptionsValid(py, entries) && SeveritiesRead(py, a) && GrantedEverywhere(py, a, entries, today)
  {
    hide PassesAudit, ExceptionsValid, SeveritiesRead, GrantedEverywhere;
    if ExceptionsValid(py, entries) && SeveritiesRead(py, a) && GrantedEverywhere(py, a, entries, today) {
      forall b: seq<Finding> | multiset(b) == multiset(a) ensures PassesAudit(py, b, entries, today) {
        AnyOrderPasses(py, a, b, entries, today);
      }
    }
    if forall b: seq<Finding> | multiset(b) == multiset(a) :: PassesAudit(py, b, entries, today) {
      AgreesInFront(py, a, entries, today);
    }
  }

  lemma AnyOrderPasses(py: Python, a: seq<Finding>, b: seq<Finding>, entries: seq<Entry>, today: int)
    requires multiset(a) == multiset(b)
    requires ExceptionsValid(py, entries) && SeveritiesRead(py, a) && GrantedEverywhere(py, a, entries, today)
    ensures PassesAudit(py, b, entries, today)
  {
    hide Scan, Relevant, FindingKey, Severity, NormalizeSeverity, ExceptionsValid, Agrees, StillGranted;
    SameMembers(a, b);
    forall i | 0 <= i < |b| ensures NormalizeSeverity(py, b[i].severity).Value? {
      assert b[i] in a;
    }
    forall i | 0 <= i < |b| && Relevant(py, b[i]) ensures GrantedAt(py, b, entries, today, i) {
      assert b[i] in a;
    }
  }

  /** A finding that is moved to the front is the first of its key. */
  lemma AgreesInFront(py: Python, a: seq<Finding>, entries: seq<Entry>, today: int)
    requires forall b: seq<Finding> | multiset(b) == multiset(a) :: PassesAudit(py, b, entries, today)
    ensures ExceptionsValid(py, entries) && SeveritiesRead(py, a) && GrantedEverywhere(py, a, entries, today)
  {
    hide Scan, Relevant, FindingKey, Severity, NormalizeSeverity, ExceptionsValid, Agrees, StillGranted;
    assert PassesAudit(py, a, entries, today);
    forall i | 0 <= i < |a| && Relevant(py, a[i])
      ensures var g := Scan(py, entries, FindingKey(py, a[i]));
              StillGranted(g, FindingKey(py, a[i]), today) && Agrees(g, Severity(py, a[i]))
    {
      var b := [a[i]] + a[..i] + a[i + 1..];
      assert a == a[..i] + [a[i]] + a[i + 1..];
      assert multiset(b) == multiset(a);
      assert PassesAudit(py, b, entries, today) && b[0] == a[i];
      assert GrantedAt(py, b, entries, today, 0);
    }
  }

  /** Every relevant finding is covered, and some finding of its key agrees with the exception. */
  ghost predicate SomeAgrees(py: Python, findings: seq<Finding>, entries: seq<Entry>, today: int) {
    forall f | f in findings && Relevant(py, f) :: KeyAgrees(py, findings, entries, today, FindingKey(py, f))
  }

  ghost predicate KeyAgrees(py: Python, findings: seq<Finding>, entries: seq<Entry>, today: int, key: Key) {
    && StillGranted(Scan(py, entries, key), key, today)
    && exists f :: f in findings && Relevant(py, f) && FindingKey(py, f) == key && Agrees(Scan(py, entries, key), Severity(py, f))
  }

  /** A report passes in some order if and only if of each key some finding agrees with the exception. */
  lemma SomeOrderPasses(py: Python, a: seq<Finding>, entries: seq<Entry>, today: int)
    ensures (exists b: seq<Finding> | multiset(b) == multiset(a) :: PassesAudit(py, b, entries, today))
       <==> ExceptionsValid(py, entries) && SeveritiesRead(py, a) && SomeAgrees(py, a, entries, today)
  {
    hide PassesAudit, ExceptionsValid, SeveritiesRead, SomeAgrees;
    if ExceptionsValid(py, entries) && SeveritiesRead(py, a) && SomeAgrees(py, a, entries, today) {
      var b := AgreeingFirst(py, a, entries, today);
      assert PassesAudit(py, b, entries, today);
    }
    forall b: seq<Finding> | multiset(b) == multiset(a) && PassesAudit(py, b, entries, today)
      ensures ExceptionsValid(py, entries) && SeveritiesRead(py, a) && SomeAgrees(py, a, entries, today)
    {
      PassNeedsAgreement(py, a, b, entries, today);
    }
  }

  /** With the findings that agree in front, the first finding of every key agrees. */
  lemma AgreeingFirst(py: Python, a: seq<Finding>, entries: seq<Entry>, today: int) returns (b: seq<Finding>)
    requires ExceptionsValid(py, entries) && SeveritiesRead(py, a) && SomeAgrees(py, a, entries, today)
    ensures multiset(b) == multiset(a) && PassesAudit(py, b, entries, today)
  {
    hide Scan, Relevant, FindingKey, Severity, NormalizeSeverity, ExceptionsValid, Agrees, StillGranted;
    var good := (f: Finding) => Agrees(Scan(py, entries, FindingKey(py, f)), Severity(py, f));
    var bad := (f: Finding) => !good(f);
    var front := Rows.Filter(a, good);
    b := front + Rows.Filter(a, bad);
    Rows.FilterPartition(a, good, bad);
    SameMembers(a, b);
    forall i | 0 <= i < |b| ensures NormalizeSeverity(py, b[i].severity).Value? {
      assert b[i] in a;
    }
    forall i | 0 <= i < |b| && Relevant(py, b[i]) ensures GrantedAt(py, b, entries, today, i) {
      assert b[i] in a;
      var key := FindingKey(py, b[i]);
      assert KeyAgrees(py, a, entries, today, key);
      var f :| f in a && Relevant(py, f) && FindingKey(py, f) == key && Agrees(Scan(py, entries, key), Severity(py, f));
      Rows.FilterMember(a, good, f);
      var k :| 0 <= k < |front| && front[k] == f;
      if i < |front| {
        Rows.FilterMember(a, good, front[i]);
      } else {
        assert b[k] == f;
        assert SeenBefore(py, b, i, key);
      }
    }
  }

  lemma PassNeedsAgreement(py: Python, a: seq<Finding>, b: seq<Finding>, entries: seq<Entry>, today: int)
    requires multiset(b) == multiset(a) && PassesAudit(py, b, entries, today)
    ensures ExceptionsValid(py, entries) && SeveritiesRead(py, a) && SomeAgrees(py, a, entries, today)
  {
    hide Scan, Relevant, FindingKey, Severity, NormalizeSeverity, ExceptionsValid, Agrees, StillGranted;
    SameMembers(a, b);
    forall i | 0 <= i < |a| ensures NormalizeSeverity(py, a[i].severity).Value? {
      assert a[i] in b;
    }
    forall f | f in a && Relevant(py, f) ensures KeyAgrees(py, a, entries, today, FindingKey(py, f)) {
      var i :| 0 <= i < |b| && b[i] == f;
      FirstOfKeyAgrees(py, b, entries, today, i);
    }
  }

  /** In a report that passes, the first finding of a key agrees with the exception. */
  lemma {:induction false} FirstOfKeyAgrees(py: Python, b: seq<Finding>, entries: seq<Entry>, today: int, i: nat)
    requires AllGranted(py, b, entries, today) && i < |b| && Relevant(py, b[i])
    ensures KeyAgrees(py, b, entries, today, FindingKey(py, b[i]))
  {
    hide Scan, Relevant, FindingKey, Severity, Agrees, StillGranted;
    var key := FindingKey(py, b[i]);
    assert GrantedAt(py, b, entries, today, i);
    if SeenBefore(py, b, i, key) {
      var k :| 0 <= k < i && Relevant(py, b[k]) && FindingKey(py, b[k]) == key;
      FirstOfKeyAgrees(py, b, entries, today, k);
    } else {
      assert b[i] in b;
    }
  }

  /** The order of the findings does not matter if and only if no order passes or all do. */
  lemma OrderDoesNotMatterIff(py: Python, a: seq<Finding>, entries: seq<Entry>, today: int)
    ensures (forall b: seq<Finding> | multiset(b) == multiset(a) :: PassesAudit(py, b, entries, today) <==> PassesAudit(py, a, entries, today))
       <==> || !(ExceptionsValid(py, entries) && SeveritiesRead(py, a) && SomeAgrees(py, a, entries, today))
            || GrantedEverywhere(py, a, entries, today)
  {
    hide PassesAudit, ExceptionsValid, SeveritiesRead, SomeAgrees, GrantedEverywhere;
    SomeOrderPasses(py, a, entries, today);
    EveryOrderPasses(py, a, entries, today);
  }

  /** The failing input: of two findings with one key only the first severity is compared. */
  lemma OrderOfSeveritiesMatters(py: Python, f: Finding, g: Finding, entries: seq<Entry>, today: int)
    requires Relevant(py, f) && Relevant(py, g) && FindingKey(py, f) == FindingKey(py, g)
    requires NormalizeSeverity(py, f.severity).Value? && NormalizeSeverity(py, g.severity).Value?
    requires ExceptionsValid(py, entries) && StillGranted(Scan(py, entries, FindingKey(py, f)), FindingKey(py, f), today)
    requires Agrees(Scan(py, entries, FindingKey(py, f)), Severity(py, f))
    ensures PassesAudit(py, [f, g], entries, today)
    ensures PassesAudit(py, [g, f], entries, today) <==> Agrees(Scan(py, entries, FindingKey(py, f)), Severity(py, g))
  {
    hide Scan, Relevant, FindingKey, Severity, NormalizeSeverity, Agrees, StillGranted;
    var a, b := [f, g], [g, f];
    assert a[0] == f && b[0] == g;
    assert SeenBefore(py, a, 1, FindingKey(py, g)) && SeenBefore(py, b, 1, FindingKey(py, f));
    assert GrantedAt(py, a, entries, today, 0) && GrantedAt(py, a, entries, today, 1) && GrantedAt(py, b, entries, today, 1);
    assert GrantedAt(py, b, entries, today, 0) <==> Agrees(Scan(py, entries, FindingKey(py, f)), Severity(py, g));
    if GrantedAt(py, b, entries, today, 0) {
      assert AllGranted(py, b, entries, today);
    }
  }

  const PLAIN := Python((j: JsonValue) => "", (t: string) => t, (t: string) => Some(1))
  const HIGH_FINDING := Finding(JStr("p"), JStr("high"), JStr("a"))
  const CRITICAL_FINDING := Finding(JStr("p"), JStr("critical"), JStr("a"))
  const HIGH_EXCEPTION: Entry := map[
    "package" := "p", "advisory" := "a", "severity" := "high", "mitigation" := "m", "expires_on" := "d"]

  /** A report that passes in one order and not in the other. */
  lemma OneOrderPasses()
    ensures PassesAudit(PLAIN, [HIGH_FINDING, CRITICAL_FINDING], [HIGH_EXCEPTION], 0)
    ensures !PassesAudit(PLAIN, [CRITICAL_FINDING, HIGH_FINDING], [HIGH_EXCEPTION], 0)
  {
    ExampleText();
    hide Strip;
    var key := ("p", "a");
    assert FindingKey(PLAIN, HIGH_FINDING) == key && FindingKey(PLAIN, CRITICAL_FINDING) == key;
    assert Usable(PLAIN, HIGH_EXCEPTION) && EntryKey(PLAIN, HIGH_EXCEPTION) == key;
    ScanTakesFirst(PLAIN, [HIGH_EXCEPTION], key, 0);
    hide Scan, Usable, EntryKey, FindingKey;
    OrderOfSeveritiesMatters(PLAIN, HIGH_FINDING, CRITICAL_FINDING, [HIGH_EXCEPTION], 0);
  }

  lemma ExampleText()
    ensures Strip("p") == "p" && Strip("a") == "a" && Strip("high") == "high" && Strip("critical") == "critical"
  {
    StripTrimmed("p");
    StripTrimmed("a");
    StripTrimmed("high");
    StripTrimmed("critical");
  }
}
