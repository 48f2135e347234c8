/**
 The report of the audit tool: JSON as Python sees it, the findings of both report shapes, and their meaning
 in terms of the objects of the report.
 */
module AuditReport {
  import opened Wrappers
  import opened AuditParser

  // --------------------------------------------------------------------- JSON

  datatype JsonValue =
    JNull | JBool(b: bool) | JNum(n: int) | JStr(s: string) | JArr(items: seq<JsonValue>) | JObj(members: seq<(string, JsonValue)>)

  predicate Truthy(j: JsonValue) {
    match j
    case JNull => false
    case JBool(b) => b
    case JNum(n) => n != 0
    case JStr(s) => s != ""
    case JArr(items) => items != []
    case JObj(members) => members != []
  }

  /** `get` of an object: the value of the key, or null. */
  function Get(members: seq<(string, JsonValue)>, key: string): JsonValue {
    if members == [] then JNull
    else if members[|members| - 1].0 == key then members[|members| - 1].1
    else Get(members[..|members| - 1], key)
  }

  /** A value, or an exception that ends the program. */
  datatype Attempt<+T> = Value(value: T) | Raised

  /** The parts of Python that are parameters: `str` of values other than strings, `lower`, and ISO dates. */
  datatype Python = Python(repr: JsonValue -> string, lower: string -> string, date: string -> Option<int>)

  function Text(py: Python, j: JsonValue): string {
    if j.JStr? then j.s else py.repr(j)
  }

  /** The first truthy value, or the last one. */
  function FirstOf(values: seq<JsonValue>): JsonValue
    requires values != []
  {
    if |values| == 1 || Truthy(values[0]) then values[0] else FirstOf(values[1..])
  }

  // ----------------------------------------------------------------- findings

  datatype Finding = Finding(name: JsonValue, severity: JsonValue, advisory: JsonValue)

  /** `(cves or [None])[0]`: only a list or a string can be indexed by 0. */
  function FirstCve(cves: JsonValue): Attempt<JsonValue> {
    if !Truthy(cves) then Value(JNull)
    else
      match cves
      case JArr(items) => Value(items[0])
      case JStr(s) => Value(JStr(s[..1]))
      case _ => Raised
  }

  /** `pick_advisory_id`; the later alternatives are evaluated only if the earlier ones are falsy. */
  function PickAdvisoryId(py: Python, a: seq<(string, JsonValue)>): Attempt<JsonValue> {
    var stable := FirstOf([Get(a, "github_advisory_id"), Get(a, "url")]);
    if Truthy(stable) then Value(stable)
    else
      var cve := FirstCve(Get(a, "cves"));
      if cve.Raised? then Raised
      else
        var id := Get(a, "id");
        Value(FirstOf([cve.value, if id.JNull? then JNull else JStr(Text(py, id)), Get(a, "title"), Get(a, "advisory"), Get(a, "overview")]))
  }

  /** The finding of one member of `advisories`. */
  function AdvisoryFinding(py: Python, j: JsonValue): Attempt<Finding> {
    if !j.JObj? then Raised
    else
      var id := PickAdvisoryId(py, j.members);
      if id.Raised? then Raised
      else Value(Finding(FirstOf([Get(j.members, "module_name"), Get(j.members, "name")]), Get(j.members, "severity"), id.value))
  }

  function AdvisoryFindings(py: Python, members: seq<(string, JsonValue)>): Attempt<seq<Finding>> {
    if members == [] then Value([])
    else
      var before := AdvisoryFindings(py, members[..|members| - 1]);
      if before.Raised? then Raised
      else
        var last := AdvisoryFinding(py, members[|members| - 1].1);
        if last.Raised? then Raised else Value(before.value + [last.value])
  }

  /** The advisory id and the title that one item of `via` contributes. */
  function ViaItem(item: JsonValue): seq<(JsonValue, JsonValue)> {
    match item
    case JObj(m) => [(FirstOf([Get(m, "github_advisory_id"), Get(m, "url"), Get(m, "source"), Get(m, "title"), Get(m, "name")]),
                      FirstOf([Get(m, "title"), Get(m, "url"), Get(m, "advisory"), Get(m, "source")]))]
    case JStr(s) => [(item, item)]
    case _ => []
  }

  function ViaItems(items: seq<JsonValue>): seq<(JsonValue, JsonValue)> {
    if items == [] then [] else ViaItems(items[..|items| - 1]) + ViaItem(items[|items| - 1])
  }

  /** All contributions of `via`; a missing `via` counts as an empty list, and other values are ignored. */
  function Via(members: seq<(string, JsonValue)>): seq<(JsonValue, JsonValue)> {
    match Get(members, "via")
    case JArr(items) => ViaItems(items)
    case JStr(s) => [(JStr(s), JStr(s))]
    case _ => []
  }

  /** One finding per truthy advisory id. */
  function IdFindings(name: string, severity: JsonValue, via: seq<(JsonValue, JsonValue)>): seq<Finding> {
    if via == [] then []
    else
      var init := IdFindings(name, severity, via[..|via| - 1]);
      var id := via[|via| - 1].0;
      if Truthy(id) then init + [Finding(JStr(name), severity, id)] else init
  }

  /** Joining the titles fails on a truthy title that is not a string. */
  predicate TitlesJoin(via: seq<(JsonValue, JsonValue)>) {
    forall i | 0 <= i < |via| && Truthy(via[i].1) :: via[i].1.JStr?
  }

  function PackageFindings(name: string, j: JsonValue): Attempt<seq<Finding>> {
    if !j.JObj? || !TitlesJoin(Via(j.members)) then Raised
    else Value(IdFindings(name, Get(j.members, "severity"), Via(j.members)))
  }

  function VulnerabilityFindings(members: seq<(string, JsonValue)>): Attempt<seq<Finding>> {
    if members == [] then Value([])
    else
      var before := VulnerabilityFindings(members[..|members| - 1]);
      if before.Raised? then Raised
      else
        var last := PackageFindings(members[|members| - 1].0, members[|members| - 1].1);
        if last.Raised? then Raised else Value(before.value + last.value)
  }

  /** All findings of a report: those of `advisories`, then those of `vulnerabilities`. */
  function Findings(py: Python, report: JsonValue): Attempt<seq<Finding>> {
    if !report.JObj? then Raised
    else
      var advisories, vulnerabilities := Get(report.members, "advisories"), Get(report.members, "vulnerabilities");
      var a := if advisories.JObj? then AdvisoryFindings(py, advisories.members) else Value([]);
      var v := if vulnerabilities.JObj? then VulnerabilityFindings(vulnerabilities.members) else Value([]);
      if a.Raised? || v.Raised? then Raised else Value(a.value + v.value)
  }

  // --------------------------------------------------------------- normalisers

  const HIGH_SEVERITIES: set<string> := {"high", "critical"}

  /** `normalize_severity`: a truthy severity must be a string. */
  function NormalizeSeverity(py: Python, severity: JsonValue): Attempt<string> {
    if !Truthy(severity) then Value(py.lower(Strip("")))
    else if severity.JStr? then Value(py.lower(Strip(severity.s)))
    else Raised
  }

  function NormalizePackage(py: Python, name: JsonValue): string {
    if name.JNull? then "" else Strip(Text(py, name))
  }

  function NormalizeAdvisory(py: Python, advisory: JsonValue): string {
    if advisory.JNull? then "" else py.lower(Strip(Text(py, advisory)))
  }

  // ------------------------------------------------------------- the findings

  /** The `advisories` part of `iter_vulns`. */
  method IterAdvisories(py: Python, members: seq<(string, JsonValue)>) returns (r: Attempt<seq<Finding>>)
    ensures r == AdvisoryFindings(py, members)
  {
    var findings := [];
    for i := 0 to |members|
      invariant AdvisoryFindings(py, members[..i]) == Value(findings)
    {
      assert members[..i + 1][..i] == members[..i];
      var f := AdvisoryFinding(py, members[i].1);
      if f.Raised? {
        AdvisoriesStop(py, members, i + 1);
        return Raised;
      }
      findings := findings + [f.value];
    }
    assert members[..|members|] == members;
    return Value(findings);
  }

  /** The `vulnerabilities` part of `iter_vulns`. */
  method IterVulnerabilities(members: seq<(string, JsonValue)>) returns (r: Attempt<seq<Finding>>)
    ensures r == VulnerabilityFindings(members)
  {
    var findings := [];
    for i := 0 to |members|
      invariant VulnerabilityFindings(members[..i]) == Value(findings)
    {
      assert members[..i + 1][..i] == members[..i];
      if PackageFindings(members[i].0, members[i].1).Raised? {
        VulnerabilitiesStop(members, i + 1);
      }
      var vuln := members[i].1;
      if !vuln.JObj? {
        return Raised;
      }
      var via := Via(vuln.members);
      var joins := JoinTitles(via);
      if !joins {
        return Raised;
      }
      var yielded := YieldIds(members[i].0, Get(vuln.members, "severity"), via);
      findings := findings + yielded;
    }
    assert members[..|members|] == members;
    return Value(findings);
  }

  /** `iter_vulns`, as the list of what it yields. */
  method IterVulns(py: Python, report: JsonValue) returns (r: Attempt<seq<Finding>>)
    ensures r == Findings(py, report)
  {
    if !report.JObj? {
      return Raised;
    }
    var a, v := Value([]), Value([]);
    var advisories := Get(report.members, "advisories");
    if advisories.JObj? {
      a := IterAdvisories(py, advisories.members);
    }
    var vulnerabilities := Get(report.members, "vulnerabilities");
    if vulnerabilities.JObj? {
      v := IterVulnerabilities(vulnerabilities.members);
    }
    if a.Raised? || v.Raised? {
      return Raised;
    }
    return Value(a.value + v.value);
  }

  /** `"; ".join(...)` succeeds. */
  method JoinTitles(via: seq<(JsonValue, JsonValue)>) returns (joins: bool)
    ensures joins == TitlesJoin(via)
  {
    for i := 0 to |via|
      invariant forall k | 0 <= k < i && Truthy(via[k].1) :: via[k].1.JStr?
    {
      if Truthy(via[i].1) && !via[i].1.JStr? {
        return false;
      }
    }
    return true;
  }

  method YieldIds(name: string, severity: JsonValue, via: seq<(JsonValue, JsonValue)>) returns (findings: seq<Finding>)
    ensures findings == IdFindings(name, severity, via)
  {
    findings := [];
    for i := 0 to |via|
      invariant findings == IdFindings(name, severity, via[..i])
    {
      assert via[..i + 1][..i] == via[..i];
      if Truthy(via[i].0) {
        findings := findings + [Finding(JStr(name), severity, via[i].0)];
      }
    }
    assert via[..|via|] == via;
  }

  lemma {:induction false} AdvisoriesStop(py: Python, members: seq<(string, JsonValue)>, i: nat)
    requires i <= |members| && AdvisoryFindings(py, members[..i]).Raised?
    ensures AdvisoryFindings(py, members).Raised?
    decreases |members|
  {
    if i == |members| {
      assert members[..i] == members;
    } else {
      assert members[..|members| - 1][..i] == members[..i];
      AdvisoriesStop(py, members[..|members| - 1], i);
    }
  }

  lemma {:induction false} VulnerabilitiesStop(members: seq<(string, JsonValue)>, i: nat)
    requires i <= |members| && VulnerabilityFindings(members[..i]).Raised?
    ensures VulnerabilityFindings(members).Raised?
    decreases |members|
  {
    if i == |members| {
      assert members[..i] == members;
    } else {
      assert members[..|members| - 1][..i] == members[..i];
      VulnerabilitiesStop(members[..|members| - 1], i);
    }
  }

  /** Every advisory is one finding, in the order of the report. */
  lemma {:induction false} AdvisoriesOneEach(py: Python, members: seq<(string, JsonValue)>, i: nat)
    requires AdvisoryFindings(py, members).Value? && i < |members|
    ensures |AdvisoryFindings(py, members).value| == |members|
    ensures Value(AdvisoryFindings(py, members).value[i]) == AdvisoryFinding(py, members[i].1)
  {
    hide AdvisoryFinding;
    var n := |members| - 1;
    if n > 0 {
      AdvisoriesOneEach(py, members[..n], if i < n then i else 0);
    }
  }

  /** `via` of the package yields a usable id, and the finding consists of it and the package's name and severity. */
  predicate ReportedBy(name: string, j: JsonValue, f: Finding) {
    j.JObj? && var via := Via(j.members);
    exists k :: 0 <= k < |via| && Truthy(via[k].0) && f == Finding(JStr(name), Get(j.members, "severity"), via[k].0)
  }

  lemma {:induction false} IdsReported(name: string, severity: JsonValue, via: seq<(JsonValue, JsonValue)>, f: Finding)
    ensures f in IdFindings(name, severity, via)
       <==> exists k :: 0 <= k < |via| && Truthy(via[k].0) && f == Finding(JStr(name), severity, via[k].0)
  {
    if via != [] {
      var n := |via| - 1;
      IdsReported(name, severity, via[..n], f);
      if k :| 0 <= k < |via| && Truthy(via[k].0) && f == Finding(JStr(name), severity, via[k].0) {
        assert k < n ==> via[..n][k] == via[k];
      }
    }
  }

  lemma PackageReported(name: string, j: JsonValue, f: Finding)
    requires PackageFindings(name, j).Value?
    ensures f in PackageFindings(name, j).value <==> ReportedBy(name, j, f)
  {
    IdsReported(name, Get(j.members, "severity"), Via(j.members), f);
  }

  /** A package is reported exactly for the usable ids that its `via` yields, and so not at all without one. */
  lemma {:induction false} VulnerabilitiesReported(members: seq<(string, JsonValue)>, f: Finding)
    requires VulnerabilityFindings(members).Value?
    ensures f in VulnerabilityFindings(members).value
       <==> exists i :: 0 <= i < |members| && ReportedBy(members[i].0, members[i].1, f)
  {
    hide ReportedBy, PackageFindings;
    if members != [] {
      var n := |members| - 1;
      VulnerabilitiesReported(members[..n], f);
      PackageReported(members[n].0, members[n].1, f);
      assert forall i | 0 <= i < n :: members[..n][i] == members[i];
    }
  }

  lemma PackageRead(name: string, j: JsonValue)
    ensures PackageFindings(name, j).Value? <==> j.JObj? && TitlesJoin(Via(j.members))
  {
    hide TitlesJoin, Via;
  }

  /** A report's `vulnerabilities` can be read exactly if every package is an object whose titles join. */
  lemma {:induction false} VulnerabilitiesRead(members: seq<(string, JsonValue)>)
    ensures VulnerabilityFindings(members).Value?
       <==> forall i | 0 <= i < |members| :: members[i].1.JObj? && TitlesJoin(Via(members[i].1.members))
  {
    hide PackageFindings, TitlesJoin, Via;
    if members != [] {
      var n := |members| - 1;
      VulnerabilitiesRead(members[..n]);
      PackageRead(members[n].0, members[n].1);
      assert forall i | 0 <= i < n :: members[..n][i] == members[i];
    }
  }

  /** An item with a numeric source and no title or url ends the program: its title cannot be joined. */
  lemma NumericTitleRaises(n: int)
    requires n != 0
    ensures PackageFindings("p", JObj([("via", JArr([JObj([("source", JNum(n))])]))])).Raised?
  {
    var item := [("source", JNum(n))];
    assert item[..0] == [];
    assert Get(item, "source") == JNum(n) && Get(item, "title") == JNull && Get(item, "url") == JNull && Get(item, "advisory") == JNull;
    var contribution := ViaItem(JObj(item));
    TitleIsSource(JNull, JNull, JNull, JNum(n));
    assert contribution[0].1 == JNum(n);
    var items := [JObj(item)];
    assert items[..0] == [] && ViaItems(items) == contribution;
    var package := [("via", JArr(items))];
    assert package[..0] == [] && Via(package) == contribution;
  }

  lemma TitleIsSource(a: JsonValue, b: JsonValue, c: JsonValue, d: JsonValue)
    requires !Truthy(a) && !Truthy(b) && !Truthy(c)
    ensures FirstOf([a, b, c, d]) == d
  {
    assert FirstOf([d]) == d;
    assert [c, d][1..] == [d] && FirstOf([c, d]) == d;
    assert [b, c, d][1..] == [c, d] && FirstOf([b, c, d]) == d;
    assert [a, b, c, d][1..] == [b, c, d];
  }

  // ---------------------------------------------------- what a report says

  /** The values that Python counts as false. */
  ghost predicate Falsy(v: JsonValue) {
    v in {JNull, JBool(false), JNum(0), JStr(""), JArr([]), JObj([])}
  }

  /** The object gives `v` for the key: the last value, or null if there is none. */
  ghost predicate Has(o: seq<(string, JsonValue)>, key: string, v: JsonValue) {
    || (exists i :: 0 <= i < |o| && o[i] == (key, v) && forall j | i < j < |o| :: o[j].0 != key)
    || (v == JNull && forall i | 0 <= i < |o| :: o[i].0 != key)
  }

  /** What the object gives for the key is falsy. */
  ghost predicate Lacks(o: seq<(string, JsonValue)>, key: string) {
    forall v :: Has(o, key, v) ==> Falsy(v)
  }

  /** `v` is what the object gives for the first of the keys that it does not lack, or else for the last key. */
  ghost predicate Picks(o: seq<(string, JsonValue)>, keys: seq<string>, v: JsonValue) {
    exists k :: 0 <= k < |keys| && Has(o, keys[k], v) && (k == |keys| - 1 || !Falsy(v)) && forall l | 0 <= l < k :: Lacks(o, keys[l])
  }

  /** The first CVE of an advisory; a list or a text has a first element, and nothing else that is truthy has. */
  ghost predicate CveOf(a: seq<(string, JsonValue)>, v: JsonValue) {
    || (Lacks(a, "cves") && v == JNull)
    || (exists items :: Has(a, "cves", JArr(items)) && items != [] && v == items[0])
    || (exists s :: Has(a, "cves", JStr(s)) && s != "" && v == JStr([s[0]]))
  }

  /** The number or text of an advisory, as text. */
  ghost predicate NumberOf(py: Python, a: seq<(string, JsonValue)>, v: JsonValue) {
    || (Has(a, "id", JNull) && v == JNull)
    || (exists s :: Has(a, "id", JStr(s)) && v == JStr(s))
    || (exists w :: Has(a, "id", w) && w != JNull && !w.JStr? && v == JStr(py.repr(w)))
  }

  /** The advisory is known as `v`: by its GHSA id, or else by its url, or else in another way. */
  ghost predicate KnownAs(py: Python, a: seq<(string, JsonValue)>, v: JsonValue) {
    || (Has(a, "github_advisory_id", v) && !Falsy(v))
    || (Lacks(a, "github_advisory_id") && Has(a, "url", v) && !Falsy(v))
    || (Lacks(a, "github_advisory_id") && Lacks(a, "url") && OtherwiseKnownAs(py, a, v))
  }

  /** By its first CVE, or else its number, or else the first text that describes it. */
  ghost predicate OtherwiseKnownAs(py: Python, a: seq<(string, JsonValue)>, v: JsonValue) {
    || (CveOf(a, v) && !Falsy(v))
    || (exists cve :: CveOf(a, cve) && Falsy(cve) && (
         || (NumberOf(py, a, v) && !Falsy(v))
         || (exists number :: NumberOf(py, a, number) && Falsy(number) && Picks(a, ["title", "advisory", "overview"], v))))
  }

  /** The CVEs are neither a list nor a text, so that there is no first one. */
  ghost predicate NoFirstCve(a: seq<(string, JsonValue)>) {
    exists w :: Has(a, "cves", w) && !Falsy(w) && !w.JArr? && !w.JStr?
  }

  /** The report has an advisory with this name and severity that is known as `id`. */
  ghost predicate ByAdvisory(py: Python, o: seq<(string, JsonValue)>, name: JsonValue, severity: JsonValue, id: JsonValue) {
    exists i :: 0 <= i < |o| && o[i].1.JObj? && var a := o[i].1.members;
      Picks(a, ["module_name", "name"], name) && Has(a, "severity", severity) && KnownAs(py, a, id)
  }

  /** The item of a `via` list stands for the advisory `id`. */
  ghost predicate Refers(item: JsonValue, id: JsonValue) {
    || (item.JStr? && id == item)
    || (item.JObj? && Picks(item.members, ["github_advisory_id", "url", "source", "title", "name"], id))
  }

  /** The report has a package with this name and severity whose `via` stands for the advisory `id`. */
  ghost predicate ByPackage(o: seq<(string, JsonValue)>, name: JsonValue, severity: JsonValue, id: JsonValue) {
    exists i :: 0 <= i < |o| && name == JStr(o[i].0) && o[i].1.JObj? && Has(o[i].1.members, "severity", severity) && !Falsy(id)
      && ViaNames(o[i].1.members, id)
  }

  ghost predicate ViaNames(o: seq<(string, JsonValue)>, id: JsonValue) {
    || (exists s :: Has(o, "via", JStr(s)) && id == JStr(s))
    || (exists items, k :: Has(o, "via", JArr(items)) && 0 <= k < |items| && Refers(items[k], id))
  }

  /** The report names a vulnerability of the package `name` with this severity and advisory. */
  ghost predicate Reported(py: Python, report: JsonValue, name: JsonValue, severity: JsonValue, id: JsonValue) {
    report.JObj? && (
      || (exists o :: Has(report.members, "advisories", JObj(o)) && ByAdvisory(py, o, name, severity, id))
      || (exists o :: Has(report.members, "vulnerabilities", JObj(o)) && ByPackage(o, name, severity, id)))
  }

  /** An item of `via` has a title that is neither falsy nor a text, so that the titles cannot be joined. */
  ghost predicate HasBadTitle(o: seq<(string, JsonValue)>) {
    exists items: seq<JsonValue>, k, t :: Has(o, "via", JArr(items)) && 0 <= k < |items| && items[k].JObj?
      && Picks(items[k].members, ["title", "url", "advisory", "source"], t) && !Falsy(t) && !t.JStr?
  }

  ghost predicate BadAdvisory(j: JsonValue) {
    !j.JObj? || (Lacks(j.members, "github_advisory_id") && Lacks(j.members, "url") && NoFirstCve(j.members))
  }

  ghost predicate BadPackage(j: JsonValue) {
    !j.JObj? || HasBadTitle(j.members)
  }

  /** Reading the report ends the program. */
  ghost predicate Unreadable(report: JsonValue) {
    || !report.JObj?
    || (exists o: seq<(string, JsonValue)>, i :: Has(report.members, "advisories", JObj(o)) && 0 <= i < |o| && BadAdvisory(o[i].1))
    || (exists o: seq<(string, JsonValue)>, i :: Has(report.members, "vulnerabilities", JObj(o)) && 0 <= i < |o| && BadPackage(o[i].1))
  }

  lemma TruthyMeans(v: JsonValue)
    ensures Truthy(v) <==> !Falsy(v)
  {
  }

  lemma HasMore(o: seq<(string, JsonValue)>, last: (string, JsonValue), key: string, v: JsonValue)
    ensures Has(o + [last], key, v) <==> if last.0 == key then v == last.1 else Has(o, key, v)
  {
    var more := o + [last];
    assert more[|o|] == last && forall i | 0 <= i < |o| :: more[i] == o[i];
    if last.0 == key {
      LastDecides(more, key, v);
    } else if Has(o, key, v) {
      KeptBehind(o, last, key, v);
    }
  }

  lemma LastDecides(o: seq<(string, JsonValue)>, key: string, v: JsonValue)
    requires o != [] && o[|o| - 1].0 == key
    ensures Has(o, key, v) <==> v == o[|o| - 1].1
  {
    var n := |o| - 1;
    assert o[n] == (key, o[n].1);
  }

  lemma KeptBehind(o: seq<(string, JsonValue)>, last: (string, JsonValue), key: string, v: JsonValue)
    requires Has(o, key, v) && last.0 != key
    ensures Has(o + [last], key, v)
  {
    var more := o + [last];
    if i :| 0 <= i < |o| && o[i] == (key, v) && forall j | i < j < |o| :: o[j].0 != key {
      assert more[i] == (key, v) && forall j | i < j < |more| :: more[j].0 != key;
    }
  }

  lemma {:induction false} GetMeans(o: seq<(string, JsonValue)>, key: string, v: JsonValue)
    ensures Has(o, key, v) <==> Get(o, key) == v
  {
    if o != [] {
      var n := |o| - 1;
      GetMeans(o[..n], key, v);
      assert o == o[..n] + [o[n]];
      HasMore(o[..n], o[n], key, v);
      hide Has;
    }
  }

  lemma LacksMeans(o: seq<(string, JsonValue)>, key: string)
    ensures Lacks(o, key) <==> !Truthy(Get(o, key))
  {
    TruthyMeans(Get(o, key));
    forall v ensures Has(o, key, v) <==> Get(o, key) == v {
      GetMeans(o, key, v);
    }
  }

  function Gets(o: seq<(string, JsonValue)>, keys: seq<string>): (r: seq<JsonValue>)
    ensures |r| == |keys| && forall k | 0 <= k < |r| :: r[k] == Get(o, keys[k])
  {
    seq(|keys|, k requires 0 <= k < |keys| => Get(o, keys[k]))
  }

  lemma {:induction false} FirstOfMeans(o: seq<(string, JsonValue)>, keys: seq<string>, v: JsonValue)
    requires keys != []
    ensures FirstOf(Gets(o, keys)) == v <==> Picks(o, keys, v)
  {
    hide Truthy, Falsy, Has, Lacks;
    forall k | 0 <= k < |keys| ensures (Has(o, keys[k], v) <==> Get(o, keys[k]) == v) && (Lacks(o, keys[k]) <==> !Truthy(Get(o, keys[k]))) {
      GetMeans(o, keys[k], v);
      LacksMeans(o, keys[k]);
    }
    TruthyMeans(v);
    if |keys| > 1 {
      FirstOfMeans(o, keys[1..], v);
      assert Gets(o, keys)[1..] == Gets(o, keys[1..]);
      PicksTail(o, keys, v);
    }
  }

  lemma PicksTail(o: seq<(string, JsonValue)>, keys: seq<string>, v: JsonValue)
    requires |keys| > 1
    ensures Picks(o, keys, v) <==> (Has(o, keys[0], v) && !Falsy(v)) || (Lacks(o, keys[0]) && Picks(o, keys[1..], v))
  {
    if Picks(o, keys, v) {
      PicksLater(o, keys, v);
    }
    if Lacks(o, keys[0]) && Picks(o, keys[1..], v) {
      PicksBehind(o, keys, v);
    }
    hide Has, Lacks, Falsy;
  }

  lemma PicksLater(o: seq<(string, JsonValue)>, keys: seq<string>, v: JsonValue)
    requires |keys| > 1 && Picks(o, keys, v)
    ensures (Has(o, keys[0], v) && !Falsy(v)) || (Lacks(o, keys[0]) && Picks(o, keys[1..], v))
  {
    hide Falsy, Has, Lacks;
    var rest := keys[1..];
    var k :| 0 <= k < |keys| && Has(o, keys[k], v) && (k == |keys| - 1 || !Falsy(v)) && forall l | 0 <= l < k :: Lacks(o, keys[l]);
    if k > 0 {
      var j := k - 1;
      assert rest[j] == keys[k] && forall l | 0 <= l < j :: rest[l] == keys[l + 1];
    }
  }

  lemma PicksBehind(o: seq<(string, JsonValue)>, keys: seq<string>, v: JsonValue)
    requires |keys| > 1 && Lacks(o, keys[0]) && Picks(o, keys[1..], v)
    ensures Picks(o, keys, v)
  {
    hide Falsy, Has, Lacks;
    var rest := keys[1..];
    var k :| 0 <= k < |rest| && Has(o, rest[k], v) && (k == |rest| - 1 || !Falsy(v)) && forall l | 0 <= l < k :: Lacks(o, rest[l]);
    var j := k + 1;
    assert rest[k] == keys[j] && forall l | 1 <= l < j :: keys[l] == rest[l - 1];
  }

  lemma CveMeans(a: seq<(string, JsonValue)>, v: JsonValue)
    ensures FirstCve(Get(a, "cves")) == Value(v) <==> CveOf(a, v)
    ensures FirstCve(Get(a, "cves")).Raised? <==> NoFirstCve(a)
  {
    hide Has, Lacks, Get;
    var cves := Get(a, "cves");
    forall w ensures Has(a, "cves", w) <==> cves == w {
      GetMeans(a, "cves", w);
    }
    LacksMeans(a, "cves");
    assert cves.JStr? && cves.s != "" ==> cves.s[..1] == [cves.s[0]];
  }

  lemma NumberMeans(py: Python, a: seq<(string, JsonValue)>, v: JsonValue)
    ensures var id := Get(a, "id"); (if id.JNull? then JNull else JStr(Text(py, id))) == v <==> NumberOf(py, a, v)
  {
    hide Has, Get;
    forall w ensures Has(a, "id", w) <==> Get(a, "id") == w {
      GetMeans(a, "id", w);
    }
  }

  /** Each of the alternatives is the id exactly when it is truthy and the earlier ones are not. */
  lemma PickMeans(py: Python, a: seq<(string, JsonValue)>, v: JsonValue)
    ensures PickAdvisoryId(py, a) == Value(v) <==> KnownAs(py, a, v)
    ensures PickAdvisoryId(py, a).Raised? <==> Lacks(a, "github_advisory_id") && Lacks(a, "url") && NoFirstCve(a)
  {
    GetMeans(a, "github_advisory_id", v);
    GetMeans(a, "url", v);
    LacksMeans(a, "github_advisory_id");
    LacksMeans(a, "url");
    TruthyMeans(v);
    var ghsa, url := Get(a, "github_advisory_id"), Get(a, "url");
    assert [ghsa, url][1..] == [url] && FirstOf([url]) == url;
    var stable := FirstOf([ghsa, url]);
    assert stable == if Truthy(ghsa) then ghsa else url;
    if !Truthy(stable) {
      CveMeans(a, v);
      OtherwiseMeans(py, a, v);
    }
    hide Has, Lacks, Get, Truthy, Falsy, OtherwiseKnownAs, FirstCve, NoFirstCve;
  }

  lemma OtherwiseCases(py: Python, a: seq<(string, JsonValue)>, v: JsonValue, cve: JsonValue, number: JsonValue)
    requires forall w :: CveOf(a, w) <==> w == cve
    requires forall w :: NumberOf(py, a, w) <==> w == number
    ensures OtherwiseKnownAs(py, a, v) <==>
              if !Falsy(cve) then v == cve else if !Falsy(number) then v == number else Picks(a, ["title", "advisory", "overview"], v)
  {
    hide CveOf, NumberOf, Falsy, Picks;
    assert CveOf(a, cve) && NumberOf(py, a, number);
  }

  /** The alternatives behind the url. */
  lemma OtherwiseMeans(py: Python, a: seq<(string, JsonValue)>, v: JsonValue)
    ensures var cve, id := FirstCve(Get(a, "cves")), Get(a, "id");
            OtherwiseKnownAs(py, a, v) <==>
              cve.Value? && FirstOf([cve.value, if id.JNull? then JNull else JStr(Text(py, id)), Get(a, "title"), Get(a, "advisory"), Get(a, "overview")]) == v
  {
    var keys := ["title", "advisory", "overview"];
    FirstOfMeans(a, keys, v);
    var cve, id, rest := FirstCve(Get(a, "cves")), Get(a, "id"), Gets(a, keys);
    assert rest[0] == Get(a, "title") && rest[1] == Get(a, "advisory") && rest[2] == Get(a, "overview");
    var number := if id.JNull? then JNull else JStr(Text(py, id));
    forall w ensures CveOf(a, w) <==> cve.Value? && w == cve.value {
      CveMeans(a, w);
    }
    forall w ensures NumberOf(py, a, w) <==> w == number {
      NumberMeans(py, a, w);
    }
    hide CveOf, NumberOf, FirstCve, Get, Truthy, Falsy, Picks, Text, FirstOf, Gets;
    if cve.Value? {
      FirstOfFive(cve.value, number, rest);
      TruthyMeans(cve.value);
      TruthyMeans(number);
      OtherwiseCases(py, a, v, cve.value, number);
      hide OtherwiseKnownAs;
    }
  }

  lemma FirstOfFive(x: JsonValue, y: JsonValue, rest: seq<JsonValue>)
    requires |rest| == 3
    ensures FirstOf([x, y, rest[0], rest[1], rest[2]]) == if Truthy(x) then x else if Truthy(y) then y else FirstOf(rest)
  {
    var all := [x, y, rest[0], rest[1], rest[2]];
    assert all[1..][1..] == rest;
    assert FirstOf(all[1..]) == if Truthy(y) then y else FirstOf(rest);
  }

  lemma AdvisoryMeans(py: Python, j: JsonValue, f: Finding)
    ensures AdvisoryFinding(py, j) == Value(f) <==>
              j.JObj? && Picks(j.members, ["module_name", "name"], f.name) && Has(j.members, "severity", f.severity) && KnownAs(py, j.members, f.advisory)
  {
    hide Has, KnownAs, Picks, PickAdvisoryId, FirstOf, Get;
    if j.JObj? {
      var keys := ["module_name", "name"];
      FirstOfMeans(j.members, keys, f.name);
      assert Gets(j.members, keys) == [Get(j.members, "module_name"), Get(j.members, "name")];
      GetMeans(j.members, "severity", f.severity);
      PickMeans(py, j.members, f.advisory);
    }
  }

  lemma {:induction false} AdvisoriesMean(py: Python, o: seq<(string, JsonValue)>, f: Finding)
    requires AdvisoryFindings(py, o).Value?
    ensures f in AdvisoryFindings(py, o).value <==> ByAdvisory(py, o, f.name, f.severity, f.advisory)
  {
    hide Has, KnownAs, Picks, AdvisoryFinding;
    if o != [] {
      var n := |o| - 1;
      AdvisoriesMean(py, o[..n], f);
      AdvisoryMeans(py, o[n].1, f);
      assert forall i | 0 <= i < n :: o[..n][i] == o[i];
    }
  }

  lemma ItemMeans(item: JsonValue, id: JsonValue)
    ensures (exists k :: 0 <= k < |ViaItem(item)| && ViaItem(item)[k].0 == id) <==> Refers(item, id)
  {
    hide Picks, FirstOf, Get;
    if item.JObj? {
      var keys := ["github_advisory_id", "url", "source", "title", "name"];
      FirstOfMeans(item.members, keys, id);
      var m := item.members;
      assert Gets(m, keys) == [Get(m, "github_advisory_id"), Get(m, "url"), Get(m, "source"), Get(m, "title"), Get(m, "name")];
      assert ViaItem(item)[0].0 == FirstOf(Gets(m, keys));
    } else if item.JStr? {
      assert ViaItem(item)[0].0 == item;
    }
  }

  ghost predicate NamedIn(via: seq<(JsonValue, JsonValue)>, id: JsonValue) {
    exists k :: 0 <= k < |via| && via[k].0 == id
  }

  lemma NamedConcat(a: seq<(JsonValue, JsonValue)>, b: seq<(JsonValue, JsonValue)>, id: JsonValue)
    ensures NamedIn(a + b, id) <==> NamedIn(a, id) || NamedIn(b, id)
  {
    if k :| 0 <= k < |a| && a[k].0 == id {
      assert (a + b)[k].0 == id;
    }
    if k :| 0 <= k < |b| && b[k].0 == id {
      assert (a + b)[|a| + k].0 == id;
    }
  }

  lemma {:induction false} ItemsMean(items: seq<JsonValue>, id: JsonValue)
    ensures NamedIn(ViaItems(items), id) <==> exists k :: 0 <= k < |items| && Refers(items[k], id)
  {
    hide Refers, ViaItem;
    if items != [] {
      var n := |items| - 1;
      ItemsMean(items[..n], id);
      ItemMeans(items[n], id);
      NamedConcat(ViaItems(items[..n]), ViaItem(items[n]), id);
      assert NamedIn(ViaItem(items[n]), id) <==> Refers(items[n], id);
      assert forall k | 0 <= k < n :: items[..n][k] == items[k];
    }
  }

  lemma ViaMeans(o: seq<(string, JsonValue)>, id: JsonValue)
    ensures NamedIn(Via(o), id) <==> ViaNames(o, id)
  {
    hide Has, Refers, ViaItems, Get;
    var via := Get(o, "via");
    forall w ensures Has(o, "via", w) <==> via == w {
      GetMeans(o, "via", w);
    }
    match via {
      case JArr(items) => ItemsMean(items, id);
      case JStr(s) => assert [(JStr(s), JStr(s))][0].0 == JStr(s);
      case _ =>
    }
  }

  lemma {:induction false} PackagesMean(o: seq<(string, JsonValue)>, f: Finding)
    requires VulnerabilityFindings(o).Value?
    ensures f in VulnerabilityFindings(o).value <==> ByPackage(o, f.name, f.severity, f.advisory)
  {
    VulnerabilitiesReported(o, f);
    hide VulnerabilityFindings;
    forall i | 0 <= i < |o|
      ensures ReportedBy(o[i].0, o[i].1, f) <==>
                f.name == JStr(o[i].0) && o[i].1.JObj? && Has(o[i].1.members, "severity", f.severity) && !Falsy(f.advisory) && ViaNames(o[i].1.members, f.advisory)
    {
      PackageMeans(o[i].0, o[i].1, f);
    }
  }

  lemma PackageMeans(name: string, j: JsonValue, f: Finding)
    ensures ReportedBy(name, j, f) <==>
              f.name == JStr(name) && j.JObj? && Has(j.members, "severity", f.severity) && !Falsy(f.advisory) && ViaNames(j.members, f.advisory)
  {
    hide Has, Via, Truthy, Falsy, ViaNames, Get;
    if j.JObj? {
      GetMeans(j.members, "severity", f.severity);
      ViaMeans(j.members, f.advisory);
      TruthyMeans(f.advisory);
      var via := Via(j.members);
      assert NamedIn(via, f.advisory) <==> exists k :: 0 <= k < |via| && via[k].0 == f.advisory;
    }
  }

  /** The findings of a report that can be read are what it reports. */
  lemma FindingsMean(py: Python, report: JsonValue, f: Finding)
    requires Findings(py, report).Value?
    ensures f in Findings(py, report).value <==> Reported(py, report, f.name, f.severity, f.advisory)
  {
    hide Has, AdvisoryFindings, VulnerabilityFindings, ByAdvisory, ByPackage, Get;
    var m := report.members;
    forall w ensures (Has(m, "advisories", w) <==> Get(m, "advisories") == w) && (Has(m, "vulnerabilities", w) <==> Get(m, "vulnerabilities") == w) {
      GetMeans(m, "advisories", w);
      GetMeans(m, "vulnerabilities", w);
    }
    var advisories, vulnerabilities := Get(m, "advisories"), Get(m, "vulnerabilities");
    if advisories.JObj? {
      AdvisoriesMean(py, advisories.members, f);
    }
    if vulnerabilities.JObj? {
      PackagesMean(vulnerabilities.members, f);
    }
  }

  lemma AdvisoryRaises(py: Python, j: JsonValue)
    ensures AdvisoryFinding(py, j).Raised? <==> BadAdvisory(j)
  {
    hide PickAdvisoryId, FirstOf, Get, Lacks, NoFirstCve;
    if j.JObj? {
      PickMeans(py, j.members, JNull);
    }
  }

  lemma {:induction false} AdvisoriesRaise(py: Python, o: seq<(string, JsonValue)>)
    ensures AdvisoryFindings(py, o).Raised? <==> exists i :: 0 <= i < |o| && BadAdvisory(o[i].1)
  {
    hide AdvisoryFinding, BadAdvisory;
    if o != [] {
      var n := |o| - 1;
      AdvisoriesRaise(py, o[..n]);
      AdvisoryRaises(py, o[n].1);
      assert forall i | 0 <= i < n :: o[..n][i] == o[i];
    }
  }

  ghost predicate BadItem(item: JsonValue) {
    item.JObj? && exists t :: Picks(item.members, ["title", "url", "advisory", "source"], t) && !Falsy(t) && !t.JStr?
  }

  lemma ItemTitle(item: JsonValue)
    ensures TitlesJoin(ViaItem(item)) <==> !BadItem(item)
  {
    hide Picks, FirstOf, Get, Truthy, Falsy;
    if item.JObj? {
      var m, keys := item.members, ["title", "url", "advisory", "source"];
      assert Gets(m, keys) == [Get(m, "title"), Get(m, "url"), Get(m, "advisory"), Get(m, "source")];
      var title := FirstOf(Gets(m, keys));
      assert ViaItem(item)[0].1 == title && |ViaItem(item)| == 1;
      forall t ensures Picks(m, keys, t) <==> t == title {
        FirstOfMeans(m, keys, t);
      }
      TruthyMeans(title);
    }
  }

  lemma TitlesConcat(a: seq<(JsonValue, JsonValue)>, b: seq<(JsonValue, JsonValue)>)
    ensures TitlesJoin(a + b) <==> TitlesJoin(a) && TitlesJoin(b)
  {
    hide Truthy;
    assert forall i | 0 <= i < |a| :: (a + b)[i] == a[i];
    assert forall i | 0 <= i < |b| :: (a + b)[|a| + i] == b[i];
    assert forall i | 0 <= i < |a + b| :: (a + b)[i] == if i < |a| then a[i] else b[i - |a|];
  }

  lemma {:induction false} TitlesMean(items: seq<JsonValue>)
    ensures TitlesJoin(ViaItems(items)) <==> forall k | 0 <= k < |items| :: !BadItem(items[k])
  {
    hide BadItem, ViaItem, TitlesJoin;
    if items == [] {
      NoTitles();
    } else {
      var n := |items| - 1;
      TitlesMean(items[..n]);
      ItemTitle(items[n]);
      TitlesConcat(ViaItems(items[..n]), ViaItem(items[n]));
      assert forall k | 0 <= k < n :: items[..n][k] == items[k];
    }
  }

  lemma NoTitles()
    ensures TitlesJoin([])
  {
  }

  lemma PackageRaises(o: seq<(string, JsonValue)>)
    ensures TitlesJoin(Via(o)) <==> !HasBadTitle(o)
  {
    hide Has, Picks, Falsy, Truthy, ViaItems, Get;
    var via := Get(o, "via");
    forall w ensures Has(o, "via", w) <==> via == w {
      GetMeans(o, "via", w);
    }
    if via.JArr? {
      TitlesMean(via.items);
      if k :| 0 <= k < |via.items| && BadItem(via.items[k]) {
        assert Has(o, "via", JArr(via.items));
      }
      if HasBadTitle(o) {
        var items: seq<JsonValue>, k, t :| Has(o, "via", JArr(items)) && 0 <= k < |items| && items[k].JObj?
          && Picks(items[k].members, ["title", "url", "advisory", "source"], t) && !Falsy(t) && !t.JStr?;
        assert BadItem(via.items[k]);
      }
    } else {
      assert Via(o) == [] || (via.JStr? && Via(o) == [(JStr(via.s), JStr(via.s))]);
    }
  }

  /** Reading fails exactly on a report that cannot be read. */
  lemma FindingsRaise(py: Python, report: JsonValue)
    ensures Findings(py, report).Raised? <==> Unreadable(report)
  {
    hide Has, AdvisoryFindings, VulnerabilityFindings, BadAdvisory, HasBadTitle, TitlesJoin, Via, Get;
    if report.JObj? {
      var m := report.members;
      forall w ensures (Has(m, "advisories", w) <==> Get(m, "advisories") == w) && (Has(m, "vulnerabilities", w) <==> Get(m, "vulnerabilities") == w) {
        GetMeans(m, "advisories", w);
        GetMeans(m, "vulnerabilities", w);
      }
      var advisories, vulnerabilities := Get(m, "advisories"), Get(m, "vulnerabilities");
      if advisories.JObj? {
        AdvisoriesRaise(py, advisories.members);
        assert Has(m, "advisories", JObj(advisories.members));
      }
      if vulnerabilities.JObj? {
        VulnerabilitiesRead(vulnerabilities.members);
        forall i | 0 <= i < |vulnerabilities.members| && vulnerabilities.members[i].1.JObj?
          ensures TitlesJoin(Via(vulnerabilities.members[i].1.members)) <==> !HasBadTitle(vulnerabilities.members[i].1.members)
        {
          PackageRaises(vulnerabilities.members[i].1.members);
        }
        assert Has(m, "vulnerabilities", JObj(vulnerabilities.members));
      }
    }
  }

  /** An object gives one value for a key. */
  lemma HasOne(o: seq<(string, JsonValue)>, key: string, v: JsonValue)
    requires Has(o, key, v)
    ensures forall w :: Has(o, key, w) <==> w == v
  {
    forall w ensures Has(o, key, w) <==> Get(o, key) == w {
      GetMeans(o, key, w);
    }
    assert Get(o, key) == v;
  }

  /** An advisory with a GHSA id is known by it and by nothing else, whatever its url is. */
  lemma KnownByGhsa(py: Python, a: seq<(string, JsonValue)>, id: string)
    requires Has(a, "github_advisory_id", JStr(id)) && id != ""
    ensures forall v :: KnownAs(py, a, v) <==> v == JStr(id)
  {
    HasOne(a, "github_advisory_id", JStr(id));
    hide Has, OtherwiseKnownAs;
  }
}
