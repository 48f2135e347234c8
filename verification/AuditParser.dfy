/**
 The exception list of the audit check: a line-oriented parser for a small part of YAML.

 Text is what the file yields in text mode: lines end with `\n` only.
 */
module AuditParser {
  import opened Wrappers

  // ------------------------------------------------------------------ strings

  /** The characters that Python's `strip` removes. */
  predicate IsSpace(c: char) {
    || '\U{9}' <= c <= '\U{D}' || '\U{1C}' <= c <= '\U{20}' || c == '\U{85}' || c == '\U{A0}' || c == '\U{1680}'
    || '\U{2000}' <= c <= '\U{200A}' || c == '\U{2028}' || c == '\U{2029}' || c == '\U{202F}' || c == '\U{205F}'
    || c == '\U{3000}'
  }

  lemma SpacesAre(c: char)
    ensures IsSpace(c) <==> c in {
              '\U{9}', '\U{A}', '\U{B}', '\U{C}', '\U{D}', '\U{1C}', '\U{1D}', '\U{1E}', '\U{1F}', ' ', '\U{85}', '\U{A0}', '\U{1680}',
              '\U{2000}', '\U{2001}', '\U{2002}', '\U{2003}', '\U{2004}', '\U{2005}', '\U{2006}', '\U{2007}', '\U{2008}', '\U{2009}',
              '\U{200A}', '\U{2028}', '\U{2029}', '\U{202F}', '\U{205F}', '\U{3000}'}
  {
  }

  function StripLeft(s: string): (r: string)
    ensures |r| <= |s| && (r == "" || !IsSpace(r[0]))
  {
    if s != "" && IsSpace(s[0]) then StripLeft(s[1..]) else s
  }

  function StripRight(s: string): (r: string)
    ensures |r| <= |s| && (r == "" || !IsSpace(r[|r| - 1]))
  {
    if s != "" && IsSpace(s[|s| - 1]) then StripRight(s[..|s| - 1]) else s
  }

  function Strip(s: string): string {
    StripRight(StripLeft(s))
  }

  predicate StartsWith(s: string, prefix: string) {
    prefix <= s
  }

  predicate EndsWith(s: string, c: char) {
    s != "" && s[|s| - 1] == c
  }

  /** The position of the first colon. */
  function Colon(s: string): (r: Option<nat>)
    ensures r.Some? ==> r.value < |s| && s[r.value] == ':' && ':' !in s[..r.value]
    ensures r.None? <==> ':' !in s
  {
    if s == "" then None
    else if s[0] == ':' then Some(0)
    else
      var rest := Colon(s[1..]);
      assert s == [s[0]] + s[1..];
      if rest.None? then None else (assert s[..rest.value + 1] == [s[0]] + s[1..][..rest.value]; Some(rest.value + 1))
  }

  /** Removes one pair of equal quotes; a lone quote counts as both. */
  function Unquote(v: string): string {
    if (EndsWith(v, '"') && v[0] == '"') || (EndsWith(v, '\'') && v[0] == '\'') then
      if |v| == 1 then "" else v[1..|v| - 1]
    else v
  }

  /** `split_kv`; without a colon the unpacking fails. */
  function SplitKv(line: string): Option<(string, string)> {
    var at := Colon(line);
    if at.None? then None
    else Some((Strip(line[..at.value]), Unquote(Strip(line[at.value + 1..]))))
  }

  // ------------------------------------------------------------------- parser

  type Entry = map<string, string>

  /** The entries that are complete, and the one being read. */
  datatype State = State(done: seq<Entry>, current: Option<Entry>)

  const START := State([], None)

  /** A line without content: blank, a comment, or one of the two headers. */
  predicate Skipped(line: string) {
    line == "" || line[0] == '#' || StartsWith(line, "version:") || StartsWith(line, "exceptions:")
  }

  /** One line; `None` is the exception that a `- ` line without a colon raises. */
  function StepLine(st: State, raw: string): Option<State> {
    var line := Strip(raw);
    if Skipped(line) then Some(st)
    else if StartsWith(line, "- ") then
      var done := Flush(st);
      var rest := Strip(line[2..]);
      if rest == "" then Some(State(done, Some(map[])))
      else
        var kv := SplitKv(rest);
        if kv.None? then None else Some(State(done, Some(map[kv.value.0 := kv.value.1])))
    else if st.current.Some? && ':' in line then
      var kv := SplitKv(line);
      if kv.None? then None else Some(st.(current := Some(st.current.value[kv.value.0 := kv.value.1])))
    else Some(st)
  }

  /** The entries, with the one being read unless it is empty. */
  function Flush(st: State): seq<Entry> {
    if st.current.Some? && st.current.value != map[] then st.done + [st.current.value] else st.done
  }

  function StepLines(st: State, lines: seq<string>): Option<State> {
    if lines == [] then Some(st)
    else
      var before := StepLines(st, lines[..|lines| - 1]);
      if before.None? then None else StepLine(before.value, lines[|lines| - 1])
  }

  function ParseLines(lines: seq<string>): Option<seq<Entry>> {
    var st := StepLines(START, lines);
    if st.None? then None else Some(Flush(st.value))
  }

  /** The lines of a text. */
  function Lines(text: string): (r: seq<string>)
    ensures |r| > 0
  {
    if text == "" then [""]
    else
      var rest := Lines(text[1..]);
      if text[0] == '\n' then [""] + rest else [[text[0]] + rest[0]] + rest[1..]
  }

  function Parse(text: string): Option<seq<Entry>> {
    ParseLines(Lines(text))
  }

  /** `parse_exceptions` on the lines of the file. */
  method ParseExceptions(lines: seq<string>) returns (result: Option<seq<Entry>>)
    ensures result == ParseLines(lines)
  {
    var exceptions: seq<Entry> := [];
    var current: Option<Entry> := None;
    for i := 0 to |lines|
      invariant StepLines(START, lines[..i]) == Some(State(exceptions, current))
    {
      ghost var st := State(exceptions, current);
      assert lines[..i + 1][..i] == lines[..i];
      if StepLine(st, lines[i]).None? {
        StepLinesStops(START, lines, i + 1);
      }
      var line := Strip(lines[i]);
      if Skipped(line) {
        continue;
      }
      if StartsWith(line, "- ") {
        if current.Some? && current.value != map[] {
          exceptions := exceptions + [current.value];
        }
        current := Some(map[]);
        line := Strip(line[2..]);
        if line != "" {
          var kv := SplitKv(line);
          if kv.None? {
            return None;
          }
          current := Some(current.value[kv.value.0 := kv.value.1]);
        }
        continue;
      }
      if current.Some? && ':' in line {
        var kv := SplitKv(line);
        if kv.None? {
          return None;
        }
        current := Some(current.value[kv.value.0 := kv.value.1]);
      }
    }
    assert lines[..|lines|] == lines;
    if current.Some? && current.value != map[] {
      exceptions := exceptions + [current.value];
    }
    return Some(exceptions);
  }

  lemma {:induction false} StepLinesStops(st: State, lines: seq<string>, i: nat)
    requires i <= |lines| && StepLines(st, lines[..i]).None?
    ensures StepLines(st, lines).None?
    decreases |lines|
  {
    if i == |lines| {
      assert lines[..i] == lines;
    } else {
      assert lines[..|lines| - 1][..i] == lines[..i];
      StepLinesStops(st, lines[..|lines| - 1], i);
    }
  }

  // ----------------------------------------------------- failure and concatenation

  /** A list item without a colon. */
  predicate BadItem(raw: string) {
    var line := Strip(raw);
    StartsWith(line, "- ") && ':' !in Strip(line[2..]) && Strip(line[2..]) != ""
  }

  predicate AnyBadItem(lines: seq<string>) {
    exists i :: 0 <= i < |lines| && BadItem(lines[i])
  }

  lemma AnyBadStep(lines: seq<string>)
    requires lines != []
    ensures AnyBadItem(lines) <==> AnyBadItem(lines[..|lines| - 1]) || BadItem(lines[|lines| - 1])
  {
    hide BadItem;
    var n := |lines| - 1;
    if i :| 0 <= i < n && BadItem(lines[..n][i]) {
      assert BadItem(lines[i]);
    }
    if i :| 0 <= i <= n && BadItem(lines[i]) {
      assert i < n ==> lines[..n][i] == lines[i];
    }
  }

  /** Parsing fails exactly if some line is a list item without a colon, whatever comes before it. */
  lemma {:induction false} FailsOnBadItem(st: State, lines: seq<string>)
    ensures StepLines(st, lines).None? <==> AnyBadItem(lines)
  {
    hide AnyBadItem, BadItem, StepLine;
    if lines == [] {
      NoBadItem();
    } else {
      var n := |lines| - 1;
      FailsOnBadItem(st, lines[..n]);
      AnyBadStep(lines);
      if StepLines(st, lines[..n]).Some? {
        StepFails(StepLines(st, lines[..n]).value, lines[n]);
      }
    }
  }

  lemma NoBadItem()
    ensures !AnyBadItem([])
  {
  }

  lemma StepFails(st: State, raw: string)
    ensures StepLine(st, raw).None? <==> BadItem(raw)
  {
  }

  lemma {:induction false} StepConcat(st: State, a: seq<string>, b: seq<string>)
    ensures StepLines(st, a + b)
         == var mid := StepLines(st, a); if mid.None? then None else StepLines(mid.value, b)
  {
    if b == [] {
      assert a + b == a;
    } else {
      assert (a + b)[..|a + b| - 1] == a + b[..|b| - 1];
      StepConcat(st, a, b[..|b| - 1]);
    }
  }

  /** Entries that are complete do not matter for what follows. */
  lemma {:induction false} DoneAside(done: seq<Entry>, st: State, lines: seq<string>)
    ensures StepLines(st.(done := done + st.done), lines)
         == var r := StepLines(st, lines); if r.None? then None else Some(r.value.(done := done + r.value.done))
  {
    hide Strip, SplitKv, Skipped, StartsWith;
    if lines != [] {
      var n := |lines| - 1;
      DoneAside(done, st, lines[..n]);
      var r := StepLines(st, lines[..n]);
      if r.Some? && r.value.current.Some? {
        assert done + (r.value.done + [r.value.current.value]) == (done + r.value.done) + [r.value.current.value];
      }
    }
  }

  /** The first line with content starts a new entry. */
  predicate StartsEntry(lines: seq<string>) {
    lines != [] && StartsWith(Strip(lines[0]), "- ")
  }

  lemma FlushAside(done: seq<Entry>, st: State)
    ensures Flush(st.(done := done + st.done)) == done + Flush(st)
  {
  }

  /** A list item starts the same entry in any state; it only completes what was being read. */
  lemma FreshItem(st: State, raw: string)
    requires StartsWith(Strip(raw), "- ")
    ensures StepLine(st, raw)
         == var r := StepLine(START, raw); if r.None? then None else Some(r.value.(done := Flush(st) + r.value.done))
  {
    var line := Strip(raw);
    assert line[0] == '-' && "version:"[0] == 'v' && "exceptions:"[0] == 'e';
    assert Flush(st) + [] == Flush(st);
  }

  /** Parsing distributes over concatenation when the second part starts a new entry. */
  lemma ParseConcat(a: seq<string>, b: seq<string>)
    requires StartsEntry(b)
    ensures ParseLines(a + b)
         == if ParseLines(a).None? || ParseLines(b).None? then None else Some(ParseLines(a).value + ParseLines(b).value)
  {
    hide StepLine, Flush;
    StepConcat(START, a, b);
    var mid := StepLines(START, a);
    if mid.Some? {
      assert b == [b[0]] + b[1..];
      StepConcat(mid.value, [b[0]], b[1..]);
      StepConcat(START, [b[0]], b[1..]);
      SingleLine(mid.value, b[0]);
      SingleLine(START, b[0]);
      FreshItem(mid.value, b[0]);
      var first := StepLine(START, b[0]);
      if first.Some? {
        DoneAside(Flush(mid.value), first.value, b[1..]);
        var st := StepLines(first.value, b[1..]);
        if st.Some? {
          FlushAside(Flush(mid.value), st.value);
        }
      }
    }
  }

  lemma SingleLine(st: State, line: string)
    ensures StepLines(st, [line]) == StepLine(st, line)
  {
    assert [line][..0] == [];
  }

  // ------------------------------------------------------------------ strip

  predicate Trimmed(s: string) {
    s == "" || (!IsSpace(s[0]) && !IsSpace(s[|s| - 1]))
  }

  predicate AllSpace(s: string) {
    forall i | 0 <= i < |s| :: IsSpace(s[i])
  }

  lemma StripTrimmed(s: string)
    requires Trimmed(s)
    ensures Strip(s) == s
  {
  }

  lemma {:induction false} StripLeftOf(a: string, s: string)
    requires AllSpace(a) && (s == "" || !IsSpace(s[0]))
    ensures StripLeft(a + s) == s
  {
    if a == "" {
      assert a + s == s;
    } else {
      assert (a + s)[1..] == a[1..] + s;
      StripLeftOf(a[1..], s);
    }
  }

  lemma {:induction false} StripRightOf(s: string, b: string)
    requires AllSpace(b) && (s == "" || !IsSpace(s[|s| - 1]))
    ensures StripRight(s + b) == s
  {
    if b == "" {
      assert s + b == s;
    } else {
      assert (s + b)[..|s + b| - 1] == s + b[..|b| - 1];
      StripRightOf(s, b[..|b| - 1]);
    }
  }

  /** `strip` removes the space on both sides of a trimmed text, and so nothing else. */
  lemma StripSurrounded(a: string, s: string, b: string)
    requires AllSpace(a) && Trimmed(s) && AllSpace(b)
    ensures Strip(a + s + b) == s
  {
    if s == "" {
      StripLeftOf(a + b, "");
      assert a + s + b == a + b + "";
    } else {
      StripLeftOf(a, s + b);
      assert a + s + b == a + (s + b);
      StripRightOf(s, b);
    }
  }

  lemma {:induction false} StripLeftSplits(s: string) returns (a: string)
    ensures AllSpace(a) && s == a + StripLeft(s)
  {
    a := "";
    if s != "" && IsSpace(s[0]) {
      a := StripLeftSplits(s[1..]);
      a := [s[0]] + a;
    }
  }

  lemma {:induction false} StripRightSplits(s: string) returns (b: string)
    ensures AllSpace(b) && s == StripRight(s) + b
  {
    b := "";
    if s != "" && IsSpace(s[|s| - 1]) {
      b := StripRightSplits(s[..|s| - 1]);
      b := b + [s[|s| - 1]];
    }
  }

  /** Every text is a trimmed one with space around it. */
  lemma StripSplits(s: string) returns (a: string, b: string)
    ensures AllSpace(a) && AllSpace(b) && Trimmed(Strip(s)) && s == a + Strip(s) + b
  {
    a := StripLeftSplits(s);
    b := StripRightSplits(StripLeft(s));
    assert Strip(s) != "" ==> Strip(s)[0] == StripLeft(s)[0];
    assert s == a + (Strip(s) + b);
  }

  // --------------------------------------------------------------- round trip

  type Pairs = seq<(string, string)>

  datatype Style = Plain | Single | Double

  /** A field as it is written: key, value, quotes, and the blanks before, around the colon, and behind. */
  datatype Written = Written(key: string, value: string, style: Style, indent: string, pad: string, spread: string, gap: string, tail: string)

  /** A line of an exception list: one without content, the first field of an entry, or a later one. */
  datatype Line = Empty(text: string) | First(field: Written) | Later(field: Written)

  function Quoted(style: Style, value: string): string {
    match style
    case Plain => value
    case Single => "'" + value + "'"
    case Double => "\"" + value + "\""
  }

  function FieldText(w: Written): string {
    w.key + w.spread + ":" + (w.gap + Quoted(w.style, w.value))
  }

  function LineText(line: Line): string {
    match line
    case Empty(text) => text
    case First(w) => w.indent + ("- " + w.pad + FieldText(w)) + w.tail
    case Later(w) => w.indent + FieldText(w) + w.tail
  }

  function Texts(lines: seq<Line>): (r: seq<string>)
    ensures |r| == |lines| && forall i | 0 <= i < |lines| :: r[i] == LineText(lines[i])
  {
    seq(|lines|, i requires 0 <= i < |lines| => LineText(lines[i]))
  }

  /** A blank line, a comment, or a header, indented by some blanks. */
  ghost predicate WithoutContent(text: string) {
    exists n: nat :: n <= |text| && AllSpace(text[..n])
      && (n == |text| || "#" <= text[n..] || "version:" <= text[n..] || "exceptions:" <= text[n..])
  }

  /** The value can be written like this: one without quotes is trimmed and does not look quoted. */
  predicate ValueFits(w: Written) {
    w.style == Plain ==>
      && Trimmed(w.value) && (w.value == "" ==> w.gap == "")
      && (w.value != "" ==> !(w.value[0] == w.value[|w.value| - 1] == '"') && !(w.value[0] == w.value[|w.value| - 1] == '\''))
  }

  /** A field that can stand in an entry. */
  predicate FieldFits(w: Written) {
    && AllSpace(w.indent) && AllSpace(w.pad) && AllSpace(w.spread) && AllSpace(w.gap) && AllSpace(w.tail)
    && Trimmed(w.key) && ':' !in w.key && (w.key == "" ==> w.spread == "") && ValueFits(w)
  }

  /** A field that can stand on a line of its own: it is no comment, no header and no list item. */
  predicate LaterFits(w: Written) {
    && FieldFits(w) && w.key != "version" && w.key != "exceptions" && !("#" <= w.key) && !("- " <= w.key)
    && (w.key == "-" ==> w.spread == "")
  }

  ghost predicate LineFits(line: Line) {
    match line
    case Empty(text) => WithoutContent(text)
    case First(w) => FieldFits(w)
    case Later(w) => LaterFits(w)
  }

  /** The pairs of every entry that the lines give; lines before the first entry give none. */
  function Given(lines: seq<Line>): seq<Pairs> {
    if lines == [] then []
    else
      var before := Given(lines[..|lines| - 1]);
      match lines[|lines| - 1]
      case Empty(_) => before
      case First(w) => before + [[(w.key, w.value)]]
      case Later(w) => if before == [] then [] else before[..|before| - 1] + [before[|before| - 1] + [(w.key, w.value)]]
  }

  /** The entry that the pairs stand for: a later value for a key replaces an earlier one. */
  function EntryOf(pairs: Pairs): Entry {
    if pairs == [] then map[]
    else EntryOf(pairs[..|pairs| - 1])[pairs[|pairs| - 1].0 := pairs[|pairs| - 1].1]
  }

  /** Its keys are the given ones, and the last value for a key is kept. */
  lemma {:induction false} EntryOfMeans(pairs: Pairs, k: string)
    ensures k in EntryOf(pairs) <==> exists i :: 0 <= i < |pairs| && pairs[i].0 == k
    ensures forall i | 0 <= i < |pairs| && pairs[i].0 == k && (forall j | i < j < |pairs| :: pairs[j].0 != k) :: EntryOf(pairs)[k] == pairs[i].1
  {
    if pairs != [] {
      var n := |pairs| - 1;
      var init := pairs[..n];
      EntryOfMeans(init, k);
      assert forall i | 0 <= i < n :: init[i] == pairs[i];
      assert pairs[n].0 == k || (k in EntryOf(pairs) <==> k in EntryOf(init));
    }
  }

  function EntriesOf(entries: seq<Pairs>): (r: seq<Entry>)
    ensures |r| == |entries| && forall i | 0 <= i < |entries| :: r[i] == EntryOf(entries[i])
  {
    seq(|entries|, i requires 0 <= i < |entries| => EntryOf(entries[i]))
  }

  lemma {:induction false} ColonAfter(k: string, rest: string)
    requires ':' !in k
    ensures Colon(k + ":" + rest) == Some(|k|)
  {
    var s := k + ":" + rest;
    if k == "" {
      assert s[0] == ':';
    } else {
      ColonAfter(k[1..], rest);
      assert s[1..] == k[1..] + ":" + rest;
      assert s[0] == k[0];
    }
  }

  lemma UnquoteQuoted(w: Written)
    requires ValueFits(w)
    ensures Unquote(Quoted(w.style, w.value)) == w.value && Trimmed(Quoted(w.style, w.value))
  {
    var quoted := Quoted(w.style, w.value);
    if w.style != Plain {
      assert quoted[1..|quoted| - 1] == w.value;
      assert quoted[|quoted| - 1] == quoted[0];
    }
  }

  lemma SpaceHasNoColon(s: string)
    requires AllSpace(s)
    ensures ':' !in s
  {
    assert !IsSpace(':');
  }

  /** Splitting a written field gives the key and the value back, whatever the quotes and the value contain. */
  lemma SplitField(w: Written)
    requires FieldFits(w)
    ensures SplitKv(FieldText(w)) == Some((w.key, w.value))
  {
    hide Strip, Unquote, Colon, Trimmed, Quoted, ValueFits;
    var name, quoted, line := w.key + w.spread, Quoted(w.style, w.value), FieldText(w);
    SpaceHasNoColon(w.spread);
    assert line == name + ":" + (w.gap + quoted);
    ColonAfter(name, w.gap + quoted);
    assert line[..|name|] == name && line[|name| + 1..] == w.gap + quoted;
    UnquoteQuoted(w);
    StripSurrounded("", w.key, w.spread);
    assert "" + w.key + w.spread == name;
    StripSurrounded(w.gap, quoted, "");
    assert w.gap + quoted + "" == w.gap + quoted;
  }

  /** A written field is trimmed, has a colon, and starts with its key. */
  lemma FieldShape(w: Written)
    requires FieldFits(w)
    ensures Trimmed(FieldText(w)) && ':' in FieldText(w) && |FieldText(w)| > |w.key| + |w.spread|
    ensures FieldText(w)[..|w.key| + |w.spread|] == w.key + w.spread && FieldText(w)[|w.key| + |w.spread|] == ':'
  {
    hide Unquote;
    UnquoteQuoted(w);
    var line, quoted := FieldText(w), Quoted(w.style, w.value);
    var n := |w.key| + |w.spread|;
    assert line[n] == ':' && line[..n] == w.key + w.spread;
    assert line[0] == if w.key == "" then ':' else w.key[0];
    assert quoted == "" ==> w.gap == "" && line[|line| - 1] == ':';
    assert quoted != "" ==> line[|line| - 1] == quoted[|quoted| - 1];
    assert !IsSpace(':');
  }

  /** Stripping the end keeps a text in front that ends with something else than space. */
  lemma {:induction false} PrefixKept(s: string, front: string)
    requires front <= s && front != "" && !IsSpace(front[|front| - 1])
    ensures front <= StripRight(s)
  {
    if IsSpace(s[|s| - 1]) {
      assert |front| == |s| ==> front == s;
      PrefixKept(s[..|s| - 1], front);
    }
  }

  lemma FrontSkips(a: string, rest: string, front: string)
    requires AllSpace(a) && front <= rest && front in {"#", "version:", "exceptions:"}
    ensures Skipped(Strip(a + rest))
  {
    assert front[|front| - 1] in {'#', ':'} && !IsSpace(front[|front| - 1]);
    assert front[0] in {'#', 'v', 'e'} && rest[0] == front[0];
    StripLeftOf(a, rest);
    PrefixKept(rest, front);
  }

  /** A line without content changes nothing. */
  lemma EmptyLine(st: State, text: string)
    requires WithoutContent(text)
    ensures StepLine(st, text) == Some(st)
  {
    var n: nat :| n <= |text| && AllSpace(text[..n])
      && (n == |text| || "#" <= text[n..] || "version:" <= text[n..] || "exceptions:" <= text[n..]);
    assert text == text[..n] + text[n..];
    hide Strip, Skipped, AllSpace;
    if n == |text| {
      BlankSkips(text);
    } else if "#" <= text[n..] {
      FrontSkips(text[..n], text[n..], "#");
    } else if "version:" <= text[n..] {
      FrontSkips(text[..n], text[n..], "version:");
    } else {
      FrontSkips(text[..n], text[n..], "exceptions:");
    }
  }

  lemma BlankSkips(text: string)
    requires AllSpace(text[..|text|])
    ensures Skipped(Strip(text))
  {
    assert text[..|text|] == text;
    StripSurrounded(text, "", "");
    assert text + "" + "" == text;
  }

  /** A list item is stripped to the dash, its blanks and the field. */
  lemma ItemShape(w: Written)
    requires FieldFits(w)
    ensures var item := "- " + w.pad + FieldText(w);
            Strip(LineText(First(w))) == item && StartsWith(item, "- ") && !Skipped(item) && Strip(item[2..]) == FieldText(w) && FieldText(w) != ""
  {
    hide Strip, FieldText;
    FieldShape(w);
    var field := FieldText(w);
    var item := "- " + w.pad + field;
    assert item[|item| - 1] == field[|field| - 1] && item[0] == '-' && !IsSpace('-');
    StripSurrounded(w.indent, item, w.tail);
    assert item[2..] == w.pad + field + "";
    StripSurrounded(w.pad, field, "");
    assert "version:"[0] == 'v' && "exceptions:"[0] == 'e';
  }

  /** The first line of an entry closes the entry before it. */
  lemma FirstLine(st: State, w: Written)
    requires FieldFits(w)
    ensures StepLine(st, LineText(First(w))) == Some(State(Flush(st), Some(map[w.key := w.value])))
  {
    hide Strip, SplitKv, FieldText, LineText, Flush, Skipped, StartsWith, FieldFits;
    ItemShape(w);
    SplitField(w);
  }

  /** A later key makes a line with content that is no list item. */
  lemma LaterHasContent(w: Written)
    requires LaterFits(w)
    ensures !Skipped(FieldText(w)) && !StartsWith(FieldText(w), "- ")
  {
    hide FieldText;
    FieldShape(w);
    var line, name := FieldText(w), w.key + w.spread;
    assert line[..|name|] == name && line[|name|] == ':';
    SpaceHasNoColon(w.spread);
    assert ':' !in name;
    NotHeader(line, name, "version");
    NotHeader(line, name, "exceptions");
    assert name == "version" || name == "exceptions" ==> w.spread == "" by {
      assert w.spread != "" ==> IsSpace(name[|name| - 1]);
    }
    assert w.key != "" ==> line[0] == w.key[0];
    assert w.key == "" ==> line[0] == ':';
    assert |name| >= 2 ==> line[..2] == name[..2];
    assert |name| == 1 ==> line[1] == ':';
  }

  /** Only the name of a header makes a header. */
  lemma NotHeader(line: string, name: string, header: string)
    requires |name| < |line| && line[..|name|] == name && line[|name|] == ':' && ':' !in name && ':' !in header
    ensures StartsWith(line, header + ":") ==> name == header
  {
    if StartsWith(line, header + ":") {
      assert line[|header|] == (header + ":")[|header|];
      assert |name| <= |header| ==> line[|name|] == (header + ":")[|name|];
      assert |name| == |header|;
      assert line[..|name|] == (header + ":")[..|name|] == header;
    }
  }

  /** A later line adds a field to the entry, if there is one. */
  lemma LaterLine(st: State, w: Written)
    requires LaterFits(w)
    ensures StepLine(st, LineText(Later(w)))
         == Some(if st.current.Some? then st.(current := Some(st.current.value[w.key := w.value])) else st)
  {
    hide Strip, SplitKv, Skipped, FieldText;
    FieldShape(w);
    SplitField(w);
    StripSurrounded(w.indent, FieldText(w), w.tail);
    LaterHasContent(w);
  }

  /** The state stands for the pairs given so far: all but the last entry are done. */
  ghost predicate Stands(st: State, given: seq<Pairs>) {
    if given == [] then st == START
    else st == State(EntriesOf(given[..|given| - 1]), Some(EntryOf(given[|given| - 1]))) && EntryOf(given[|given| - 1]) != map[]
  }

  lemma StandsFlushed(st: State, given: seq<Pairs>)
    requires Stands(st, given)
    ensures Flush(st) == EntriesOf(given)
  {
    hide EntryOf;
    if given != [] {
      var n := |given| - 1;
      assert EntriesOf(given) == EntriesOf(given[..n]) + [EntryOf(given[n])];
    }
  }

  lemma StandsFirst(st: State, given: seq<Pairs>, k: string, v: string)
    requires Stands(st, given)
    ensures Stands(State(Flush(st), Some(map[k := v])), given + [[(k, v)]])
  {
    StandsFlushed(st, given);
    assert (given + [[(k, v)]])[..|given|] == given;
    assert [(k, v)][..0] == [] && EntryOf([(k, v)]) == map[k := v];
    assert k in map[k := v];
  }

  lemma StandsLater(st: State, given: seq<Pairs>, k: string, v: string)
    requires Stands(st, given) && given != []
    ensures var n := |given| - 1;
            Stands(st.(current := Some(st.current.value[k := v])), given[..n] + [given[n] + [(k, v)]])
  {
    var n := |given| - 1;
    var more := given[n] + [(k, v)];
    assert more[..|more| - 1] == given[n];
    assert (given[..n] + [more])[..n] == given[..n];
    assert k in EntryOf(more);
  }

  lemma {:induction false} LinesStand(lines: seq<Line>)
    requires forall i | 0 <= i < |lines| :: LineFits(lines[i])
    ensures StepLines(START, Texts(lines)).Some? && Stands(StepLines(START, Texts(lines)).value, Given(lines))
  {
    hide StepLine, Stands, LineText, LaterFits, FieldFits, WithoutContent;
    if lines == [] {
      NothingStands();
    } else {
      var n := |lines| - 1;
      LinesStand(lines[..n]);
      assert Texts(lines)[..n] == Texts(lines[..n]);
      var st, given := StepLines(START, Texts(lines[..n])).value, Given(lines[..n]);
      assert LineFits(lines[n]);
      match lines[n] {
        case Empty(text) =>
          TextOfEmpty(text);
          EmptyLine(st, text);
        case First(w) =>
          FirstLine(st, w);
          StandsFirst(st, given, w.key, w.value);
        case Later(w) =>
          LaterLine(st, w);
          StandsCurrent(st, given);
          if given != [] {
            StandsLater(st, given, w.key, w.value);
          }
      }
    }
  }

  lemma TextOfEmpty(text: string)
    ensures LineText(Empty(text)) == text
  {
  }

  lemma NothingStands()
    ensures Stands(START, [])
  {
  }

  lemma StandsCurrent(st: State, given: seq<Pairs>)
    requires Stands(st, given)
    ensures st.current.Some? <==> given != []
  {
  }

  /**
   Parsing any list of lines, plain, single-quoted and double-quoted values mixed, with blank lines, comments and
   headers in between, gives the entries of the pairs that are written.
   */
  lemma RoundTrip(lines: seq<Line>)
    requires forall i | 0 <= i < |lines| :: LineFits(lines[i])
    ensures ParseLines(Texts(lines)) == Some(EntriesOf(Given(lines)))
  {
    hide StepLines, Stands, Flush, LineFits;
    LinesStand(lines);
    StandsFlushed(StepLines(START, Texts(lines)).value, Given(lines));
  }

  // -------------------------------------------------------------- whole texts

  function Unlines(lines: seq<string>): string {
    if lines == [] then "" else lines[0] + "\n" + Unlines(lines[1..])
  }

  lemma {:induction false} FirstLineOf(line: string, rest: string)
    requires '\n' !in line
    ensures Lines(line + "\n" + rest) == [line] + Lines(rest)
  {
    var text := line + "\n" + rest;
    if line == "" {
      assert text[0] == '\n' && text[1..] == rest;
    } else {
      FirstLineOf(line[1..], rest);
      assert text[1..] == line[1..] + "\n" + rest;
      assert text[0] == line[0];
      assert [line[0]] + line[1..] == line;
    }
  }

  lemma {:induction false} LinesOfUnlines(lines: seq<string>)
    requires forall i | 0 <= i < |lines| :: '\n' !in lines[i]
    ensures Lines(Unlines(lines)) == lines + [""]
  {
    if lines != [] {
      LinesOfUnlines(lines[1..]);
      FirstLineOf(lines[0], Unlines(lines[1..]));
      assert lines == [lines[0]] + lines[1..];
    }
  }

  /** The same for the text of a file, whose lines have no line break. */
  lemma TextRoundTrip(lines: seq<Line>)
    requires forall i | 0 <= i < |lines| :: LineFits(lines[i]) && '\n' !in LineText(lines[i])
    ensures Parse(Unlines(Texts(lines))) == Some(EntriesOf(Given(lines)))
  {
    hide LineFits, LineText;
    LinesOfUnlines(Texts(lines));
    RoundTrip(lines);
    StepConcat(START, Texts(lines), [""]);
    SingleLine(StepLines(START, Texts(lines)).value, "");
  }
}
