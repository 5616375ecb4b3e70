// internal/structured/toml.go: splitting config.toml into items and writing
// synced items back. The parser's expressions and their places are given.
module Toml {
  import opened Options
  import opened Structured

  // A key line of a table, by its range inside the item's text.
  datatype Field = Field(key: string, start: int, end: int)

  // A top-level key, a table or a run of array tables, with the comments
  // above it.
  datatype TomlItem = TomlItem(path: seq<string>, name: string, table: bool, text: string, fields: seq<Field>)

  // Belongs to this machine only.
  predicate ExcludedPath(path: seq<string>) {
    && path != []
    && (|| path[0] == "projects" || path[0] == "desktop"
        || (path[0] == "hooks" && |path| > 1 && path[1] == "state")
        || (path[0] == "mcp_servers" && |path| > 2 && path[2] == "tools"))
  }

  predicate ExcludedField(path: seq<string>, key: string) {
    |path| == 2 && path[0] == "marketplaces" && (key == "last_updated" || key == "last_revision")
  }

  // -------------------------------------------------------------- splitting

  // What the parser reports: each expression with the start of its line, and
  // of a key also the end of its last line.
  datatype Expr =
    | Comment(at: nat)
    | KeyValue(at: nat, end: nat, path: seq<string>)
    | Header(at: nat, path: seq<string>, repeated: bool)

  datatype Head = Head(path: seq<string>, name: string, table: bool)

  datatype Span = Span(item: nat, start: nat, end: nat, key: string)

  // Where the splitter stands: comments wait for the next key or table, keys
  // belong to the current table.
  datatype Scan = Scan(heads: seq<Head>, starts: seq<nat>, spans: seq<Span>, pending: Option<nat>, current: Option<nat>)

  type Naming = seq<string> -> string

  function StartAt(s: Scan, at: nat): nat {
    if s.pending.Some? then s.pending.value else at
  }

  function HeaderName(e: Expr, nameOf: Naming): string
    requires e.Header?
  {
    if e.repeated then nameOf(e.path) + "[]" else nameOf(e.path)
  }

  // Consecutive blocks of one array form one item.
  predicate SameRun(s: Scan, e: Expr, nameOf: Naming)
    requires e.Header?
  {
    && e.repeated && s.heads != [] && s.heads[|s.heads| - 1].name == HeaderName(e, nameOf)
    && s.current == Some(|s.heads| - 1)
  }

  function Step(s: Scan, e: Expr, nameOf: Naming): Scan
    requires e.KeyValue? ==> e.path != []
  {
    match e
    case Comment(at) => if s.pending.Some? then s else s.(pending := Some(at))
    case KeyValue(at, end, path) =>
      if s.current.Some? then s.(spans := s.spans + [Span(s.current.value, at, end, path[0])], pending := None)
      else
        s.(heads := s.heads + [Head(path, nameOf(path), false)], starts := s.starts + [StartAt(s, at)], pending := None)
    case Header(at, path, _) =>
      if SameRun(s, e, nameOf) then s.(pending := None)
      else
        s.(heads := s.heads + [Head(path, HeaderName(e, nameOf), true)], starts := s.starts + [StartAt(s, at)],
           pending := None, current := Some(|s.heads|))
  }

  ghost predicate HavePaths(exprs: seq<Expr>) {
    forall i :: 0 <= i < |exprs| && exprs[i].KeyValue? ==> exprs[i].path != []
  }

  function Scanned(exprs: seq<Expr>, nameOf: Naming): Scan
    requires HavePaths(exprs)
  {
    if exprs == [] then Scan([], [], [], None, None)
    else Step(Scanned(exprs[..|exprs| - 1], nameOf), exprs[|exprs| - 1], nameOf)
  }

  // The parser's spans: every expression starts a line of its own, after
  // everything that belongs to the one before it.
  predicate LineStart(data: string, at: nat) {
    at < |data| && (at == 0 || data[at - 1] == '\n')
  }

  function EndOf(e: Expr): nat {
    if e.KeyValue? then e.end else e.at + 1
  }

  ghost predicate Placed(data: string, exprs: seq<Expr>) {
    && (forall i :: 0 <= i < |exprs| ==> LineStart(data, exprs[i].at) && exprs[i].at < EndOf(exprs[i]) <= |data|)
    && (forall i, j :: 0 <= i < j < |exprs| ==> EndOf(exprs[i]) <= exprs[j].at)
  }

  function ItemStart(starts: seq<nat>, i: nat): nat
    requires i < |starts|
  {
    if i == 0 then 0 else starts[i]
  }

  function ItemEnd(data: string, starts: seq<nat>, i: nat): nat
    requires i < |starts|
  {
    if i + 1 < |starts| then starts[i + 1] else |data|
  }

  function FieldsOf(spans: seq<Span>, i: nat, start: nat): seq<Field> {
    if spans == [] then []
    else
      var init := FieldsOf(spans[..|spans| - 1], i, start);
      var f := spans[|spans| - 1];
      if f.item == i then init + [Field(f.key, f.start - start, f.end - start)] else init
  }

  // What the splitter keeps, up to the place `bound`.
  ghost predicate Laid(data: string, s: Scan, bound: nat) {
    && |s.heads| == |s.starts|
    && (forall i :: 0 <= i < |s.starts| ==> LineStart(data, s.starts[i]) && s.starts[i] < bound)
    && (forall i, j :: 0 <= i < j < |s.starts| ==> s.starts[i] < s.starts[j])
    && (s.pending.Some? ==> LineStart(data, s.pending.value) && s.pending.value < bound
                            && forall i :: 0 <= i < |s.starts| ==> s.starts[i] < s.pending.value)
    && (s.current.Some? ==> s.current.value == |s.heads| - 1 && s.heads[s.current.value].table)
    && (s.current.None? ==> forall i :: 0 <= i < |s.heads| ==> !s.heads[i].table)
    && (forall i, j :: 0 <= i < j < |s.heads| ==> s.heads[i].table ==> s.heads[j].table)
  }

  // And the key lines: each inside its item, one after the other.
  ghost predicate LaidSpans(s: Scan, bound: nat) {
    && (forall k :: 0 <= k < |s.spans| ==>
          && s.spans[k].item < |s.starts| && s.starts[s.spans[k].item] <= s.spans[k].start < s.spans[k].end <= bound
          && (s.spans[k].item + 1 < |s.starts| ==> s.spans[k].end <= s.starts[s.spans[k].item + 1])
          && (s.pending.Some? ==> s.spans[k].end <= s.pending.value))
    && (forall k, l :: 0 <= k < l < |s.spans| ==> s.spans[k].end <= s.spans[l].start)
  }

  lemma StepLays(data: string, s: Scan, e: Expr, bound: nat, nameOf: Naming)
    requires Laid(data, s, bound) && LineStart(data, e.at) && bound <= e.at < EndOf(e)
    requires e.KeyValue? ==> e.path != []
    ensures Laid(data, Step(s, e, nameOf), EndOf(e))
  {
    hide LineStart;
  }

  lemma {:induction false} StepLaysSpans(data: string, s: Scan, e: Expr, bound: nat, nameOf: Naming)
    requires Laid(data, s, bound) && LaidSpans(s, bound) && bound <= e.at < EndOf(e)
    requires e.KeyValue? ==> e.path != []
    ensures LaidSpans(Step(s, e, nameOf), EndOf(e))
  {
    hide LaidSpans, Laid;
    match e
    case Comment(_) => SpansWait(data, s, e, bound);
    case KeyValue(_, _, _) =>
      if s.current.Some? { SpansGrow(data, s, e, bound); } else { SpansEnd(data, s, e, bound, Step(s, e, nameOf)); }
    case Header(_, _, _) =>
      if SameRun(s, e, nameOf) { SpansStay(s, e, bound); } else { SpansEnd(data, s, e, bound, Step(s, e, nameOf)); }
  }

  lemma SpansWait(data: string, s: Scan, e: Expr, bound: nat)
    requires Laid(data, s, bound) && LaidSpans(s, bound) && bound <= e.at < EndOf(e)
    ensures LaidSpans(s, EndOf(e)) && LaidSpans(s.(pending := Some(StartAt(s, e.at))), EndOf(e))
  {
    hide LineStart;
  }

  lemma SpansStay(s: Scan, e: Expr, bound: nat)
    requires LaidSpans(s, bound) && bound <= EndOf(e)
    ensures LaidSpans(s.(pending := None), EndOf(e))
  {
  }

  // A key line of the current table.
  lemma SpansGrow(data: string, s: Scan, e: Expr, bound: nat)
    requires Laid(data, s, bound) && LaidSpans(s, bound) && bound <= e.at < EndOf(e)
    requires e.KeyValue? && e.path != [] && s.current.Some?
    ensures LaidSpans(s.(spans := s.spans + [Span(s.current.value, e.at, e.end, e.path[0])], pending := None), EndOf(e))
  {
    hide LineStart;
  }

  // A new item starts where the key lines so far have ended.
  lemma SpansEnd(data: string, s: Scan, e: Expr, bound: nat, t: Scan)
    requires Laid(data, s, bound) && LaidSpans(s, bound) && bound <= e.at < EndOf(e)
    requires t.spans == s.spans && t.pending.None? && t.starts == s.starts + [StartAt(s, e.at)]
    ensures LaidSpans(t, EndOf(e))
  {
    hide LineStart;
  }

  function Bound(exprs: seq<Expr>): nat {
    if exprs == [] then 0 else EndOf(exprs[|exprs| - 1])
  }

  lemma {:induction false} ScanLays(data: string, exprs: seq<Expr>, nameOf: Naming)
    requires HavePaths(exprs) && Placed(data, exprs)
    ensures Laid(data, Scanned(exprs, nameOf), Bound(exprs)) && LaidSpans(Scanned(exprs, nameOf), Bound(exprs))
  {
    hide Laid, LaidSpans, Step, LineStart;
    if exprs == [] {
      NothingLaid(data);
    } else {
      var n := |exprs| - 1;
      ScanLays(data, exprs[..n], nameOf);
      var s := Scanned(exprs[..n], nameOf);
      StepLays(data, s, exprs[n], Bound(exprs[..n]), nameOf);
      StepLaysSpans(data, s, exprs[n], Bound(exprs[..n]), nameOf);
    }
  }

  lemma NothingLaid(data: string)
    ensures var s := Scan([], [], [], None, None); Laid(data, s, 0) && LaidSpans(s, 0)
  {
  }

  datatype Failure = DefinedTwice(name: string) | BadValue(name: string)

  function ItemAt(data: string, s: Scan, i: nat): TomlItem
    requires i < |s.heads| == |s.starts| && ItemStart(s.starts, i) <= ItemEnd(data, s.starts, i) <= |data|
  {
    var h := s.heads[i];
    TomlItem(h.path, h.name, h.table, data[ItemStart(s.starts, i)..ItemEnd(data, s.starts, i)],
             FieldsOf(s.spans, i, ItemStart(s.starts, i)))
  }

  lemma RangesFit(data: string, s: Scan, bound: nat, i: nat)
    requires Laid(data, s, bound) && i < |s.starts|
    ensures ItemStart(s.starts, i) < ItemEnd(data, s.starts, i) <= |data|
  {
  }

  ghost predicate Splits(data: string, exprs: seq<Expr>, nameOf: Naming, items: seq<TomlItem>)
    requires HavePaths(exprs) && Placed(data, exprs)
  {
    var s := Scanned(exprs, nameOf);
    ScanLays(data, exprs, nameOf);
    && |items| == |s.heads|
    && forall i :: 0 <= i < |items| ==> (RangesFit(data, s, Bound(exprs), i); items[i] == ItemAt(data, s, i))
  }

  ghost predicate NamedTwice(heads: seq<Head>) {
    exists i, j :: 0 <= i < j < |heads| && heads[i].name == heads[j].name
  }

  method SplitToml(data: string, exprs: seq<Expr>, nameOf: Naming) returns (r: Result<seq<TomlItem>, Failure>)
    requires HavePaths(exprs) && Placed(data, exprs)
    ensures r.Err? <==> NamedTwice(Scanned(exprs, nameOf).heads)
    ensures r.Ok? ==> Splits(data, exprs, nameOf, r.value)
    ensures r.Err? ==> r.error.DefinedTwice? && exists h :: h in Scanned(exprs, nameOf).heads && h.name == r.error.name
  {
    hide Laid, LaidSpans, LineStart, NamedTwice, FieldsOf;
    var s := ReadExprs(exprs, nameOf);
    ScanLays(data, exprs, nameOf);
    var seen: set<string> := {};
    var items: seq<TomlItem> := [];
    LaidLengths(data, s, Bound(exprs));
    NoneTwice(s.heads);
    for i := 0 to |s.heads|
      invariant |items| == i
      invariant forall k :: 0 <= k < i ==> (RangesFit(data, s, Bound(exprs), k); items[k] == ItemAt(data, s, k))
      invariant forall n :: n in seen <==> exists k :: 0 <= k < i && s.heads[k].name == n
      invariant !NamedTwice(s.heads[..i])
    {
      TwiceSoFar(s.heads, i);
      if s.heads[i].name in seen { return Err(DefinedTwice(s.heads[i].name)); }
      seen := seen + {s.heads[i].name};
      RangesFit(data, s, Bound(exprs), i);
      var start, end := ItemStart(s.starts, i), ItemEnd(data, s.starts, i);
      var fields := CollectFields(s.spans, i, start);
      items := items + [TomlItem(s.heads[i].path, s.heads[i].name, s.heads[i].table, data[start..end], fields)];
    }
    assert s.heads[..|s.heads|] == s.heads;
    return Ok(items);
  }

  lemma LaidLengths(data: string, s: Scan, bound: nat)
    requires Laid(data, s, bound)
    ensures |s.heads| == |s.starts|
  {
  }

  lemma NoneTwice(heads: seq<Head>)
    ensures !NamedTwice(heads[..0])
  {
  }

  lemma TwiceSoFar(heads: seq<Head>, i: nat)
    requires i < |heads| && !NamedTwice(heads[..i])
    ensures NamedTwice(heads[..i + 1]) <==> exists k :: 0 <= k < i && heads[k].name == heads[i].name
    ensures NamedTwice(heads[..i + 1]) ==> NamedTwice(heads)
  {
    var a, b := heads[..i], heads[..i + 1];
    forall k, l | 0 <= k < l < i ensures heads[k].name != heads[l].name { assert a[k] == heads[k] && a[l] == heads[l]; }
    if NamedTwice(b) {
      var k, l :| 0 <= k < l < |b| && b[k].name == b[l].name;
      assert heads[k].name == heads[l].name;
    }
    if k :| 0 <= k < i && heads[k].name == heads[i].name {
      assert b[k].name == b[i].name;
    }
  }

  method CollectFields(spans: seq<Span>, i: nat, start: nat) returns (fields: seq<Field>)
    ensures fields == FieldsOf(spans, i, start)
  {
    fields := [];
    for k := 0 to |spans|
      invariant fields == FieldsOf(spans[..k], i, start)
    {
      assert spans[..k + 1][..k] == spans[..k];
      var f := spans[k];
      if f.item == i { fields := fields + [Field(f.key, f.start - start, f.end - start)]; }
    }
    assert spans[..|spans|] == spans;
  }

  // The loop over the parser's expressions with its two cursors.
  method ReadExprs(exprs: seq<Expr>, nameOf: Naming) returns (s: Scan)
    requires HavePaths(exprs)
    ensures s == Scanned(exprs, nameOf)
  {
    var heads: seq<Head>, starts: seq<nat>, spans: seq<Span> := [], [], [];
    var pending: Option<nat>, current: Option<nat> := None, None;
    for i := 0 to |exprs|
      invariant Scan(heads, starts, spans, pending, current) == Scanned(exprs[..i], nameOf)
    {
      assert exprs[..i + 1][..i] == exprs[..i];
      ghost var was := Scan(heads, starts, spans, pending, current);
      match exprs[i] {
        case Comment(at) =>
          if pending.None? { pending := Some(at); }
        case KeyValue(at, end, path) =>
          if current.Some? {
            spans := spans + [Span(current.value, at, end, path[0])];
            pending := None;
          } else {
            var start := if pending.Some? then pending.value else at;
            pending := None;
            heads, starts := heads + [Head(path, nameOf(path), false)], starts + [start];
          }
        case Header(at, path, repeated) =>
          var name := if repeated then nameOf(path) + "[]" else nameOf(path);
          if repeated && heads != [] && heads[|heads| - 1].name == name && current == Some(|heads| - 1) {
            pending := None;
          } else {
            var start := if pending.Some? then pending.value else at;
            pending := None;
            heads, starts := heads + [Head(path, name, true)], starts + [start];
            current := Some(|heads| - 1);
          }
      }
      assert Scan(heads, starts, spans, pending, current) == Step(was, exprs[i], nameOf);
    }
    assert exprs[..|exprs|] == exprs;
    s := Scan(heads, starts, spans, pending, current);
  }

  // ---------------------------------------------------- nothing gets lost

  function Joined(items: seq<TomlItem>): string {
    if items == [] then "" else Joined(items[..|items| - 1]) + items[|items| - 1].text
  }

  lemma {:induction false} JoinedUpTo(data: string, s: Scan, bound: nat, items: seq<TomlItem>, n: nat)
    requires Laid(data, s, bound) && |items| == |s.heads| && 0 < n <= |items|
    requires forall i :: 0 <= i < |items| ==> (RangesFit(data, s, bound, i); items[i] == ItemAt(data, s, i))
    ensures ItemEnd(data, s.starts, n - 1) <= |data| && Joined(items[..n]) == data[..ItemEnd(data, s.starts, n - 1)]
  {
    hide FieldsOf, LineStart;
    RangesFit(data, s, bound, n - 1);
    assert items[..n][..n - 1] == items[..n - 1];
    if n == 1 {
      assert Joined([]) == "" && items[..0] == [];
      assert items[0] == ItemAt(data, s, 0);
    } else {
      JoinedUpTo(data, s, bound, items, n - 1);
      assert items[n - 1] == ItemAt(data, s, n - 1);
      JoinedSlices(data, ItemStart(s.starts, n - 1), ItemEnd(data, s.starts, n - 1));
    }
  }

  lemma JoinedSlices(data: string, a: nat, b: nat)
    requires a <= b <= |data|
    ensures data[..a] + data[a..b] == data[..b]
  {
  }

  // A file with an item is exactly its items, comments and all.
  lemma ItemsAreTheFile(data: string, exprs: seq<Expr>, nameOf: Naming, items: seq<TomlItem>)
    requires HavePaths(exprs) && Placed(data, exprs) && Splits(data, exprs, nameOf, items) && items != []
    ensures Joined(items) == data
  {
    hide Laid, LaidSpans, LineStart, Scanned;
    ScanLays(data, exprs, nameOf);
    var s := Scanned(exprs, nameOf);
    JoinedUpTo(data, s, Bound(exprs), items, |items|);
    assert items[..|items|] == items && data[..|data|] == data;
    LaidLengths(data, s, Bound(exprs));
  }

  // Top-level keys come before tables, texts start and end with a line, and
  // the key lines lie inside, in order.
  ghost predicate Arranged(items: seq<TomlItem>) {
    && (forall i :: 0 <= i < |items| ==> items[i].text != "" && FieldsFit(items[i]))
    && (forall i :: 0 <= i < |items| - 1 ==> EndsLine(items[i].text))
    && (forall i, j :: 0 <= i < j < |items| ==> items[i].table ==> items[j].table)
  }

  predicate EndsLine(text: string) {
    text != "" && text[|text| - 1] == '\n'
  }

  predicate FieldsFit(it: TomlItem) {
    FieldsIn(it.fields, it.text, 0)
  }

  predicate FieldsIn(fields: seq<Field>, text: string, last: nat) {
    && (forall k :: 0 <= k < |fields| ==> last <= fields[k].start <= fields[k].end <= |text|)
    && (forall k, l :: 0 <= k < l < |fields| ==> fields[k].end <= fields[l].start)
  }

  lemma SplitArranged(data: string, exprs: seq<Expr>, nameOf: Naming, items: seq<TomlItem>)
    requires HavePaths(exprs) && Placed(data, exprs) && Splits(data, exprs, nameOf, items)
    ensures Arranged(items)
  {
    hide FieldsOf, FieldsFit, Scanned;
    ScanLays(data, exprs, nameOf);
    var s := Scanned(exprs, nameOf);
    forall i | 0 <= i < |items|
      ensures items[i].text != "" && FieldsFit(items[i]) && (i < |items| - 1 ==> EndsLine(items[i].text))
    {
      RangesFit(data, s, Bound(exprs), i);
      assert items[i] == ItemAt(data, s, i);
      FieldsOfFit(data, s, Bound(exprs), i, items[i]);
    }
    forall i, j | 0 <= i < j < |items| ensures items[i].table ==> items[j].table {
      assert items[i] == ItemAt(data, s, i) && items[j] == ItemAt(data, s, j);
    }
  }

  lemma FieldsOfFit(data: string, s: Scan, bound: nat, i: nat, it: TomlItem)
    requires Laid(data, s, bound) && LaidSpans(s, bound) && bound <= |data| && i < |s.starts|
    requires ItemStart(s.starts, i) <= ItemEnd(data, s.starts, i) <= |data| && it == ItemAt(data, s, i)
    ensures FieldsFit(it)
  {
    hide LineStart;
    var start, end := ItemStart(s.starts, i), ItemEnd(data, s.starts, i);
    forall k | 0 <= k < |s.spans| && s.spans[k].item == i
      ensures start <= s.spans[k].start < s.spans[k].end <= end
    {
    }
    FieldsLie(s.spans, i, start, end);
    assert it.fields == FieldsOf(s.spans, i, start) && |it.text| == end - start;
  }

  // Up to where the spans reach.
  function LastEnd(spans: seq<Span>): nat {
    if spans == [] then 0 else spans[|spans| - 1].end
  }

  ghost predicate FieldsLieBy(spans: seq<Span>, start: nat, end: nat, fs: seq<Field>) {
    && (forall k :: 0 <= k < |fs| ==>
          0 <= fs[k].start <= fs[k].end <= end - start && start + fs[k].end <= LastEnd(spans))
    && (forall k, l :: 0 <= k < l < |fs| ==> fs[k].end <= fs[l].start)
  }

  lemma {:induction false} FieldsLie(spans: seq<Span>, i: nat, start: nat, end: nat)
    requires forall k :: 0 <= k < |spans| && spans[k].item == i ==> start <= spans[k].start < spans[k].end <= end
    requires forall k :: 0 <= k < |spans| ==> spans[k].start < spans[k].end
    requires forall k, l :: 0 <= k < l < |spans| ==> spans[k].end <= spans[l].start
    ensures FieldsLieBy(spans, start, end, FieldsOf(spans, i, start))
  {
    if spans != [] {
      var n := |spans| - 1;
      FieldsLie(spans[..n], i, start, end);
      assert LastEnd(spans[..n]) <= spans[n].start;
    }
  }

  // ------------------------------------------------------------------ lines

  // White space as Unicode has it.
  predicate IsBlank(c: char) {
    var x := c as int;
    || x in {9, 10, 11, 12, 13, 32, 0x85, 0xa0, 0x1680, 0x2028, 0x2029, 0x202f, 0x205f, 0x3000}
    || 0x2000 <= x <= 0x200a
  }

  function FirstVisible(line: string): Option<char> {
    if line == "" then None else if IsBlank(line[0]) then FirstVisible(line[1..]) else Some(line[0])
  }

  // Just after the line that starts at off.
  function LineEnd(text: string, off: nat): (end: nat)
    requires off <= |text|
    ensures off <= end <= |text| && (off < |text| ==> off < end)
    ensures end < |text| ==> text[end - 1] == '\n'
    decreases |text| - off
  {
    if off == |text| then off else if text[off] == '\n' then off + 1 else LineEnd(text, off + 1)
  }

  // The comment and blank lines from off on end here.
  function LeadingEnd(text: string, off: nat): (end: nat)
    requires off <= |text|
    ensures off <= end <= |text|
    decreases |text| - off
  {
    if off == |text| then off
    else
      var end := LineEnd(text, off);
      var c := FirstVisible(text[off..end]);
      if c.Some? && c.value != '#' then off else LeadingEnd(text, end)
  }

  function LeadingComments(text: string): string {
    var lead := text[..LeadingEnd(text, 0)];
    if '#' in lead then lead else ""
  }

  // The first line that is no comment and not blank opens with a bracket.
  predicate IsTable(text: string) {
    var off := LeadingEnd(text, 0);
    off < |text| && FirstVisible(text[off..LineEnd(text, off)]) == Some('[')
  }

  predicate OpensHeader(line: string) {
    line != "" && if line[0] == ' ' || line[0] == '\t' then OpensHeader(line[1..]) else line[0] == '['
  }

  function HeaderEnd(text: string, off: nat): (end: nat)
    requires off <= |text|
    ensures end <= |text|
    decreases |text| - off
  {
    if off == |text| then 0
    else
      var end := LineEnd(text, off);
      if OpensHeader(text[off..end]) then end else HeaderEnd(text, end)
  }

  function WithNewline(text: string): string {
    if text != "" && !EndsLine(text) then text + "\n" else text
  }

  // ------------------------------------------------- this machine's own keys

  // The text from last on without the keys that belong to this machine.
  function Cut(text: string, path: seq<string>, fields: seq<Field>, last: nat): string
    requires FieldsIn(fields, text, last) && last <= |text|
    decreases |fields|
  {
    if fields == [] then text[last..]
    else
      var f := fields[0];
      if ExcludedField(path, f.key) then text[last..f.start] + Cut(text, path, fields[1..], f.end)
      else Cut(text, path, fields[1..], last)
  }

  lemma CutNothing(text: string, path: seq<string>, last: nat)
    requires last <= |text|
    ensures FieldsIn([], text, last) && Cut(text, path, [], last) == text[last..]
  {
  }

  lemma CutStep(text: string, path: seq<string>, fields: seq<Field>, last: nat)
    requires last <= |text| && FieldsIn(fields, text, last) && fields != []
    ensures last <= fields[0].start <= fields[0].end <= |text|
    ensures FieldsIn(fields[1..], text, fields[0].end) && FieldsIn(fields[1..], text, last)
    ensures Cut(text, path, fields, last)
            == if ExcludedField(path, fields[0].key)
               then text[last..fields[0].start] + Cut(text, path, fields[1..], fields[0].end)
               else Cut(text, path, fields[1..], last)
  {
    FieldsInRest(fields, text, last);
  }

  lemma FieldsInRest(fields: seq<Field>, text: string, last: nat)
    requires FieldsIn(fields, text, last) && fields != []
    ensures last <= fields[0].start <= fields[0].end <= |text|
    ensures FieldsIn(fields[1..], text, fields[0].end) && FieldsIn(fields[1..], text, last)
  {
  }

  // Those keys' lines.
  function Own(text: string, path: seq<string>, fields: seq<Field>): string
    requires FieldsIn(fields, text, 0)
    decreases |fields|
  {
    if fields == [] then ""
    else
      var f := fields[0];
      var rest := Own(text, path, fields[1..]);
      if ExcludedField(path, f.key) then WithNewline(text[f.start..f.end]) + rest else rest
  }

  // Where they stand once put back at `at`.
  function OwnFields(text: string, path: seq<string>, fields: seq<Field>, at: nat): seq<Field>
    requires FieldsIn(fields, text, 0)
    decreases |fields|
  {
    if fields == [] then []
    else
      var f := fields[0];
      if ExcludedField(path, f.key) then
        var end := at + |WithNewline(text[f.start..f.end])|;
        [Field(f.key, at, end)] + OwnFields(text, path, fields[1..], end)
      else OwnFields(text, path, fields[1..], at)
  }

  function ProjectedText(it: TomlItem): string
    requires FieldsFit(it)
  {
    Cut(it.text, it.path, it.fields, 0)
  }

  function OwnText(it: TomlItem): string
    requires FieldsFit(it)
  {
    Own(it.text, it.path, it.fields)
  }

  method ProjectText(it: TomlItem) returns (out: string)
    requires FieldsFit(it)
    ensures out == ProjectedText(it)
  {
    hide FieldsIn, Cut, ExcludedField;
    out := "";
    var last := 0;
    assert it.fields[0..] == it.fields;
    for i := 0 to |it.fields|
      invariant 0 <= last <= |it.text| && FieldsIn(it.fields[i..], it.text, last)
      invariant out + Cut(it.text, it.path, it.fields[i..], last) == ProjectedText(it)
    {
      var f := it.fields[i];
      assert it.fields[i..][0] == f && it.fields[i..][1..] == it.fields[i + 1..];
      CutStep(it.text, it.path, it.fields[i..], last);
      if ExcludedField(it.path, f.key) {
        out := out + it.text[last..f.start];
        last := f.end;
      }
    }
    assert it.fields[|it.fields|..] == [];
    CutNothing(it.text, it.path, last);
    out := out + it.text[last..];
  }

  function KeepComments(it: TomlItem, synced: string): string {
    if LeadingComments(synced) != "" then synced else LeadingComments(it.text) + synced
  }

  function WithOwnFields(it: TomlItem, synced: string): string
    requires FieldsFit(it)
  {
    var at := HeaderEnd(synced, 0);
    synced[..at] + OwnText(it) + synced[at..]
  }

  method PutOwnFields(it: TomlItem, synced: string) returns (out: string)
    requires FieldsFit(it)
    ensures out == WithOwnFields(it, synced)
  {
    hide WithNewline;
    var own := "";
    assert it.fields[0..] == it.fields;
    for i := 0 to |it.fields|
      invariant FieldsIn(it.fields[i..], it.text, 0)
      invariant own + Own(it.text, it.path, it.fields[i..]) == OwnText(it)
    {
      var f := it.fields[i];
      assert it.fields[i..][0] == f && it.fields[i..][1..] == it.fields[i + 1..];
      if ExcludedField(it.path, f.key) { own := own + WithNewline(it.text[f.start..f.end]); }
    }
    if own == "" {
      var at := HeaderEnd(synced, 0);
      assert synced[..at] + "" + synced[at..] == synced;
      return synced;
    }
    var at := HeaderEnd(synced, 0);
    out := synced[..at] + own + synced[at..];
  }

  // ------------------------------------------------------ project and apply

  // The canonical value of an item's text, unless it cannot be read.
  type Reader = string -> Option<string>

  ghost predicate AllFit(items: seq<TomlItem>) {
    forall i :: 0 <= i < |items| ==> FieldsFit(items[i])
  }

  function Projected(items: seq<TomlItem>, read: Reader): Result<seq<Item>, Failure>
    requires AllFit(items)
  {
    if items == [] then Ok([])
    else
      var it := items[|items| - 1];
      match Projected(items[..|items| - 1], read)
      case Err(e) => Err(e)
      case Ok(init) =>
        if ExcludedPath(it.path) then Ok(init)
        else
          match read(ProjectedText(it))
          case None => Err(BadValue(it.name))
          case Some(v) => Ok(init + [Item(it.name, v, WithNewline(ProjectedText(it)))])
  }

  method Project(items: seq<TomlItem>, read: Reader) returns (r: Result<seq<Item>, Failure>)
    requires AllFit(items)
    ensures r == Projected(items, read)
  {
    hide FieldsFit, ProjectedText, ExcludedPath, WithNewline;
    var out: seq<Item> := [];
    for i := 0 to |items|
      invariant Projected(items[..i], read) == Ok(out)
    {
      assert items[..i + 1][..i] == items[..i];
      if ExcludedPath(items[i].path) { continue; }
      var text := ProjectText(items[i]);
      var v := read(text);
      if v.None? {
        ErrorStays(items, read, i);
        return Err(BadValue(items[i].name));
      }
      out := out + [Item(items[i].name, v.value, WithNewline(text))];
    }
    assert items[..|items|] == items;
    return Ok(out);
  }

  lemma {:induction false} ErrorStays(items: seq<TomlItem>, read: Reader, i: nat)
    requires AllFit(items) && i < |items| && Projected(items[..i + 1], read).Err?
    ensures Projected(items, read) == Projected(items[..i + 1], read)
    decreases |items|
  {
    hide FieldsFit, ProjectedText, ExcludedPath, WithNewline;
    if i + 1 < |items| {
      assert items[..|items| - 1][..i + 1] == items[..i + 1];
      ErrorStays(items[..|items| - 1], read, i);
    } else {
      assert items[..i + 1] == items;
    }
  }

  // An item to be written; the path of one new here is not known and counts
  // as synced, as the synced form holds nothing else.
  datatype Written = Written(item: TomlItem, isNew: bool)

  function Rewritten(it: TomlItem, synced: string): TomlItem
    requires FieldsFit(it)
  {
    var body := KeepComments(it, synced);
    TomlItem(it.path, it.name, IsTable(synced), WithOwnFields(it, body),
             OwnFields(it.text, it.path, it.fields, HeaderEnd(body, 0)))
  }

  function ItemAfter(it: TomlItem, synced: Option<Item>, kept: bool, read: Reader): Option<Written>
    requires FieldsFit(it)
  {
    if ExcludedPath(it.path) || kept then Some(Written(it, false))
    else if synced.None? then None
    else if read(ProjectedText(it)) == Some(synced.value.value) then Some(Written(it, false))
    else Some(Written(Rewritten(it, synced.value.text), false))
  }

  function AddWritten(ws: seq<Written>, w: Option<Written>): seq<Written> {
    if w.Some? then ws + [w.value] else ws
  }

  function KeptItems(local: seq<TomlItem>, synced: map<string, Item>, keep: set<string>, read: Reader): seq<Written>
    requires AllFit(local)
  {
    if local == [] then []
    else
      var it := local[|local| - 1];
      AddWritten(KeptItems(local[..|local| - 1], synced, keep, read),
                 ItemAfter(it, Lookup(synced, it.name), it.name in keep, read))
  }

  function NewItem(s: Item): Written {
    Written(TomlItem([], s.name, IsTable(s.text), s.text, []), true)
  }

  function NewItems(synced: seq<Item>, seen: set<string>, keep: set<string>): seq<Written> {
    if synced == [] then []
    else
      var s := synced[|synced| - 1];
      var init := NewItems(synced[..|synced| - 1], seen, keep);
      if s.name !in seen && s.name !in keep then init + [NewItem(s)] else init
  }

  function TomlNames(items: seq<TomlItem>): set<string> {
    set i | 0 <= i < |items| :: items[i].name
  }

  function Outcome(local: seq<TomlItem>, synced: seq<Item>, keep: set<string>, read: Reader): seq<Written>
    requires AllFit(local)
  {
    KeptItems(local, Index(synced), keep, read) + NewItems(synced, TomlNames(local), keep)
  }

  // Top-level keys first, then tables; a new table is set off by a blank line.
  datatype Text = Text(root: string, tables: string)

  predicate EndsBlank(text: string) {
    |text| >= 2 && text[|text| - 1] == '\n' && text[|text| - 2] == '\n'
  }

  function AddText(t: Text, w: Written): Text {
    if !w.item.table then t.(root := t.root + WithNewline(w.item.text))
    else if w.isNew && t.root + t.tables != "" && !EndsBlank(t.root + t.tables) then
      t.(tables := t.tables + "\n" + WithNewline(w.item.text))
    else t.(tables := t.tables + WithNewline(w.item.text))
  }

  function Assembled(ws: seq<Written>): Text {
    if ws == [] then Text("", "") else AddText(Assembled(ws[..|ws| - 1]), ws[|ws| - 1])
  }

  method AddTo(root: string, tables: string, w: Written) returns (root': string, tables': string)
    ensures Text(root', tables') == AddText(Text(root, tables), w)
  {
    root', tables' := root, tables;
    if w.item.table {
      if w.isNew && |tables| + |root| > 0 && !EndsBlank(root + tables) { tables' := tables' + "\n"; }
      tables' := tables' + WithNewline(w.item.text);
    } else {
      root' := root' + WithNewline(w.item.text);
    }
  }

  lemma TomlNamesSnoc(items: seq<TomlItem>, it: TomlItem)
    ensures TomlNames(items + [it]) == TomlNames(items) + {it.name}
  {
    var all := items + [it];
    forall n ensures n in TomlNames(all) <==> n in TomlNames(items) + {it.name} {
      if n in TomlNames(items) {
        var i :| 0 <= i < |items| && items[i].name == n;
        assert all[i].name == n;
      }
      assert all[|items|].name == it.name;
    }
  }

  lemma NoTomlNames()
    ensures TomlNames([]) == {}
  {
  }

  lemma AssembledSnoc(ws: seq<Written>, w: Written)
    ensures Assembled(ws + [w]) == AddText(Assembled(ws), w)
  {
    assert (ws + [w])[..|ws|] == ws;
  }

  method Apply(local: seq<TomlItem>, synced: seq<Item>, keep: set<string>, read: Reader) returns (out: string)
    requires AllFit(local)
    ensures var t := Assembled(Outcome(local, synced, keep, read)); out == t.root + t.tables
  {
    hide Index, TomlNames, AddText, ExcludedPath, FieldsFit, ProjectedText, IsTable, Assembled;
    var byName := BuildIndex(synced);
    var seen: set<string> := {};
    var root, tables := "", "";
    ghost var ws: seq<Written> := [];
    NoTomlNames();
    NothingAssembled();
    for i := 0 to |local|
      invariant ws == KeptItems(local[..i], Index(synced), keep, read) && seen == TomlNames(local[..i])
      invariant Text(root, tables) == Assembled(ws)
    {
      assert local[..i + 1][..i] == local[..i];
      TomlNamesSnoc(local[..i], local[i]);
      assert local[..i] + [local[i]] == local[..i + 1];
      var it := local[i];
      seen := seen + {it.name};
      var w: Option<Written> := None;
      if ExcludedPath(it.path) || it.name in keep {
        w := Some(Written(it, false));
      } else if it.name !in byName {
        // deleted on another machine
      } else {
        w := SyncedItem(it, byName[it.name], read);
      }
      if w.Some? {
        root, tables := AddTo(root, tables, w.value);
        AssembledSnoc(ws, w.value);
      }
      ws := AddWritten(ws, w);
    }
    assert local[..|local|] == local;
    ghost var kept := ws;
    for i := 0 to |synced|
      invariant ws == kept + NewItems(synced[..i], TomlNames(local), keep)
      invariant Text(root, tables) == Assembled(ws)
    {
      assert synced[..i + 1][..i] == synced[..i];
      if synced[i].name !in seen && synced[i].name !in keep {
        root, tables := AddTo(root, tables, NewItem(synced[i]));
        AssembledSnoc(ws, NewItem(synced[i]));
        ws := ws + [NewItem(synced[i])];
      }
    }
    assert synced[..|synced|] == synced;
    out := root + tables;
  }

  lemma NothingAssembled()
    ensures Assembled([]) == Text("", "")
  {
  }

  method SyncedItem(it: TomlItem, s: Item, read: Reader) returns (w: Option<Written>)
    requires FieldsFit(it) && !ExcludedPath(it.path)
    ensures w == ItemAfter(it, Some(s), false, read)
  {
    hide WithOwnFields, KeepComments, OwnFields, Cut, Own;
    var own := ProjectText(it);
    if read(own) == Some(s.value) { return Some(Written(it, false)); }
    var body := KeepComments(it, s.text);
    var text := PutOwnFields(it, body);
    return Some(Written(TomlItem(it.path, it.name, IsTable(s.text), text,
                                 OwnFields(it.text, it.path, it.fields, HeaderEnd(body, 0))), false));
  }

  // ------------------------------------------- writing back what was read

  ghost predicate NamesDistinct(items: seq<TomlItem>) {
    forall i, j :: 0 <= i < j < |items| ==> items[i].name != items[j].name
  }

  // The items written as they are.
  function AsTheyAre(items: seq<TomlItem>): seq<Written> {
    if items == [] then [] else AsTheyAre(items[..|items| - 1]) + [Written(items[|items| - 1], false)]
  }

  lemma {:induction false} ProjectedHas(items: seq<TomlItem>, read: Reader, i: nat)
    requires AllFit(items) && NamesDistinct(items) && Projected(items, read).Ok? && i < |items|
    requires !ExcludedPath(items[i].path)
    ensures var own := Projected(items, read).value;
            && items[i].name in Index(own) && read(ProjectedText(items[i])) == Some(Index(own)[items[i].name].value)
    decreases |items|
  {
    hide ExcludedPath, ProjectedText, FieldsFit, WithNewline;
    var k := |items| - 1;
    if i < k {
      assert items[..k][i] == items[i];
      ProjectedHas(items[..k], read, i);
    }
    var init := Projected(items[..k], read).value;
    if !ExcludedPath(items[k].path) {
      var text := ProjectedText(items[k]);
      IndexSnoc(init, Item(items[k].name, read(text).value, WithNewline(text)));
    }
  }

  lemma {:induction false} OwnAsTheyAre(items: seq<TomlItem>, n: nat, keep: set<string>, read: Reader)
    requires AllFit(items) && NamesDistinct(items) && Projected(items, read).Ok? && n <= |items|
    ensures KeptItems(items[..n], Index(Projected(items, read).value), keep, read) == AsTheyAre(items[..n])
  {
    hide ExcludedPath, ProjectedText, FieldsFit, Index, Projected;
    if n > 0 {
      OwnAsTheyAre(items, n - 1, keep, read);
      assert items[..n][..n - 1] == items[..n - 1];
      if !ExcludedPath(items[n - 1].path) { ProjectedHas(items, read, n - 1); }
    }
  }

  lemma {:induction false} ProjectedNames(items: seq<TomlItem>, read: Reader, n: string)
    requires AllFit(items) && Projected(items, read).Ok? && Has(Projected(items, read).value, n)
    ensures n in TomlNames(items)
  {
    hide ExcludedPath, ProjectedText, FieldsFit, WithNewline, TomlNames;
    if items == [] {
    } else {
      var k := |items| - 1;
      assert items == items[..k] + [items[k]];
      TomlNamesSnoc(items[..k], items[k]);
      HasSnoc(Projected(items, read).value, n);
      if items[k].name != n {
        if !ExcludedPath(items[k].path) {
          assert Projected(items, read).value[..|Projected(items, read).value| - 1]
                 == Projected(items[..k], read).value;
        }
        ProjectedNames(items[..k], read, n);
      }
    }
  }

  lemma {:induction false} NoNewItems(synced: seq<Item>, seen: set<string>, keep: set<string>)
    requires forall i :: 0 <= i < |synced| ==> synced[i].name in seen
    ensures NewItems(synced, seen, keep) == []
  {
    if synced != [] { NoNewItems(synced[..|synced| - 1], seen, keep); }
  }

  function Lines(items: seq<TomlItem>): string {
    if items == [] then "" else Lines(items[..|items| - 1]) + WithNewline(items[|items| - 1].text)
  }

  // Top-level keys stand before tables, so writing them in two runs keeps the
  // order.
  lemma {:induction false} AssembledInOrder(items: seq<TomlItem>)
    requires Arranged(items)
    ensures var t := Assembled(AsTheyAre(items)); t.root + t.tables == Lines(items)
    ensures (forall i :: 0 <= i < |items| ==> !items[i].table) ==> Assembled(AsTheyAre(items)).tables == ""
  {
    hide WithNewline, FieldsFit, EndsLine;
    if items != [] {
      var k := |items| - 1;
      var init := items[..k];
      AssembledInOrder(init);
      AssembledSnoc(AsTheyAre(init), Written(items[k], false));
      var t := Assembled(AsTheyAre(init));
      var x := WithNewline(items[k].text);
      if items[k].table {
        assert t.root + (t.tables + x) == (t.root + t.tables) + x;
      } else {
        assert forall i :: 0 <= i < k ==> !items[i].table;
        assert (t.root + x) + "" == (t.root + "") + x;
      }
    }
  }

  lemma {:induction false} LinesAreTheFile(items: seq<TomlItem>)
    requires Arranged(items)
    ensures Lines(items) == WithNewline(Joined(items))
  {
    hide FieldsFit, WithNewline, EndsLine;
    if items == [] {
      NoText();
    } else {
      var k := |items| - 1;
      LinesAreTheFile(items[..k]);
      if k > 0 { JoinedEnds(items[..k]); }
      NewlineAppended(Joined(items[..k]), items[k].text);
    }
  }

  lemma NewlineAppended(a: string, b: string)
    requires (a == "" || EndsLine(a)) && b != ""
    ensures WithNewline(a) + WithNewline(b) == WithNewline(a + b)
  {
  }

  lemma {:induction false} JoinedEnds(items: seq<TomlItem>)
    requires items != [] && forall i :: 0 <= i < |items| ==> EndsLine(items[i].text)
    ensures EndsLine(Joined(items))
  {
    assert EndsLine(items[|items| - 1].text);
  }

  lemma OwnOutcome(items: seq<TomlItem>, keep: set<string>, read: Reader)
    requires AllFit(items) && NamesDistinct(items) && Projected(items, read).Ok?
    ensures Outcome(items, Projected(items, read).value, keep, read) == AsTheyAre(items)
  {
    hide FieldsFit, Projected, Index, KeptItems, TomlNames, AsTheyAre;
    var own := Projected(items, read).value;
    OwnAsTheyAre(items, |items|, keep, read);
    assert items[..|items|] == items;
    forall i | 0 <= i < |own| ensures own[i].name in TomlNames(items) {
      assert Has(own, own[i].name);
      ProjectedNames(items, read, own[i].name);
    }
    NoNewItems(own, TomlNames(items), keep);
  }

  lemma SplitNames(data: string, exprs: seq<Expr>, nameOf: Naming, items: seq<TomlItem>)
    requires HavePaths(exprs) && Placed(data, exprs) && Splits(data, exprs, nameOf, items)
    requires !NamedTwice(Scanned(exprs, nameOf).heads)
    ensures NamesDistinct(items) && AllFit(items)
  {
    SplitArranged(data, exprs, nameOf, items);
    var s := Scanned(exprs, nameOf);
    forall i | 0 <= i < |items| ensures items[i].name == s.heads[i].name {
      ScanLays(data, exprs, nameOf);
      RangesFit(data, s, Bound(exprs), i);
      assert items[i] == ItemAt(data, s, i);
    }
  }

  // What applying a file's own projection makes of it: the file with its last
  // line ended, or nothing when it holds no item.
  lemma ApplyOwn(data: string, exprs: seq<Expr>, nameOf: Naming, items: seq<TomlItem>, keep: set<string>, read: Reader)
    requires HavePaths(exprs) && Placed(data, exprs) && Splits(data, exprs, nameOf, items)
    requires !NamedTwice(Scanned(exprs, nameOf).heads) && AllFit(items) && Projected(items, read).Ok?
    ensures var t := Assembled(Outcome(items, Projected(items, read).value, keep, read));
            t.root + t.tables == if items == [] then "" else WithNewline(data)
  {
    hide *;
    SplitNames(data, exprs, nameOf, items);
    OwnOutcome(items, keep, read);
    SplitArranged(data, exprs, nameOf, items);
    if items != [] { ItemsAreTheFile(data, exprs, nameOf, items); }
    AssembledInOrder(items);
    LinesAreTheFile(items);
    NoText();
  }

  lemma NoText()
    ensures WithNewline(Joined([])) == ""
  {
  }

  // So it changes nothing exactly when the file has an item and ends its last
  // line, or is empty.
  lemma GetPut(data: string, exprs: seq<Expr>, nameOf: Naming, items: seq<TomlItem>, keep: set<string>, read: Reader)
    requires HavePaths(exprs) && Placed(data, exprs) && Splits(data, exprs, nameOf, items)
    requires !NamedTwice(Scanned(exprs, nameOf).heads) && AllFit(items) && Projected(items, read).Ok?
    ensures var t := Assembled(Outcome(items, Projected(items, read).value, keep, read));
            t.root + t.tables == data <==> data == "" || (items != [] && EndsLine(data))
  {
    ApplyOwn(data, exprs, nameOf, items, keep, read);
    if items != [] { ItemsAreTheFile(data, exprs, nameOf, items); }
    JoinedNotEmpty(data, exprs, nameOf, items);
  }

  lemma JoinedNotEmpty(data: string, exprs: seq<Expr>, nameOf: Naming, items: seq<TomlItem>)
    requires HavePaths(exprs) && Placed(data, exprs) && Splits(data, exprs, nameOf, items)
    ensures items != [] ==> data != ""
  {
    SplitArranged(data, exprs, nameOf, items);
    if items != [] {
      ItemsAreTheFile(data, exprs, nameOf, items);
      assert items[|items| - 1].text != "";
    }
  }

  // --------------------------------------------- reading what was written

  // Comments and blank lines, which change nothing around what can be read.
  ghost predicate Quiet(read: Reader, c: string) {
    forall t :: read(t).Some? ==> read(c + t) == read(t) && read(t + c) == read(t)
  }

  // This machine's keys standing in out from at on come off again.
  ghost predicate OwnComesOff(text: string, path: seq<string>, fields: seq<Field>, out: string, at: nat, last: nat) {
    && FieldsIn(fields, text, 0) && last <= at && at + |Own(text, path, fields)| <= |out|
    && var own := OwnFields(text, path, fields, at);
       && FieldsIn(own, out, last)
       && Cut(out, path, own, last) == out[last..at] + out[at + |Own(text, path, fields)|..]
  }

  lemma OwnStep(text: string, path: seq<string>, fields: seq<Field>, at: nat)
    requires FieldsIn(fields, text, 0) && fields != []
    ensures 0 <= fields[0].start <= fields[0].end <= |text| && FieldsIn(fields[1..], text, 0)
    ensures var f := fields[0];
            var line := WithNewline(text[f.start..f.end]);
            var end := at + |line|;
            if ExcludedField(path, f.key) then
              && Own(text, path, fields) == line + Own(text, path, fields[1..])
              && OwnFields(text, path, fields, at)
                 == [Field(f.key, at, end)] + OwnFields(text, path, fields[1..], end)
            else
              && Own(text, path, fields) == Own(text, path, fields[1..])
              && OwnFields(text, path, fields, at) == OwnFields(text, path, fields[1..], at)
  {
    hide WithNewline, ExcludedField;
  }

  lemma OwnNone(text: string, path: seq<string>, out: string, at: nat, last: nat)
    requires last <= at <= |out|
    ensures OwnComesOff(text, path, [], out, at, last)
  {
    assert out[last..] == out[last..at] + out[at..];
  }

  lemma OwnFirst(text: string, path: seq<string>, fields: seq<Field>, out: string, at: nat, last: nat)
    requires FieldsIn(fields, text, 0) && fields != [] && ExcludedField(path, fields[0].key) && last <= at
    requires 0 <= fields[0].start <= fields[0].end <= |text|
    requires var end := at + |WithNewline(text[fields[0].start..fields[0].end])|;
             OwnComesOff(text, path, fields[1..], out, end, end)
    ensures OwnComesOff(text, path, fields, out, at, last)
  {
    hide WithNewline, FieldsIn, Cut, Own, OwnFields, ExcludedField;
    OwnStep(text, path, fields, at);
    var f := fields[0];
    var end := at + |WithNewline(text[f.start..f.end])|;
    var own, rest := Field(f.key, at, end), OwnFields(text, path, fields[1..], end);
    OneMoreField(own, rest, out, last);
    CutStep(out, path, [own] + rest, last);
    assert out[end..end] == "";
  }

  lemma OwnSkips(text: string, path: seq<string>, fields: seq<Field>, out: string, at: nat, last: nat)
    requires FieldsIn(fields, text, 0) && fields != [] && !ExcludedField(path, fields[0].key)
    requires OwnComesOff(text, path, fields[1..], out, at, last)
    ensures OwnComesOff(text, path, fields, out, at, last)
  {
    hide WithNewline, FieldsIn, Cut, Own, OwnFields, ExcludedField;
    OwnStep(text, path, fields, at);
  }

  lemma {:induction false} CutOwnFields(text: string, path: seq<string>, fields: seq<Field>, out: string, at: nat,
                                        last: nat)
    requires FieldsIn(fields, text, 0) && last <= at && at + |Own(text, path, fields)| <= |out|
    ensures OwnComesOff(text, path, fields, out, at, last)
    decreases |fields|
  {
    hide WithNewline, FieldsIn, Own, OwnComesOff, ExcludedField;
    if fields == [] {
      OwnNone(text, path, out, at, last);
    } else {
      OwnStep(text, path, fields, at);
      var f := fields[0];
      if ExcludedField(path, f.key) {
        var end := at + |WithNewline(text[f.start..f.end])|;
        CutOwnFields(text, path, fields[1..], out, end, end);
        OwnFirst(text, path, fields, out, at, last);
      } else {
        CutOwnFields(text, path, fields[1..], out, at, last);
        OwnSkips(text, path, fields, out, at, last);
      }
    }
  }

  lemma OneMoreField(f: Field, rest: seq<Field>, text: string, last: nat)
    requires last <= f.start <= f.end <= |text| && FieldsIn(rest, text, f.end)
    ensures FieldsIn([f] + rest, text, last) && ([f] + rest)[1..] == rest
  {
    var all := [f] + rest;
    forall k | 0 <= k < |all| ensures last <= all[k].start <= all[k].end <= |text| {
      if k > 0 { assert all[k] == rest[k - 1]; }
    }
    forall k, l | 0 <= k < l < |all| ensures all[k].end <= all[l].start {
      assert all[l] == rest[l - 1];
      if k > 0 { assert all[k] == rest[k - 1]; }
    }
  }

  // This machine's keys put into the synced text come off again.
  lemma OwnFieldsComeOff(it: TomlItem, synced: string)
    requires FieldsFit(it)
    ensures var r := Rewritten(it, synced); FieldsFit(r) && ProjectedText(r) == KeepComments(it, synced)
  {
    hide KeepComments, IsTable;
    var body := KeepComments(it, synced);
    var at := HeaderEnd(body, 0);
    var out := WithOwnFields(it, body);
    CutOwnFields(it.text, it.path, it.fields, out, at, 0);
    assert out[..at] == body[..at];
    assert out[at + |OwnText(it)|..] == body[at..];
    assert body[..at] + body[at..] == body;
  }

  // And they are there.
  lemma OwnFieldsStay(it: TomlItem, synced: string)
    requires FieldsFit(it)
    ensures var r := Rewritten(it, synced);
            var at := HeaderEnd(KeepComments(it, synced), 0);
            at + |OwnText(it)| <= |r.text| && r.text[at..at + |OwnText(it)|] == OwnText(it)
  {
    hide KeepComments, IsTable, OwnFields;
    var body := KeepComments(it, synced);
    var at := HeaderEnd(body, 0);
    assert WithOwnFields(it, body)[at..at + |OwnText(it)|] == OwnText(it);
  }

  lemma RewrittenReads(it: TomlItem, s: Item, read: Reader)
    requires FieldsFit(it) && Quiet(read, LeadingComments(it.text)) && read(s.text) == Some(s.value)
    ensures FieldsFit(Rewritten(it, s.text)) && read(ProjectedText(Rewritten(it, s.text))) == Some(s.value)
  {
    hide Rewritten, ProjectedText, FieldsFit;
    OwnFieldsComeOff(it, s.text);
    if LeadingComments(s.text) == "" { assert KeepComments(it, s.text) == LeadingComments(it.text) + s.text; }
  }

  function ItemsOf(ws: seq<Written>): seq<TomlItem> {
    if ws == [] then [] else ItemsOf(ws[..|ws| - 1]) + [ws[|ws| - 1].item]
  }

  // What the written items are read as.
  ghost predicate ReadsAs(ws: seq<Written>, read: Reader, n: string, v: Option<string>) {
    && AllFit(ItemsOf(ws)) && Projected(ItemsOf(ws), read).Ok?
    && ValueOf(Projected(ItemsOf(ws), read).value, n) == v
  }

  // One more item written.
  lemma ReadsOneMore(ws: seq<Written>, w: Written, read: Reader, n: string, v: Option<string>)
    requires ReadsAs(ws, read, n, v) && FieldsFit(w.item)
    requires !ExcludedPath(w.item.path) ==> read(ProjectedText(w.item)).Some?
    ensures ReadsAs(ws + [w], read, n,
                    if w.item.name == n && !ExcludedPath(w.item.path) then read(ProjectedText(w.item)) else v)
  {
    hide FieldsFit, ProjectedText, ExcludedPath, WithNewline, Index;
    assert (ws + [w])[..|ws|] == ws;
    var a, b := ItemsOf(ws), ItemsOf(ws + [w]);
    assert b[..|b| - 1] == a;
    if !ExcludedPath(w.item.path) {
      var x := Item(w.item.name, read(ProjectedText(w.item)).value, WithNewline(ProjectedText(w.item)));
      IndexSnoc(Projected(a, read).value, x);
    }
  }

  ghost predicate Readable(local: seq<TomlItem>, synced: seq<Item>, read: Reader) {
    && (forall i :: 0 <= i < |local| ==> FieldsFit(local[i]) && Quiet(read, LeadingComments(local[i].text)))
    && (forall i :: 0 <= i < |synced| ==> read(synced[i].text) == Some(synced[i].value))
  }

  // What this machine's version of an item, or the synced one, comes to.
  ghost function Expected(it: TomlItem, synced: seq<Item>, keep: set<string>, read: Reader): Option<string>
    requires FieldsFit(it)
  {
    if ExcludedPath(it.path) then None
    else if it.name in keep then read(ProjectedText(it))
    else ValueOf(synced, it.name)
  }

  lemma ItemReads(it: TomlItem, synced: seq<Item>, keep: set<string>, read: Reader)
    requires FieldsFit(it) && Readable([it], synced, read) && (ExcludedPath(it.path) || read(ProjectedText(it)).Some?)
    ensures FieldsFit(it)
    ensures var w := ItemAfter(it, Lookup(Index(synced), it.name), it.name in keep, read);
            && (w.None? ==> Expected(it, synced, keep, read) == None)
            && (w.Some? ==> w.value.item.name == it.name && w.value.item.path == it.path && FieldsFit(w.value.item)
                            && (!ExcludedPath(it.path) ==>
                                  read(ProjectedText(w.value.item)).Some?
                                  && read(ProjectedText(w.value.item)) == Expected(it, synced, keep, read)))
  {
    hide ProjectedText, FieldsFit, ExcludedPath, Index, LeadingComments, Quiet;
    assert [it][0] == it;
    IndexHas(synced, it.name);
    if it.name in Index(synced) {
      var s := Index(synced)[it.name];
      var k :| 0 <= k < |synced| && synced[k] == s;
      RewrittenReads(it, s, read);
      RewrittenNames(it, s.text);
    }
  }

  lemma RewrittenNames(it: TomlItem, synced: string)
    requires FieldsFit(it)
    ensures Rewritten(it, synced).name == it.name && Rewritten(it, synced).path == it.path
  {
  }

  ghost function LocalSays(local: seq<TomlItem>, synced: seq<Item>, keep: set<string>, read: Reader,
                           n: string): Option<string>
    requires AllFit(local)
  {
    if local == [] then None
    else
      var k := |local| - 1;
      if local[k].name == n then Expected(local[k], synced, keep, read)
      else LocalSays(local[..k], synced, keep, read, n)
  }

  lemma {:induction false} KeptReads(local: seq<TomlItem>, synced: seq<Item>, keep: set<string>, read: Reader,
                                     n: string)
    requires Readable(local, synced, read) && NamesDistinct(local)
    requires forall i :: 0 <= i < |local| ==> ExcludedPath(local[i].path) || read(ProjectedText(local[i])).Some?
    ensures AllFit(local)
    ensures ReadsAs(KeptItems(local, Index(synced), keep, read), read, n, LocalSays(local, synced, keep, read, n))
  {
    hide ProjectedText, FieldsFit, ExcludedPath, Index, ItemAfter, ReadsAs, Expected, LeadingComments, Quiet;
    if local == [] {
      NothingReads(read, n);
    } else {
      var k := |local| - 1;
      var it := local[k];
      KeptReads(local[..k], synced, keep, read, n);
      ItemReads(it, synced, keep, read);
      var ws := KeptItems(local[..k], Index(synced), keep, read);
      var w := ItemAfter(it, Lookup(Index(synced), it.name), it.name in keep, read);
      if it.name == n {
        NotNamed(local[..k], synced, keep, read, n);
        ExcludedSaysNothing(it, synced, keep, read);
      }
      if w.Some? {
        ReadsOneMore(ws, w.value, read, n, LocalSays(local[..k], synced, keep, read, n));
      }
    }
  }

  lemma ExcludedSaysNothing(it: TomlItem, synced: seq<Item>, keep: set<string>, read: Reader)
    requires FieldsFit(it)
    ensures ExcludedPath(it.path) ==> Expected(it, synced, keep, read) == None
  {
  }

  lemma {:induction false} NotNamed(local: seq<TomlItem>, synced: seq<Item>, keep: set<string>, read: Reader, n: string)
    requires AllFit(local) && forall i :: 0 <= i < |local| ==> local[i].name != n
    ensures LocalSays(local, synced, keep, read, n) == None
  {
    hide Expected, FieldsFit;
    if local != [] { NotNamed(local[..|local| - 1], synced, keep, read, n); }
  }

  lemma NothingReads(read: Reader, n: string)
    ensures ReadsAs([], read, n, None)
  {
  }

  lemma {:induction false} NewReads(ws: seq<Written>, synced: seq<Item>, seen: set<string>, keep: set<string>,
                                    read: Reader,
                                    n: string, v: Option<string>)
    requires ReadsAs(ws, read, n, v)
    requires forall i :: 0 <= i < |synced| ==> read(synced[i].text) == Some(synced[i].value)
    ensures ReadsAs(ws + NewItems(synced, seen, keep), read, n,
                    if n !in seen && n !in keep && Has(synced, n) then ValueOf(synced, n) else v)
  {
    hide ReadsAs, Index;
    if synced == [] {
      assert ws + [] == ws;
    } else {
      var k := |synced| - 1;
      var s := synced[k];
      NewReads(ws, synced[..k], seen, keep, read, n, v);
      HasSnoc(synced, n);
      assert synced == synced[..k] + [s];
      IndexSnoc(synced[..k], s);
      var init := NewItems(synced[..k], seen, keep);
      if s.name !in seen && s.name !in keep {
        NewItemReads(s, read);
        var before := if n !in seen && n !in keep && Has(synced[..k], n) then ValueOf(synced[..k], n) else v;
        ReadsOneMore(ws + init, NewItem(s), read, n, before);
        assert ws + (init + [NewItem(s)]) == (ws + init) + [NewItem(s)];
      }
    }
  }

  lemma NewItemReads(s: Item, read: Reader)
    ensures FieldsFit(NewItem(s).item) && ProjectedText(NewItem(s).item) == s.text
    ensures !ExcludedPath(NewItem(s).item.path)
    ensures NewItem(s).item.name == s.name
  {
    assert s.text[0..] == s.text;
  }

  // Reading what was written: what is not synced says nothing, this machine's
  // own version of the items kept, the synced one of all others.
  lemma PutGet(local: seq<TomlItem>, synced: seq<Item>, keep: set<string>, read: Reader, n: string)
    requires Readable(local, synced, read) && NamesDistinct(local)
    requires forall i :: 0 <= i < |local| ==> ExcludedPath(local[i].path) || read(ProjectedText(local[i])).Some?
    ensures AllFit(local)
    ensures ReadsAs(Outcome(local, synced, keep, read), read, n,
                    if n in TomlNames(local) then LocalSays(local, synced, keep, read, n)
                    else if n in keep then None else ValueOf(synced, n))
  {
    hide ReadsAs, LocalSays, Index, FieldsFit, ProjectedText, ExcludedPath, LeadingComments, Quiet;
    KeptReads(local, synced, keep, read, n);
    NewReads(KeptItems(local, Index(synced), keep, read), synced, TomlNames(local), keep, read, n,
             LocalSays(local, synced, keep, read, n));
    IndexHas(synced, n);
    if n !in TomlNames(local) {
      forall i | 0 <= i < |local| ensures local[i].name != n { assert local[i].name in TomlNames(local); }
      NotNamed(local, synced, keep, read, n);
    }
  }

  // What LocalSays comes to for an item of the file.
  lemma {:induction false} LocalSaysOf(local: seq<TomlItem>, synced: seq<Item>, keep: set<string>, read: Reader, i: nat)
    requires AllFit(local) && NamesDistinct(local) && i < |local|
    ensures LocalSays(local, synced, keep, read, local[i].name)
            == if ExcludedPath(local[i].path) then None
               else if local[i].name in keep then read(ProjectedText(local[i]))
               else ValueOf(synced, local[i].name)
  {
    var k := |local| - 1;
    if i < k { LocalSaysOf(local[..k], synced, keep, read, i); }
  }

  // ------------------------------------------------ what is not synced stays

  function ExcludedItems(items: seq<TomlItem>): seq<TomlItem> {
    if items == [] then []
    else
      var init := ExcludedItems(items[..|items| - 1]);
      if ExcludedPath(items[|items| - 1].path) then init + [items[|items| - 1]] else init
  }

  lemma {:induction false} ExcludedAppend(a: seq<TomlItem>, b: seq<TomlItem>)
    ensures ExcludedItems(a + b) == ExcludedItems(a) + ExcludedItems(b)
  {
    if b == [] {
      assert a + b == a;
    } else {
      ExcludedAppend(a, b[..|b| - 1]);
      assert (a + b)[..|a + b| - 1] == a + b[..|b| - 1];
    }
  }

  lemma {:induction false} KeptExcluded(local: seq<TomlItem>, synced: map<string, Item>, keep: set<string>,
                                        read: Reader)
    requires AllFit(local)
    ensures ExcludedItems(ItemsOf(KeptItems(local, synced, keep, read))) == ExcludedItems(local)
  {
    hide ExcludedPath, FieldsFit, ItemAfter, ItemsOf, ExcludedItems;
    if local == [] {
      NothingExcluded();
    } else {
      var k := |local| - 1;
      var it := local[k];
      KeptExcluded(local[..k], synced, keep, read);
      var ws := KeptItems(local[..k], synced, keep, read);
      var w := ItemAfter(it, Lookup(synced, it.name), it.name in keep, read);
      OneAfter(it, Lookup(synced, it.name), it.name in keep, read);
      assert local == local[..k] + [it];
      ExcludedAppend(local[..k], [it]);
      OneExcluded(it);
      assert ExcludedItems(local[..k]) + [] == ExcludedItems(local[..k]);
      if w.Some? {
        ItemsOfSnoc(ws, w.value);
        ExcludedAppend(ItemsOf(ws), [w.value.item]);
        OneExcluded(w.value.item);
      }
    }
  }

  lemma NothingExcluded()
    ensures ExcludedItems([]) == [] && ItemsOf([]) == []
  {
  }

  lemma ItemsOfSnoc(ws: seq<Written>, w: Written)
    ensures ItemsOf(ws + [w]) == ItemsOf(ws) + [w.item]
  {
    assert (ws + [w])[..|ws|] == ws;
  }

  // What belongs to this machine is written as it is, and nothing else is
  // written as its.
  lemma OneAfter(it: TomlItem, synced: Option<Item>, kept: bool, read: Reader)
    requires FieldsFit(it)
    ensures var w := ItemAfter(it, synced, kept, read);
            && (ExcludedPath(it.path) ==> w.Some? && w.value.item == it)
            && (w.Some? ==> ExcludedPath(w.value.item.path) == ExcludedPath(it.path))
  {
    hide ExcludedPath, FieldsFit, ProjectedText, Rewritten;
    if synced.Some? { RewrittenNames(it, synced.value.text); }
  }

  lemma OneExcluded(it: TomlItem)
    ensures ExcludedItems([it]) == if ExcludedPath(it.path) then [it] else []
  {
    assert [it][..0] == [];
  }

  lemma {:induction false} NewAreSynced(synced: seq<Item>, seen: set<string>, keep: set<string>)
    ensures ExcludedItems(ItemsOf(NewItems(synced, seen, keep))) == []
  {
    if synced != [] {
      var k := |synced| - 1;
      NewAreSynced(synced[..k], seen, keep);
      var init := NewItems(synced[..k], seen, keep);
      assert (init + [NewItem(synced[k])])[..|init|] == init;
      ExcludedAppend(ItemsOf(init), [NewItem(synced[k]).item]);
      OneExcluded(NewItem(synced[k]).item);
    }
  }

  lemma {:induction false} ItemsOfAppend(a: seq<Written>, b: seq<Written>)
    ensures ItemsOf(a + b) == ItemsOf(a) + ItemsOf(b)
  {
    if b == [] {
      assert a + b == a;
    } else {
      ItemsOfAppend(a, b[..|b| - 1]);
      assert (a + b)[..|a + b| - 1] == a + b[..|b| - 1];
    }
  }

  // Every part that belongs to this machine is written as it was, in order.
  lemma UnsyncedStays(local: seq<TomlItem>, synced: seq<Item>, keep: set<string>, read: Reader)
    requires AllFit(local)
    ensures ExcludedItems(ItemsOf(Outcome(local, synced, keep, read))) == ExcludedItems(local)
  {
    var kept, more := KeptItems(local, Index(synced), keep, read), NewItems(synced, TomlNames(local), keep);
    KeptExcluded(local, Index(synced), keep, read);
    NewAreSynced(synced, TomlNames(local), keep);
    ItemsOfAppend(kept, more);
    ExcludedAppend(ItemsOf(kept), ItemsOf(more));
  }
}
