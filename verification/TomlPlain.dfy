// internal/structured/toml.go, line by line: which parts of config.toml are
// synced, where comments and this machine's keys go, and what makes an item.
module TomlPlain {
  import opened Options
  import opened Structured
  import opened Toml
  import TomlText

  // ------------------------------------------------------- what is synced

  // Trusted projects, the Desktop app's state, approved hooks and approved
  // MCP tools belong to the machine.
  predicate Stays(path: seq<string>) {
    || (|path| >= 1 && (path[0] == "projects" || path[0] == "desktop"))
    || (|path| >= 2 && path[0] == "hooks" && path[1] == "state")
    || (|path| >= 3 && path[0] == "mcp_servers" && path[2] == "tools")
  }

  // All else is synced.
  lemma SyncedExactly(items: seq<TomlItem>, read: Reader, i: nat)
    requires AllFit(items) && NamesDistinct(items) && Projected(items, read).Ok? && i < |items|
    ensures Has(Projected(items, read).value, items[i].name) <==> !Stays(items[i].path)
  {
    var got := Projected(items, read).value;
    StaysIs(items[i].path);
    IndexHas(got, items[i].name);
    if ExcludedPath(items[i].path) {
      assert items[..|items|] == items;
      TomlText.ExcludedSays(items, read, i, |items|);
    } else {
      ProjectedHas(items, read, i);
    }
  }

  lemma StaysIs(path: seq<string>)
    ensures ExcludedPath(path) <==> Stays(path)
  {
  }

  // The update bookkeeping of a marketplace is left out line by line.
  lemma OneKeyLine(path: seq<string>, name: string, key: string, above: string, line: string, below: string)
    ensures var it := TomlItem(path, name, true, above + line + below, [Field(key, |above|, |above| + |line|)]);
            && FieldsFit(it)
            && ProjectedText(it) == if |path| == 2 && path[0] == "marketplaces"
                                       && (key == "last_updated" || key == "last_revision")
                                    then above + below else above + line + below
  {
    var text := above + line + below;
    var f := Field(key, |above|, |above| + |line|);
    assert [f][1..] == [];
    CutStep(text, path, [f], 0);
    CutNothing(text, path, 0);
    CutNothing(text, path, |above| + |line|);
    hide Cut, FieldsIn;
    assert text[0..|above|] == above && text[|above| + |line|..] == below && text[0..] == text;
  }

  // ---------------------------------------------------------------- lines

  predicate IsLine(l: string) {
    l != "" && l[|l| - 1] == '\n' && forall k :: 0 <= k < |l| - 1 ==> l[k] != '\n'
  }

  ghost predicate AreLines(ls: seq<string>) {
    forall i :: 0 <= i < |ls| ==> IsLine(ls[i])
  }

  function Cat(ls: seq<string>): string {
    if ls == [] then "" else ls[0] + Cat(ls[1..])
  }

  lemma {:induction false} LineEndsAt(text: string, off: nat, k: nat)
    requires off <= k < |text| && text[k] == '\n' && forall i :: off <= i < k ==> text[i] != '\n'
    ensures LineEnd(text, off) == k + 1
    decreases k - off
  {
    if off < k { LineEndsAt(text, off + 1, k); }
  }

  lemma LineAt(above: string, l: string, rest: string)
    requires IsLine(l)
    ensures LineEnd(above + l + rest, |above|) == |above| + |l|
    ensures (above + l + rest)[|above|..|above| + |l|] == l
  {
    LineEndsAt(above + l + rest, |above|, |above| + |l| - 1);
  }

  // White space as Unicode has it (the property White_Space).
  predicate Space(c: char) {
    || c in "\t\n\r \U{0B}\U{0C}\U{85}\U{A0}\U{1680}\U{2028}\U{2029}\U{202F}\U{205F}\U{3000}"
    || '\U{2000}' <= c <= '\U{200A}'
  }

  lemma SpaceIs(c: char)
    ensures IsBlank(c) <==> Space(c)
  {
  }

  // The first character of a line that is none.
  lemma {:induction false} FirstVisibleIs(blanks: string, c: char, rest: string)
    requires (forall k :: 0 <= k < |blanks| ==> Space(blanks[k])) && !Space(c)
    ensures FirstVisible(blanks + [c] + rest) == Some(c) && FirstVisible(blanks) == None
  {
    hide Space, IsBlank;
    var line := blanks + [c] + rest;
    if blanks == "" {
      SpaceIs(c);
      assert line[0] == c;
    } else {
      SpaceIs(blanks[0]);
      FirstVisibleIs(blanks[1..], c, rest);
      assert line[1..] == blanks[1..] + [c] + rest;
    }
  }

  // A comment or a blank line.
  predicate Quiet(l: string) {
    FirstVisible(l) == None || FirstVisible(l) == Some('#')
  }

  // Comment and blank lines, and then a line of another kind.
  ghost predicate Commented(ls: seq<string>, line: string) {
    && AreLines(ls) && (forall i :: 0 <= i < |ls| ==> Quiet(ls[i]))
    && IsLine(line) && !Quiet(line)
  }

  lemma LeadStep(above: string, l: string, rest: string)
    requires IsLine(l)
    ensures LeadingEnd(above + l + rest, |above|)
            == if Quiet(l) then LeadingEnd(above + l + rest, |above| + |l|) else |above|
  {
    hide *;
    LineAt(above, l, rest);
    NotBlank(l);
    LeadFrom(above + l + rest, |above|, |above| + |l|, l);
  }

  lemma LeadFrom(text: string, off: nat, end: nat, l: string)
    requires off < end <= |text| && LineEnd(text, off) == end && text[off..end] == l
    ensures LeadingEnd(text, off) == if Quiet(l) then LeadingEnd(text, end) else off
  {
    hide FirstVisible, LineEnd;
  }

  lemma NotBlank(line: string)
    requires IsLine(line)
    ensures |line| > 0
  {
  }

  lemma Regroup(a: string, b: string, c: string, d: string, e: string)
    ensures a + (b + c) + d + e == a + b + (c + d + e) && (a + b) + c + d + e == a + (b + c) + d + e
    ensures "" + a + b + c == a + b + c && a + "" + b + c == a + b + c
  {
    assert a + (b + c) + d + e == a + b + (c + d + e);
  }

  lemma {:induction false} LeadEnds(above: string, ls: seq<string>, line: string, rest: string)
    requires Commented(ls, line)
    ensures LeadingEnd(above + Cat(ls) + line + rest, |above|) == |above| + |Cat(ls)|
    decreases |ls|
  {
    hide Quiet, LeadingEnd, IsLine;
    if ls == [] {
      Regroup(above, line, rest, "", "");
      LeadStep(above, line, rest);
    } else {
      var more := Cat(ls[1..]) + line + rest;
      Regroup(above, ls[0], Cat(ls[1..]), line, rest);
      LeadStep(above, ls[0], more);
      LeadEnds(above + ls[0], ls[1..], line, rest);
    }
  }

  // ---------------------------------------------------- comments and tables

  lemma CommentsAbove(ls: seq<string>, line: string, rest: string)
    requires Commented(ls, line)
    ensures LeadingComments(Cat(ls) + line + rest) == if '#' in Cat(ls) then Cat(ls) else ""
  {
    LeadEnds("", ls, line, rest);
    hide LeadingEnd, Commented, Cat;
    Regroup(Cat(ls), line, rest, "", "");
    SplitsAt(Cat(ls), line, rest);
  }

  lemma SplitsAt(a: string, b: string, c: string)
    ensures (a + b + c)[..|a|] == a
    ensures (a + b + c)[..|a| + |b|] == a + b && (a + b + c)[|a| + |b|..] == c
  {
  }

  // Comments above this machine's version of an item are kept where the
  // synced one has none, and give way to the synced ones else.
  lemma CommentsAreKept(path: seq<string>, name: string, table: bool, fields: seq<Field>,
                        ls: seq<string>, line: string, rest: string, ls': seq<string>, line': string, rest': string)
    requires Commented(ls, line) && Commented(ls', line')
    ensures var it := TomlItem(path, name, table, Cat(ls) + line + rest, fields);
            KeepComments(it, Cat(ls') + line' + rest')
            == if '#' in Cat(ls') || '#' !in Cat(ls) then Cat(ls') + line' + rest'
               else Cat(ls) + (Cat(ls') + line' + rest')
  {
    CommentsAbove(ls, line, rest);
    CommentsAbove(ls', line', rest');
    hide LeadingComments, Commented, Cat;
    var theirs := Cat(ls') + line' + rest';
    assert "" + theirs == theirs;
    NotEmpty(ls');
    NotEmpty(ls);
  }

  lemma NotEmpty(ls: seq<string>)
    ensures '#' in Cat(ls) ==> Cat(ls) != ""
  {
  }

  lemma TableLine(ls: seq<string>, line: string, rest: string)
    requires Commented(ls, line)
    ensures IsTable(Cat(ls) + line + rest) <==> FirstVisible(line) == Some('[')
  {
    LeadEnds("", ls, line, rest);
    LineAt(Cat(ls), line, rest);
    NotBlank(line);
    hide LeadingEnd, LineEnd, FirstVisible, Commented, Cat;
    Regroup(Cat(ls), line, rest, "", "");
  }

  // An item is a table exactly when its first line below the comments opens
  // with a bracket.
  lemma TablesOpenWithABracket(ls: seq<string>, blanks: string, c: char, more: string, rest: string)
    requires AreLines(ls) && forall i :: 0 <= i < |ls| ==> Quiet(ls[i])
    requires forall k :: 0 <= k < |blanks| ==> blanks[k] == ' ' || blanks[k] == '\t'
    requires 32 < c as int < 128 && c != '#' && IsLine(blanks + [c] + more)
    ensures IsTable(Cat(ls) + (blanks + [c] + more) + rest) <==> c == '['
  {
    hide IsTable, FirstVisible, IsLine, Cat;
    FirstVisibleIs(blanks, c, more);
    TableLine(ls, blanks + [c] + more, rest);
  }

  lemma {:induction false} OpensIs(blanks: string, rest: string)
    requires forall k :: 0 <= k < |blanks| ==> blanks[k] == ' ' || blanks[k] == '\t'
    requires rest == "" || (rest[0] != ' ' && rest[0] != '\t')
    ensures OpensHeader(blanks + rest) <==> rest != "" && rest[0] == '['
  {
    if blanks == "" {
      assert blanks + rest == rest;
    } else {
      OpensIs(blanks[1..], rest);
      assert (blanks + rest)[1..] == blanks[1..] + rest;
    }
  }

  lemma HeaderStep(above: string, l: string, rest: string)
    requires IsLine(l)
    ensures HeaderEnd(above + l + rest, |above|)
            == if OpensHeader(l) then |above| + |l| else HeaderEnd(above + l + rest, |above| + |l|)
  {
    hide *;
    LineAt(above, l, rest);
    NotBlank(l);
    HeaderFrom(above + l + rest, |above|, |above| + |l|, l);
  }

  lemma HeaderFrom(text: string, off: nat, end: nat, l: string)
    requires off < end <= |text| && LineEnd(text, off) == end && text[off..end] == l
    ensures HeaderEnd(text, off) == if OpensHeader(l) then end else HeaderEnd(text, end)
  {
    hide OpensHeader, LineEnd;
  }

  lemma {:induction false} HeaderEnds(above: string, ls: seq<string>, header: string, rest: string)
    requires AreLines(ls) && forall i :: 0 <= i < |ls| ==> !OpensHeader(ls[i])
    requires IsLine(header) && OpensHeader(header)
    ensures HeaderEnd(above + Cat(ls) + header + rest, |above|) == |above| + |Cat(ls)| + |header|
    decreases |ls|
  {
    hide OpensHeader, HeaderEnd, IsLine;
    if ls == [] {
      Regroup(above, header, rest, "", "");
      HeaderStep(above, header, rest);
    } else {
      Regroup(above, ls[0], Cat(ls[1..]), header, rest);
      HeaderStep(above, ls[0], Cat(ls[1..]) + header + rest);
      HeaderEnds(above + ls[0], ls[1..], header, rest);
    }
  }

  // This machine's keys are put right below the header line.
  lemma OwnKeysGoBelowTheHeader(it: TomlItem, ls: seq<string>, blanks: string, header: string, rest: string)
    requires FieldsFit(it) && AreLines(ls) && forall i :: 0 <= i < |ls| ==> !OpensHeader(ls[i])
    requires forall k :: 0 <= k < |blanks| ==> blanks[k] == ' ' || blanks[k] == '\t'
    requires IsLine(blanks + header) && header != "" && header[0] == '['
    ensures WithOwnFields(it, Cat(ls) + (blanks + header) + rest)
            == Cat(ls) + (blanks + header) + OwnText(it) + rest
  {
    OpensIs(blanks, header);
    hide HeaderEnd, OwnText, OpensHeader, IsLine, Cat, AreLines, FieldsFit;
    HeaderEnds("", ls, blanks + header, rest);
    Regroup(Cat(ls), blanks + header, rest, "", "");
    SplitsAt(Cat(ls), blanks + header, rest);
  }

  lemma {:induction false} NoHeader(above: string, ls: seq<string>)
    requires AreLines(ls) && forall i :: 0 <= i < |ls| ==> !OpensHeader(ls[i])
    ensures HeaderEnd(above + Cat(ls), |above|) == 0
    decreases |ls|
  {
    hide OpensHeader, HeaderEnd, IsLine;
    if ls == [] {
      NothingOpens(above);
    } else {
      assert above + (ls[0] + Cat(ls[1..])) == above + ls[0] + Cat(ls[1..]);
      HeaderStep(above, ls[0], Cat(ls[1..]));
      NoHeader(above + ls[0], ls[1..]);
    }
  }

  lemma NothingOpens(above: string)
    ensures HeaderEnd(above + "", |above|) == 0
  {
    assert above + "" == above;
  }

  // Without a header they come first.
  lemma OwnKeysComeFirst(it: TomlItem, ls: seq<string>)
    requires FieldsFit(it) && AreLines(ls) && forall i :: 0 <= i < |ls| ==> !OpensHeader(ls[i])
    ensures WithOwnFields(it, Cat(ls)) == OwnText(it) + Cat(ls)
  {
    hide *;
    NoHeader("", ls);
    assert "" + Cat(ls) == Cat(ls);
    PutFirst(it, Cat(ls));
  }

  lemma PutFirst(it: TomlItem, synced: string)
    requires FieldsFit(it) && HeaderEnd(synced, 0) == 0
    ensures WithOwnFields(it, synced) == OwnText(it) + synced
  {
    hide HeaderEnd, OwnText, FieldsFit;
    assert synced[..0] + OwnText(it) == OwnText(it) && synced[0..] == synced;
  }

  predicate Blank(text: string) {
    |text| >= 2 && text[|text| - 2..] == "\n\n"
  }

  // A table new to the file stands below a blank line, or first.
  lemma NewTablesStandApart(t: Text, it: TomlItem)
    requires it.table && (t.root + t.tables == "" || EndsLine(t.root + t.tables))
    ensures var after := AddText(t, Written(it, true));
            && after.root == t.root
            && exists above :: after.tables == above + WithNewline(it.text) && t.tables <= above
                               && (t.root + above == "" || Blank(t.root + above))
  {
    hide WithNewline;
    var all := t.root + t.tables;
    if all == "" || EndsBlank(all) {
      assert AddText(t, Written(it, true)).tables == t.tables + WithNewline(it.text);
    } else {
      var above := t.tables + "\n";
      assert AddText(t, Written(it, true)).tables == above + WithNewline(it.text);
      assert t.root + above == all + "\n";
      assert (all + "\n")[|all|] == '\n' && (all + "\n")[|all| - 1] == all[|all| - 1];
    }
  }

  // ---------------------------------------------------- what is written

  // An item of the file as it is, or one written from its synced text, in the
  // place of the file's version or as new. It goes with the tables exactly
  // when the synced text is one.
  ghost predicate WrittenFrom(w: Written, local: seq<TomlItem>, synced: seq<Item>)
    requires AllFit(local)
  {
    || (w.item in local && !w.isNew)
    || exists s :: s in synced && s.name == w.item.name && w.item.table == IsTable(s.text)
                   && if w.isNew then
                        w.item.text == s.text && s.name !in TomlNames(local)
                      else
                        exists it :: it in local && it.name == s.name && it.path == w.item.path
                                     && w.item.text == WithOwnFields(it, KeepComments(it, s.text))
  }

  lemma {:induction false} KeptFrom(local: seq<TomlItem>, all: seq<TomlItem>, synced: seq<Item>, keep: set<string>,
                                    read: Reader, w: Written)
    requires AllFit(local) && AllFit(all) && (forall it :: it in local ==> it in all)
    requires w in KeptItems(local, Index(synced), keep, read)
    ensures WrittenFrom(w, all, synced)
  {
    hide FieldsFit, IsTable, WithOwnFields, KeepComments, OwnFields, Index, ProjectedText, TomlNames, ExcludedPath;
    var n := |local| - 1;
    if w in KeptItems(local[..n], Index(synced), keep, read) {
      KeptFrom(local[..n], all, synced, keep, read, w);
    } else {
      var it := local[n];
      assert it in all;
      IndexHas(synced, it.name);
      assert Some(w) == ItemAfter(it, Lookup(Index(synced), it.name), it.name in keep, read);
    }
  }

  lemma {:induction false} NewFrom(synced: seq<Item>, all: seq<Item>, local: seq<TomlItem>, keep: set<string>,
                                   w: Written)
    requires AllFit(local) && (forall s :: s in synced ==> s in all)
    requires w in NewItems(synced, TomlNames(local), keep)
    ensures WrittenFrom(w, local, all)
  {
    hide FieldsFit, IsTable, WithOwnFields, KeepComments, TomlNames;
    var n := |synced| - 1;
    if w in NewItems(synced[..n], TomlNames(local), keep) {
      NewFrom(synced[..n], all, local, keep, w);
    } else {
      assert w == NewItem(synced[n]) && synced[n] in all;
    }
  }

  lemma EachIsWrittenFrom(local: seq<TomlItem>, synced: seq<Item>, keep: set<string>, read: Reader, w: Written)
    requires AllFit(local) && w in Outcome(local, synced, keep, read)
    ensures WrittenFrom(w, local, synced)
  {
    if w in KeptItems(local, Index(synced), keep, read) {
      KeptFrom(local, local, synced, keep, read, w);
    } else {
      NewFrom(synced, synced, local, keep, w);
    }
    hide WrittenFrom, KeptItems, NewItems;
  }

  // The texts of the tables, or of the other items, in order, each with its
  // last line ended.
  function TextsOf(items: seq<Item>, tables: bool): string {
    if items == [] then ""
    else
      var init, text := TextsOf(items[..|items| - 1], tables), items[|items| - 1].text;
      if IsTable(text) == tables then init + (if text != "" && text[|text| - 1] != '\n' then text + "\n" else text)
      else init
  }

  // The synced form is all top-level keys and then all tables, with nothing
  // between them.
  lemma {:induction false} RenderedIs(items: seq<Item>)
    ensures Assembled(TomlText.AsRendered(items)) == Text(TextsOf(items, false), TextsOf(items, true))
    ensures TomlText.TextPut(TomlText.AsRendered(items)) == TextsOf(items, false) + TextsOf(items, true)
  {
    hide IsTable;
    if items != [] {
      var n := |items| - 1;
      RenderedIs(items[..n]);
      var w := NewItem(items[n]).(isNew := false);
      assert TomlText.AsRendered(items) == TomlText.AsRendered(items[..n]) + [w];
      AssembledSnoc(TomlText.AsRendered(items[..n]), w);
    }
  }

  // -------------------------------------------------------- what is an item

  ghost predicate Inside(ks: seq<Expr>) {
    forall i :: 0 <= i < |ks| ==> ks[i].Comment? || (ks[i].KeyValue? && ks[i].path != [])
  }

  // A header starts an item of its own, under its name; one of an array of
  // tables is told from a plain table.
  lemma HeaderStarts(xs: seq<Expr>, at: nat, path: seq<string>, repeated: bool, nameOf: Naming)
    requires HavePaths(xs)
    requires var heads := Scanned(xs, nameOf).heads;
             heads == [] || heads[|heads| - 1].name != nameOf(path) + "[]"
    ensures HavePaths(xs + [Header(at, path, repeated)])
    ensures var s := Scanned(xs + [Header(at, path, repeated)], nameOf);
            && s.heads == Scanned(xs, nameOf).heads
                          + [Head(path, if repeated then nameOf(path) + "[]" else nameOf(path), true)]
            && s.current == Some(|s.heads| - 1)
  {
    assert (xs + [Header(at, path, repeated)])[..|xs|] == xs;
  }

  // Below it, comments and keys start none, and every key is one of its
  // fields, by the first part of its name.
  lemma {:induction false} KeysStayInside(xs: seq<Expr>, ks: seq<Expr>, nameOf: Naming)
    requires HavePaths(xs) && Inside(ks) && Scanned(xs, nameOf).current.Some?
    ensures HavePaths(xs + ks)
    ensures var s, t := Scanned(xs, nameOf), Scanned(xs + ks, nameOf);
            && t.heads == s.heads && t.starts == s.starts && t.current == s.current
            && (ks != [] && ks[|ks| - 1].KeyValue? ==>
                  t.spans != [] && var k, last := ks[|ks| - 1], t.spans[|t.spans| - 1];
                  last == Span(s.current.value, k.at, k.end, k.path[0]))
  {
    if ks == [] {
      assert xs + ks == xs;
    } else {
      KeysStayInside(xs, ks[..|ks| - 1], nameOf);
      assert (xs + ks)[..|xs + ks| - 1] == xs + ks[..|ks| - 1];
    }
  }

  // Blocks of one array that follow each other are one item.
  lemma BlocksAreOneItem(xs: seq<Expr>, ks: seq<Expr>, at: nat, next: nat, path: seq<string>, nameOf: Naming)
    requires HavePaths(xs) && Inside(ks)
    requires var heads := Scanned(xs, nameOf).heads;
             heads == [] || heads[|heads| - 1].name != nameOf(path) + "[]"
    ensures HavePaths(xs + [Header(at, path, true)] + ks + [Header(next, path, true)])
    ensures Scanned(xs + [Header(at, path, true)] + ks + [Header(next, path, true)], nameOf).heads
            == Scanned(xs, nameOf).heads + [Head(path, nameOf(path) + "[]", true)]
  {
    var first, last := xs + [Header(at, path, true)], Header(next, path, true);
    hide Scanned, Inside, Step, HavePaths;
    HeaderStarts(xs, at, path, true, nameOf);
    KeysStayInside(first, ks, nameOf);
    OneMore(first + ks, last, nameOf);
    AnotherBlock(Scanned(first + ks, nameOf), next, path, nameOf);
  }

  lemma AnotherBlock(s: Scan, at: nat, path: seq<string>, nameOf: Naming)
    requires s.heads != [] && s.heads[|s.heads| - 1].name == nameOf(path) + "[]" && s.current == Some(|s.heads| - 1)
    ensures Step(s, Header(at, path, true), nameOf).heads == s.heads
  {
  }

  lemma OneMore(xs: seq<Expr>, e: Expr, nameOf: Naming)
    requires HavePaths(xs) && (e.KeyValue? ==> e.path != [])
    ensures HavePaths(xs + [e]) && Scanned(xs + [e], nameOf) == Step(Scanned(xs, nameOf), e, nameOf)
  {
    hide Step;
    assert (xs + [e])[..|xs|] == xs;
  }

  // Before any table every key is an item.
  lemma TopLevelKeys(xs: seq<Expr>, at: nat, end: nat, path: seq<string>, nameOf: Naming)
    requires HavePaths(xs) && path != [] && Scanned(xs, nameOf).current.None?
    ensures HavePaths(xs + [KeyValue(at, end, path)])
    ensures Scanned(xs + [KeyValue(at, end, path)], nameOf).heads
            == Scanned(xs, nameOf).heads + [Head(path, nameOf(path), false)]
  {
    assert (xs + [KeyValue(at, end, path)])[..|xs|] == xs;
  }
}
