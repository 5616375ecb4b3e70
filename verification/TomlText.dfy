// internal/structured/toml.go: the texts that Render and Apply put together
// are split back into the items they were written from, so a machine reads
// what another one wrote.
module TomlText {
  import opened Options
  import opened Structured
  import opened Toml

  // ------------------------------------------------------ texts put together

  function Shift(e: Expr, off: nat): Expr {
    match e
    case Comment(at) => Comment(at + off)
    case KeyValue(at, end, path) => KeyValue(at + off, end + off, path)
    case Header(at, path, repeated) => Header(at + off, path, repeated)
  }

  function Shifted(exprs: seq<Expr>, off: nat): seq<Expr> {
    seq(|exprs|, i requires 0 <= i < |exprs| => Shift(exprs[i], off))
  }

  // The text of one item: what stands above it, its own lines, and the
  // comments below it, which wait for the next item. With it what the parser
  // reports of it alone.
  datatype Part = Part(lead: string, core: string, tail: string, waits: bool, exprs: seq<Expr>, head: Head,
                       fields: seq<Field>)
  {
    function Text(): string {
      lead + core + tail
    }

    // The parser finds just this item, and the comments around it are quiet.
    ghost predicate Parsed(nameOf: Naming, read: Reader) {
      && HavePaths(exprs) && Placed(Text(), exprs) && EndsLine(Text())
      && FieldsIn(fields, core, 0) && (!waits ==> tail == "")
      && Quiet(read, lead) && Quiet(read, tail)
      && var s := Scanned(exprs, nameOf);
         && s.heads == [head] && s.starts == [|lead|] && FieldsOf(s.spans, 0, |lead|) == fields
         && s.pending == if waits then Some(|lead| + |core|) else None
    }

    function Value(read: Reader): Option<string>
      requires FieldsIn(fields, core, 0)
    {
      read(Cut(core, head.path, fields, 0))
    }
  }

  function TextOf(ps: seq<Part>): string {
    if ps == [] then "" else TextOf(ps[..|ps| - 1]) + ps[|ps| - 1].Text()
  }

  // The parser reads line by line: of texts put together it reports what it
  // reports of each, further down.
  function ExprsOf(ps: seq<Part>): seq<Expr> {
    if ps == [] then []
    else ExprsOf(ps[..|ps| - 1]) + Shifted(ps[|ps| - 1].exprs, |TextOf(ps[..|ps| - 1])|)
  }

  // ------------------------------------------------ scanning goes on after s

  function MovedStarts(starts: seq<nat>, pending: Option<nat>, off: nat): seq<nat> {
    seq(|starts|, i requires 0 <= i < |starts| => if i == 0 && pending.Some? then pending.value else starts[i] + off)
  }

  function Moved(spans: seq<Span>, items: nat, off: nat): seq<Span> {
    seq(|spans|, k requires 0 <= k < |spans| =>
      Span(spans[k].item + items, spans[k].start + off, spans[k].end + off, spans[k].key))
  }

  function Later(at: Option<nat>, off: nat): Option<nat> {
    if at.Some? then Some(at.value + off) else None
  }

  // What scanning a text makes of s, given what it makes of it alone.
  function Continued(s: Scan, t: Scan, off: nat): Scan {
    Scan(s.heads + t.heads, s.starts + MovedStarts(t.starts, s.pending, off), s.spans + Moved(t.spans, |s.heads|, off),
         if t.heads == [] && s.pending.Some? then s.pending else Later(t.pending, off),
         if t.current.Some? then Later(t.current, |s.heads|) else s.current)
  }

  // The table that keys belong to is the last item, and there is one once a
  // table was read.
  ghost predicate Current(s: Scan) {
    && |s.starts| == |s.heads|
    && (s.current.Some? ==> s.heads != [] && s.current.value == |s.heads| - 1 && s.heads[|s.heads| - 1].table)
    && (s.current.None? ==> forall i :: 0 <= i < |s.heads| ==> !s.heads[i].table)
  }

  // After a table only tables may follow, and no item is named again.
  ghost predicate Follows(s: Scan, heads: seq<Head>) {
    && (s.current.Some? ==> forall j :: 0 <= j < |heads| ==> heads[j].table)
    && (forall i, j :: 0 <= i < |s.heads| && 0 <= j < |heads| ==> s.heads[i].name != heads[j].name)
  }

  lemma CommentContinues(s: Scan, t: Scan, e: Expr, off: nat, nameOf: Naming)
    requires e.Comment?
    ensures Step(Continued(s, t, off), Shift(e, off), nameOf) == Continued(s, Step(t, e, nameOf), off)
  {
  }

  lemma KeyContinues(s: Scan, t: Scan, e: Expr, off: nat, nameOf: Naming)
    requires e.KeyValue? && e.path != [] && Current(t) && Follows(s, Step(t, e, nameOf).heads)
    ensures Step(Continued(s, t, off), Shift(e, off), nameOf) == Continued(s, Step(t, e, nameOf), off)
  {
    var c, u := Continued(s, t, off), Step(t, e, nameOf);
    if t.current.Some? {
      MovedSnoc(t.spans, u.spans[|t.spans|], |s.heads|, off);
    } else {
      assert u.heads[|t.heads|] == Head(e.path, nameOf(e.path), false);
      StartsSnoc(t.starts, StartAt(t, e.at), s.pending, off);
      assert s.heads + t.heads + [Head(e.path, nameOf(e.path), false)] == s.heads + u.heads;
    }
  }

  lemma HeaderContinues(s: Scan, t: Scan, e: Expr, off: nat, nameOf: Naming)
    requires e.Header? && Current(s) && Current(t) && Follows(s, Step(t, e, nameOf).heads)
    ensures Step(Continued(s, t, off), Shift(e, off), nameOf) == Continued(s, Step(t, e, nameOf), off)
  {
    var c, u := Continued(s, t, off), Step(t, e, nameOf);
    if SameRun(t, e, nameOf) {
      assert c.heads[|c.heads| - 1] == t.heads[|t.heads| - 1];
    } else {
      assert u.heads[|t.heads|] == Head(e.path, HeaderName(e, nameOf), true);
      if t.heads != [] { assert c.heads[|c.heads| - 1] == t.heads[|t.heads| - 1]; }
      StartsSnoc(t.starts, StartAt(t, e.at), s.pending, off);
      assert s.heads + t.heads + [u.heads[|t.heads|]] == s.heads + u.heads;
    }
  }

  lemma MovedSnoc(spans: seq<Span>, x: Span, items: nat, off: nat)
    ensures Moved(spans + [x], items, off)
            == Moved(spans, items, off) + [Span(x.item + items, x.start + off, x.end + off, x.key)]
  {
  }

  lemma StartsSnoc(starts: seq<nat>, at: nat, pending: Option<nat>, off: nat)
    ensures MovedStarts(starts + [at], pending, off)
            == MovedStarts(starts, pending, off)
               + [if starts == [] && pending.Some? then pending.value else at + off]
  {
  }

  lemma {:induction false} ScanIsCurrent(exprs: seq<Expr>, nameOf: Naming)
    requires HavePaths(exprs)
    ensures Current(Scanned(exprs, nameOf))
  {
    if exprs != [] { ScanIsCurrent(exprs[..|exprs| - 1], nameOf); }
  }

  lemma FollowsSoFar(s: Scan, t: Scan, e: Expr, nameOf: Naming)
    requires (e.KeyValue? ==> e.path != []) && Follows(s, Step(t, e, nameOf).heads)
    ensures Follows(s, t.heads)
  {
    var u := Step(t, e, nameOf);
    assert forall j :: 0 <= j < |t.heads| ==> u.heads[j] == t.heads[j];
  }

  lemma StepContinues(s: Scan, t: Scan, e: Expr, off: nat, nameOf: Naming)
    requires (e.KeyValue? ==> e.path != []) && Current(s) && Current(t) && Follows(s, Step(t, e, nameOf).heads)
    ensures Step(Continued(s, t, off), Shift(e, off), nameOf) == Continued(s, Step(t, e, nameOf), off)
  {
    hide Step, Follows, Current, Continued;
    match e
    case Comment(_) => CommentContinues(s, t, e, off, nameOf);
    case KeyValue(_, _, _) => KeyContinues(s, t, e, off, nameOf);
    case Header(_, _, _) => HeaderContinues(s, t, e, off, nameOf);
  }

  lemma NothingFollows(s: Scan, off: nat)
    ensures Continued(s, Scan([], [], [], None, None), off) == s
  {
  }

  lemma OneMoreExpr(a: seq<Expr>, b: seq<Expr>, off: nat, nameOf: Naming)
    requires b != [] && HavePaths(a) && HavePaths(b) && HavePaths(a + Shifted(b[..|b| - 1], off))
    ensures HavePaths(a + Shifted(b, off))
    ensures Scanned(a + Shifted(b, off), nameOf)
            == Step(Scanned(a + Shifted(b[..|b| - 1], off), nameOf), Shift(b[|b| - 1], off), nameOf)
  {
    hide Step;
    var all := a + Shifted(b, off);
    assert all[..|all| - 1] == a + Shifted(b[..|b| - 1], off) && all[|all| - 1] == Shift(b[|b| - 1], off);
  }

  lemma {:induction false} ScansContinue(a: seq<Expr>, b: seq<Expr>, off: nat, nameOf: Naming)
    requires HavePaths(a) && HavePaths(b) && Follows(Scanned(a, nameOf), Scanned(b, nameOf).heads)
    ensures HavePaths(a + Shifted(b, off))
    ensures Scanned(a + Shifted(b, off), nameOf) == Continued(Scanned(a, nameOf), Scanned(b, nameOf), off)
  {
    hide Step, Follows, Current, Continued;
    var s := Scanned(a, nameOf);
    if b == [] {
      assert a + Shifted(b, off) == a;
      NothingFollows(s, off);
    } else {
      var n := |b| - 1;
      var t := Scanned(b[..n], nameOf);
      FollowsSoFar(s, t, b[n], nameOf);
      ScansContinue(a, b[..n], off, nameOf);
      ScanIsCurrent(a, nameOf);
      ScanIsCurrent(b[..n], nameOf);
      StepContinues(s, t, b[n], off, nameOf);
      OneMoreExpr(a, b, off, nameOf);
    }
  }

  // ------------------------------------------------------- what a whole holds

  // Where the lines of an item start.
  function CoreAt(ps: seq<Part>, i: nat): nat
    requires i < |ps|
  {
    |TextOf(ps[..i])| + |ps[i].lead|
  }

  // What an item has above its lines in the whole: the comments the item
  // before it had below, and then its own.
  function Above(ps: seq<Part>, i: nat): string
    requires i < |ps|
  {
    if i == 0 then ps[i].lead else if ps[i - 1].waits then ps[i - 1].tail + ps[i].lead else ""
  }

  // And below: what stands above the next item, where no comment waited.
  function Below(ps: seq<Part>, i: nat): string
    requires i < |ps|
  {
    if i + 1 == |ps| then ps[i].tail else if ps[i].waits then "" else ps[i + 1].lead
  }

  function MovedFields(fields: seq<Field>, off: int): seq<Field> {
    seq(|fields|, k requires 0 <= k < |fields| => Field(fields[k].key, fields[k].start + off, fields[k].end + off))
  }

  function ItemIn(ps: seq<Part>, i: nat): TomlItem
    requires i < |ps|
  {
    TomlItem(ps[i].head.path, ps[i].head.name, ps[i].head.table, Above(ps, i) + ps[i].core + Below(ps, i),
             MovedFields(ps[i].fields, |Above(ps, i)|))
  }

  ghost predicate AllParsed(ps: seq<Part>, nameOf: Naming, read: Reader) {
    forall i :: 0 <= i < |ps| ==> ps[i].Parsed(nameOf, read)
  }

  // Top-level keys before tables, and no name twice.
  ghost predicate InOrder(ps: seq<Part>) {
    && (forall i, j :: 0 <= i < j < |ps| && ps[i].head.table ==> ps[j].head.table)
    && (forall i, j :: 0 <= i < j < |ps| ==> ps[i].head.name != ps[j].head.name)
  }

  function Waiting(ps: seq<Part>): Option<nat> {
    if ps != [] && ps[|ps| - 1].waits then Some(|TextOf(ps[..|ps| - 1])| + |ps[|ps| - 1].lead| + |ps[|ps| - 1].core|)
    else None
  }

  // Where its item starts.
  function StartIn(ps: seq<Part>, i: nat): int
    requires i < |ps|
  {
    if i == 0 then CoreAt(ps, 0) else CoreAt(ps, i) - |Above(ps, i)|
  }

  // The scan of a whole: every part's item, starting where its comments do.
  ghost predicate ScannedAs(ps: seq<Part>, s: Scan) {
    && |s.heads| == |s.starts| == |ps|
    && (forall i :: 0 <= i < |ps| ==> s.heads[i] == ps[i].head)
    && (forall i :: 0 <= i < |ps| ==> s.starts[i] == StartIn(ps, i))
    && s.pending == Waiting(ps)
  }

  // And the key lines of each.
  ghost predicate FieldsScanned(ps: seq<Part>, spans: seq<Span>) {
    && (forall k :: 0 <= k < |spans| ==> spans[k].item < |ps|)
    && (forall i, start: nat :: 0 <= i < |ps| ==>
          FieldsOf(spans, i, start) == MovedFields(ps[i].fields, CoreAt(ps, i) - start))
  }

  // Nothing of it depends on the parts further down.
  lemma SameSoFar(ps: seq<Part>, i: nat)
    requires i + 1 < |ps|
    ensures CoreAt(ps[..|ps| - 1], i) == CoreAt(ps, i) && StartIn(ps[..|ps| - 1], i) == StartIn(ps, i)
  {
    hide TextOf;
    assert ps[..|ps| - 1][..i] == ps[..i];
  }

  // What the scan of a part alone says.
  ghost predicate Alone(p: Part, t: Scan) {
    && t.heads == [p.head] && t.starts == [|p.lead|] && (!p.waits ==> p.tail == "")
    && t.pending == if p.waits then Some(|p.lead| + |p.core|) else None
  }

  lemma WaitsFor(ps: seq<Part>)
    requires ps != [] && (!ps[|ps| - 1].waits ==> ps[|ps| - 1].tail == "")
    ensures Waiting(ps) == if ps[|ps| - 1].waits then Some(|TextOf(ps)| - |ps[|ps| - 1].tail|) else None
    ensures |TextOf(ps)| == |TextOf(ps[..|ps| - 1])| + |ps[|ps| - 1].Text()|
  {
  }

  // Where the last part's item starts.
  lemma LastStart(ps: seq<Part>, s: Scan, t: Scan)
    requires ps != [] && Alone(ps[|ps| - 1], t) && s.pending == Waiting(ps[..|ps| - 1])
    requires |ps| > 1 && !ps[|ps| - 2].waits ==> ps[|ps| - 2].tail == ""
    ensures var off := |TextOf(ps[..|ps| - 1])|;
            && MovedStarts(t.starts, s.pending, off) == [StartIn(ps, |ps| - 1)]
            && Later(t.pending, off) == Waiting(ps)
  {
    hide TextOf;
    var n := |ps| - 1;
    if n > 0 {
      assert ps[..n][n - 1] == ps[n - 1] && ps[..n][..n - 1] == ps[..n - 1];
      WaitsFor(ps[..n]);
    }
    CoreAtLast(ps);
  }

  lemma CoreAtLast(ps: seq<Part>)
    requires ps != []
    ensures CoreAt(ps, |ps| - 1) == |TextOf(ps[..|ps| - 1])| + |ps[|ps| - 1].lead|
  {
  }

  lemma {:induction false} OnePartMore(ps: seq<Part>, s: Scan, t: Scan)
    requires ps != [] && ScannedAs(ps[..|ps| - 1], s) && Alone(ps[|ps| - 1], t)
    requires |ps| > 1 && !ps[|ps| - 2].waits ==> ps[|ps| - 2].tail == ""
    ensures ScannedAs(ps, Continued(s, t, |TextOf(ps[..|ps| - 1])|))
  {
    hide TextOf, MovedStarts, StartIn, Waiting, Later;
    var n := |ps| - 1;
    var c := Continued(s, t, |TextOf(ps[..n])|);
    LastStart(ps, s, t);
    forall i | 0 <= i < n ensures c.heads[i] == ps[i].head && c.starts[i] == StartIn(ps, i) {
      SameSoFar(ps, i);
      assert ps[..n][i] == ps[i];
    }
  }

  lemma {:induction false} FieldsMoved(spans: seq<Span>, items: nat, off: nat, i: nat, start: nat, lead: nat)
    ensures FieldsOf(Moved(spans, items, off), items + i, start)
            == MovedFields(FieldsOf(spans, i, lead), lead + off - start)
  {
    if spans != [] {
      var k := |spans| - 1;
      FieldsMoved(spans[..k], items, off, i, start, lead);
      assert spans == spans[..k] + [spans[k]];
      MovedSnoc(spans[..k], spans[k], items, off);
      var all := Moved(spans, items, off);
      assert all[..k] == Moved(spans[..k], items, off);
      MovedFieldsSnoc(FieldsOf(spans[..k], i, lead), Field(spans[k].key, spans[k].start - lead, spans[k].end - lead),
                      lead + off - start);
    }
  }

  lemma MovedFieldsSnoc(fields: seq<Field>, f: Field, off: int)
    ensures MovedFields(fields + [f], off) == MovedFields(fields, off) + [Field(f.key, f.start + off, f.end + off)]
  {
  }

  lemma {:induction false} FieldsOfBoth(a: seq<Span>, b: seq<Span>, i: nat, start: nat)
    ensures FieldsOf(a + b, i, start) == FieldsOf(a, i, start) + FieldsOf(b, i, start)
  {
    if b == [] {
      assert a + b == a;
    } else {
      FieldsOfBoth(a, b[..|b| - 1], i, start);
      assert (a + b)[..|a + b| - 1] == a + b[..|b| - 1];
    }
  }

  lemma {:induction false} NoFields(spans: seq<Span>, i: nat, start: nat)
    requires forall k :: 0 <= k < |spans| ==> spans[k].item != i
    ensures FieldsOf(spans, i, start) == []
  {
    if spans != [] { NoFields(spans[..|spans| - 1], i, start); }
  }

  lemma {:induction false} OnePartsFields(ps: seq<Part>, spans: seq<Span>, more: seq<Span>)
    requires ps != [] && FieldsScanned(ps[..|ps| - 1], spans)
    requires forall k :: 0 <= k < |more| ==> more[k].item == 0
    requires FieldsOf(more, 0, |ps[|ps| - 1].lead|) == ps[|ps| - 1].fields
    ensures FieldsScanned(ps, spans + Moved(more, |ps| - 1, |TextOf(ps[..|ps| - 1])|))
  {
    var n := |ps| - 1;
    var moved := Moved(more, n, |TextOf(ps[..n])|);
    MovedItems(more, n, |TextOf(ps[..n])|);
    forall i: nat, start: nat | i < |ps|
      ensures FieldsOf(spans + moved, i, start) == MovedFields(ps[i].fields, CoreAt(ps, i) - start)
    {
      FieldsOfPart(ps, spans, more, i, start);
    }
    hide FieldsOf, Moved, CoreAt, TextOf, MovedFields;
  }

  lemma {:induction false} FieldsOfPart(ps: seq<Part>, spans: seq<Span>, more: seq<Span>, i: nat, start: nat)
    requires ps != [] && FieldsScanned(ps[..|ps| - 1], spans) && i < |ps|
    requires forall k :: 0 <= k < |more| ==> more[k].item == 0
    requires FieldsOf(more, 0, |ps[|ps| - 1].lead|) == ps[|ps| - 1].fields
    ensures FieldsOf(spans + Moved(more, |ps| - 1, |TextOf(ps[..|ps| - 1])|), i, start)
            == MovedFields(ps[i].fields, CoreAt(ps, i) - start)
  {
    var n := |ps| - 1;
    var off := |TextOf(ps[..n])|;
    var moved := Moved(more, n, off);
    hide FieldsOf, Moved, CoreAt, TextOf, MovedFields;
    FieldsOfBoth(spans, moved, i, start);
    MovedItems(more, n, off);
    if i < n {
      NoFields(moved, i, start);
      SameSoFar(ps, i);
      assert ps[..n][i] == ps[i];
      assert FieldsOf(spans, i, start) == MovedFields(ps[i].fields, CoreAt(ps, i) - start);
    } else {
      NoFields(spans, n, start);
      FieldsMoved(more, n, off, 0, start, |ps[n].lead|);
      CoreAtLast(ps);
    }
  }

  lemma MovedItems(spans: seq<Span>, items: nat, off: nat)
    requires forall k :: 0 <= k < |spans| ==> spans[k].item == 0
    ensures forall k :: 0 <= k < |Moved(spans, items, off)| ==> Moved(spans, items, off)[k].item == items
  {
  }

  lemma HeadsFollow(ps: seq<Part>, s: Scan)
    requires InOrder(ps) && ps != [] && ScannedAs(ps[..|ps| - 1], s) && Current(s)
    ensures Follows(s, [ps[|ps| - 1].head])
  {
    hide TextOf, StartIn, Waiting;
    var n := |ps| - 1;
    assert forall i :: 0 <= i < n ==> ps[..n][i] == ps[i];
  }

  lemma OnlyItem(s: Scan)
    requires |s.heads| == 1 && SpansInside(s)
    ensures forall k :: 0 <= k < |s.spans| ==> s.spans[k].item == 0
  {
  }

  ghost predicate SpansInside(s: Scan) {
    forall k :: 0 <= k < |s.spans| ==> s.spans[k].item < |s.heads|
  }

  lemma {:induction false} ScanInside(exprs: seq<Expr>, nameOf: Naming)
    requires HavePaths(exprs)
    ensures SpansInside(Scanned(exprs, nameOf))
  {
    if exprs != [] {
      ScanIsCurrent(exprs[..|exprs| - 1], nameOf);
      ScanInside(exprs[..|exprs| - 1], nameOf);
    }
  }

  // One part after the others.
  lemma {:induction false} ScanStep(ps: seq<Part>, nameOf: Naming, read: Reader)
    requires ps != [] && AllParsed(ps, nameOf, read) && InOrder(ps) && HavePaths(ExprsOf(ps[..|ps| - 1]))
    requires var s := Scanned(ExprsOf(ps[..|ps| - 1]), nameOf);
             ScannedAs(ps[..|ps| - 1], s) && FieldsScanned(ps[..|ps| - 1], s.spans)
    ensures HavePaths(ExprsOf(ps))
    ensures ScannedAs(ps, Scanned(ExprsOf(ps), nameOf)) && FieldsScanned(ps, Scanned(ExprsOf(ps), nameOf).spans)
  {
    var n := |ps| - 1;
    var p, init := ps[n], ps[..n];
    ParsedAlone(p, nameOf, read);
    if n > 0 { ParsedAlone(ps[n - 1], nameOf, read); }
    hide TextOf, Part.Parsed, Part.Text, ScannedAs, FieldsScanned, Follows, Current, InOrder, FieldsOf, Scanned,
         HavePaths, Moved;
    var s, t := Scanned(ExprsOf(init), nameOf), Scanned(p.exprs, nameOf);
    ScanIsCurrent(ExprsOf(init), nameOf);
    HeadsFollow(ps, s);
    ScansContinue(ExprsOf(init), p.exprs, |TextOf(init)|, nameOf);
    OnePartMore(ps, s, t);
    ScanInside(p.exprs, nameOf);
    OnlyItem(t);
    LengthIs(init, s);
    OnePartsFields(ps, s.spans, t.spans);
  }

  lemma ParsedAlone(p: Part, nameOf: Naming, read: Reader)
    requires p.Parsed(nameOf, read)
    ensures HavePaths(p.exprs) && (!p.waits ==> p.tail == "")
    ensures var t := Scanned(p.exprs, nameOf); Alone(p, t) && FieldsOf(t.spans, 0, |p.lead|) == p.fields
  {
    hide Quiet, HavePaths, Placed, EndsLine, Scanned, FieldsOf, Part.Text;
  }

  lemma {:induction false} WholeScan(ps: seq<Part>, nameOf: Naming, read: Reader)
    requires AllParsed(ps, nameOf, read) && InOrder(ps)
    ensures HavePaths(ExprsOf(ps))
    ensures ScannedAs(ps, Scanned(ExprsOf(ps), nameOf)) && FieldsScanned(ps, Scanned(ExprsOf(ps), nameOf).spans)
  {
    hide Part.Parsed, TextOf;
    if ps == [] {
      assert Scanned([], nameOf).spans == [];
    } else {
      assert AllParsed(ps[..|ps| - 1], nameOf, read) && InOrder(ps[..|ps| - 1]);
      hide Scanned, ScannedAs, FieldsScanned, InOrder, AllParsed, ExprsOf, HavePaths;
      WholeScan(ps[..|ps| - 1], nameOf, read);
      ScanStep(ps, nameOf, read);
    }
  }

  lemma LengthIs(ps: seq<Part>, s: Scan)
    requires ScannedAs(ps, s)
    ensures |s.heads| == |s.starts| == |ps|
  {
  }

  // ---------------------------------------------------- where it is placed

  lemma {:induction false} LinesTogether(a: string, xs: seq<Expr>, b: string, ys: seq<Expr>, i: nat)
    requires Placed(a, xs) && Placed(b, ys) && (a == "" || EndsLine(a)) && i < |xs| + |ys|
    ensures var e := (xs + Shifted(ys, |a|))[i]; LineStart(a + b, e.at) && e.at < EndOf(e) <= |a + b|
  {
    var e := (xs + Shifted(ys, |a|))[i];
    if i < |xs| {
      assert e == xs[i] && LineStart(a, e.at);
      if e.at > 0 { assert (a + b)[e.at - 1] == a[e.at - 1]; }
    } else {
      var y := ys[i - |xs|];
      assert e == Shift(y, |a|) && LineStart(b, y.at);
      if e.at > 0 { assert (a + b)[e.at - 1] == if y.at > 0 then b[y.at - 1] else a[|a| - 1]; }
    }
  }

  lemma {:induction false} OrderTogether(a: string, xs: seq<Expr>, b: string, ys: seq<Expr>, i: nat, j: nat)
    requires Placed(a, xs) && Placed(b, ys) && i < j < |xs| + |ys|
    ensures var all := xs + Shifted(ys, |a|); EndOf(all[i]) <= all[j].at
  {
    hide LineStart;
    var all := xs + Shifted(ys, |a|);
    if j >= |xs| {
      assert all[j] == Shift(ys[j - |xs|], |a|);
      if i >= |xs| { assert all[i] == Shift(ys[i - |xs|], |a|); }
    }
  }

  lemma {:induction false} PlacedTogether(a: string, xs: seq<Expr>, b: string, ys: seq<Expr>)
    requires Placed(a, xs) && Placed(b, ys) && (a == "" || EndsLine(a))
    ensures Placed(a + b, xs + Shifted(ys, |a|))
  {
    var all := xs + Shifted(ys, |a|);
    forall i | 0 <= i < |all| ensures LineStart(a + b, all[i].at) && all[i].at < EndOf(all[i]) <= |a + b| {
      LinesTogether(a, xs, b, ys, i);
    }
    forall i, j | 0 <= i < j < |all| ensures EndOf(all[i]) <= all[j].at {
      OrderTogether(a, xs, b, ys, i, j);
    }
    hide LineStart, EndOf, Shifted;
  }

  lemma NothingPlaced()
    ensures Placed("", [])
  {
  }

  lemma ParsedIsPlaced(p: Part, nameOf: Naming, read: Reader)
    requires p.Parsed(nameOf, read)
    ensures Placed(p.Text(), p.exprs) && EndsLine(p.Text())
  {
    hide Placed, EndsLine, HavePaths, Quiet, Scanned, FieldsOf, FieldsIn;
  }

  lemma EndsLater(a: string, b: string)
    requires EndsLine(b)
    ensures EndsLine(a + b)
  {
  }

  lemma {:induction false} WholePlaced(ps: seq<Part>, nameOf: Naming, read: Reader)
    requires AllParsed(ps, nameOf, read)
    ensures Placed(TextOf(ps), ExprsOf(ps)) && (TextOf(ps) == "" || EndsLine(TextOf(ps)))
  {
    if ps == [] {
      NothingPlaced();
    } else {
      var n := |ps| - 1;
      ParsedIsPlaced(ps[n], nameOf, read);
      hide Placed, EndsLine, Shifted, Part.Parsed, Part.Text;
      WholePlaced(ps[..n], nameOf, read);
      EndsLater(TextOf(ps[..n]), ps[n].Text());
      PlacedTogether(TextOf(ps[..n]), ExprsOf(ps[..n]), ps[n].Text(), ps[n].exprs);
    }
  }

  // ------------------------------------------------------- slices of a whole

  lemma {:induction false} PartAt(ps: seq<Part>, i: nat)
    requires i < |ps|
    ensures |TextOf(ps[..i])| + |ps[i].Text()| == |TextOf(ps[..i + 1])| <= |TextOf(ps)|
    ensures TextOf(ps)[|TextOf(ps[..i])|..|TextOf(ps[..i + 1])|] == ps[i].Text()
    decreases |ps|
  {
    var n := |ps| - 1;
    assert ps[..i + 1][..i] == ps[..i] && ps[..i + 1][i] == ps[i];
    if i < n {
      PartAt(ps[..n], i);
      assert ps[..n][..i] == ps[..i] && ps[..n][..i + 1] == ps[..i + 1];
    } else {
      assert ps[..i + 1] == ps;
    }
  }

  lemma Slices(text: string, a: nat, part: string, x: nat, y: nat)
    requires a + |part| <= |text| && text[a..a + |part|] == part && x <= y <= |part|
    ensures text[a + x..a + y] == part[x..y]
  {
    forall k | 0 <= k < y - x ensures text[a + x..a + y][k] == part[x..y][k] {
      assert text[a..a + |part|][x + k] == text[a + x + k];
    }
  }

  // The three pieces of a part in the whole.
  lemma PieceOfPart(ps: seq<Part>, i: nat)
    requires i < |ps|
    ensures var text, a, p := TextOf(ps), |TextOf(ps[..i])|, ps[i];
            && a + |p.Text()| == |TextOf(ps[..i + 1])| <= |text|
            && text[a..a + |p.lead|] == p.lead
            && text[a + |p.lead|..a + |p.lead| + |p.core|] == p.core
            && text[a + |p.lead| + |p.core|..a + |p.Text()|] == p.tail
  {
    hide TextOf;
    PartAt(ps, i);
    var text, a, p := TextOf(ps), |TextOf(ps[..i])|, ps[i];
    var part := p.Text();
    Slices(text, a, part, 0, |p.lead|);
    Slices(text, a, part, |p.lead|, |p.lead| + |p.core|);
    Slices(text, a, part, |p.lead| + |p.core|, |part|);
    assert part[..|p.lead|] == p.lead && part[|p.lead|..|p.lead| + |p.core|] == p.core;
    assert part[|p.lead| + |p.core|..] == p.tail;
  }

  function EndIn(ps: seq<Part>, i: nat): int
    requires i < |ps|
  {
    if i + 1 < |ps| then StartIn(ps, i + 1) else |TextOf(ps)|
  }

  function BeginIn(ps: seq<Part>, i: nat): int
    requires i < |ps|
  {
    if i == 0 then 0 else StartIn(ps, i)
  }

  lemma {:induction false} AboveAt(ps: seq<Part>, i: nat)
    requires i < |ps| && forall j :: 0 <= j < |ps| && !ps[j].waits ==> ps[j].tail == ""
    ensures 0 <= BeginIn(ps, i) <= CoreAt(ps, i) <= |TextOf(ps)|
    ensures BeginIn(ps, i) == CoreAt(ps, i) - |Above(ps, i)|
    ensures TextOf(ps)[BeginIn(ps, i)..CoreAt(ps, i)] == Above(ps, i)
  {
    hide TextOf;
    PieceOfPart(ps, i);
    if i == 0 {
      NoParts(ps);
    } else {
      PieceOfPart(ps, i - 1);
      var text, a, p, q := TextOf(ps), |TextOf(ps[..i])|, ps[i - 1], ps[i];
      assert text[a - |p.tail|..a + |q.lead|] == text[a - |p.tail|..a] + text[a..a + |q.lead|];
    }
  }

  lemma NoParts(ps: seq<Part>)
    ensures TextOf(ps[..0]) == ""
  {
  }

  lemma {:induction false} BelowAt(ps: seq<Part>, i: nat)
    requires i < |ps| && forall j :: 0 <= j < |ps| && !ps[j].waits ==> ps[j].tail == ""
    ensures CoreAt(ps, i) + |ps[i].core| <= EndIn(ps, i) <= |TextOf(ps)|
    ensures TextOf(ps)[CoreAt(ps, i)..CoreAt(ps, i) + |ps[i].core|] == ps[i].core
    ensures TextOf(ps)[CoreAt(ps, i) + |ps[i].core|..EndIn(ps, i)] == Below(ps, i)
  {
    hide TextOf;
    PieceOfPart(ps, i);
    if i + 1 == |ps| {
      assert ps[..i + 1] == ps;
    } else {
      PieceOfPart(ps, i + 1);
      if ps[i].waits { NothingBelow(ps, i); } else { LeadBelow(ps, i); }
    }
  }

  lemma NothingBelow(ps: seq<Part>, i: nat)
    requires i + 1 < |ps| && ps[i].waits && |TextOf(ps[..i])| + |ps[i].Text()| == |TextOf(ps[..i + 1])|
    ensures EndIn(ps, i) == CoreAt(ps, i) + |ps[i].core| && Below(ps, i) == ""
  {
    hide TextOf;
  }

  lemma LeadBelow(ps: seq<Part>, i: nat)
    requires i + 1 < |ps| && !ps[i].waits && ps[i].tail == ""
    requires |TextOf(ps[..i])| + |ps[i].Text()| == |TextOf(ps[..i + 1])|
    ensures CoreAt(ps, i) + |ps[i].core| == |TextOf(ps[..i + 1])| && Below(ps, i) == ps[i + 1].lead
    ensures EndIn(ps, i) == |TextOf(ps[..i + 1])| + |ps[i + 1].lead|
  {
    hide TextOf;
  }

  // The whole splits into the parts' items.
  lemma {:induction false} SplitsInto(ps: seq<Part>, nameOf: Naming, read: Reader, items: seq<TomlItem>)
    requires AllParsed(ps, nameOf, read) && InOrder(ps)
    requires HavePaths(ExprsOf(ps)) && Placed(TextOf(ps), ExprsOf(ps))
    requires Splits(TextOf(ps), ExprsOf(ps), nameOf, items)
    ensures |items| == |ps| && forall i :: 0 <= i < |items| ==> items[i] == ItemIn(ps, i)
  {
    var text, s := TextOf(ps), Scanned(ExprsOf(ps), nameOf);
    WholeScan(ps, nameOf, read);
    ScanLays(text, ExprsOf(ps), nameOf);
    assert forall j :: 0 <= j < |ps| ==> ps[j].Parsed(nameOf, read);
    hide TextOf, ExprsOf, Scanned, Laid, LaidSpans, Placed, Quiet, HavePaths, CoreAt, Above, Below, FieldsOf, Waiting;
    forall i | 0 <= i < |items| ensures items[i] == ItemIn(ps, i) {
      RangesFit(text, s, Bound(ExprsOf(ps)), i);
      assert items[i] == ItemAt(text, s, i);
      OneItem(ps, text, s, i);
    }
  }

  lemma ThreePieces(text: string, a: nat, b: nat, c: nat, d: nat)
    requires a <= b <= c <= d <= |text|
    ensures text[a..d] == text[a..b] + text[b..c] + text[c..d]
  {
  }

  lemma {:induction false} WhereInScan(ps: seq<Part>, text: string, s: Scan, i: nat)
    requires text == TextOf(ps) && ScannedAs(ps, s) && FieldsScanned(ps, s.spans) && i < |ps|
    ensures s.heads[i] == ps[i].head
    ensures ItemStart(s.starts, i) == BeginIn(ps, i) && ItemEnd(text, s.starts, i) == EndIn(ps, i)
    ensures FieldsOf(s.spans, i, ItemStart(s.starts, i)) == MovedFields(ps[i].fields, CoreAt(ps, i) - BeginIn(ps, i))
  {
    hide TextOf, CoreAt, FieldsOf, StartIn, MovedFields;
  }

  lemma ItemAtIs(text: string, s: Scan, i: nat)
    requires i < |s.heads| == |s.starts| && ItemStart(s.starts, i) <= ItemEnd(text, s.starts, i) <= |text|
    ensures var h, a, b := s.heads[i], ItemStart(s.starts, i), ItemEnd(text, s.starts, i);
            ItemAt(text, s, i) == TomlItem(h.path, h.name, h.table, text[a..b], FieldsOf(s.spans, i, a))
  {
  }

  lemma ItemInIs(ps: seq<Part>, i: nat)
    requires i < |ps|
    ensures var h, above := ps[i].head, Above(ps, i);
            ItemIn(ps, i) == TomlItem(h.path, h.name, h.table, above + ps[i].core + Below(ps, i),
                                      MovedFields(ps[i].fields, |above|))
  {
  }

  lemma {:induction false} OneItem(ps: seq<Part>, text: string, s: Scan, i: nat)
    requires text == TextOf(ps) && ScannedAs(ps, s) && FieldsScanned(ps, s.spans) && i < |ps|
    requires forall j :: 0 <= j < |ps| && !ps[j].waits ==> ps[j].tail == ""
    requires ItemStart(s.starts, i) <= ItemEnd(text, s.starts, i) <= |text|
    ensures ItemAt(text, s, i) == ItemIn(ps, i)
  {
    hide *;
    LengthIs(ps, s);
    AboveAt(ps, i);
    BelowAt(ps, i);
    WhereInScan(ps, text, s, i);
    ItemAtIs(text, s, i);
    ItemInIs(ps, i);
    ThreePieces(text, BeginIn(ps, i), CoreAt(ps, i), CoreAt(ps, i) + |ps[i].core|, EndIn(ps, i));
  }

  // ------------------------------------------------------- what it says

  lemma {:induction false} CutAfter(text: string, path: seq<string>, fields: seq<Field>, a: nat, b: nat)
    requires a <= b <= |text| && FieldsIn(fields, text, b)
    ensures FieldsIn(fields, text, a)
    ensures Cut(text, path, fields, a) == text[a..b] + Cut(text, path, fields, b)
    decreases |fields|
  {
    if fields == [] {
      assert text[a..] == text[a..b] + text[b..];
    } else {
      var f := fields[0];
      if ExcludedField(path, f.key) {
        assert text[a..f.start] == text[a..b] + text[b..f.start];
      } else {
        CutAfter(text, path, fields[1..], a, b);
      }
    }
  }

  // The lines from last on, between other text.
  ghost predicate CutsWithin(above: string, core: string, below: string, path: seq<string>, fields: seq<Field>,
                             last: nat) {
    && last <= |core| && FieldsIn(fields, core, last)
    && var all, moved := above + core + below, MovedFields(fields, |above|);
       && FieldsIn(moved, all, |above| + last)
       && Cut(all, path, moved, |above| + last) == Cut(core, path, fields, last) + below
  }

  lemma CutsNone(above: string, core: string, below: string, path: seq<string>, last: nat)
    requires last <= |core|
    ensures CutsWithin(above, core, below, path, [], last)
  {
    hide FieldsIn, Cut, MovedFields;
    MovedNone(|above|);
    MiddleOf(above, core, below, last);
    CutNothing(core, path, last);
    CutNothing(above + core + below, path, |above| + last);
  }

  lemma CutsFirst(above: string, core: string, below: string, path: seq<string>, fields: seq<Field>, last: nat)
    requires last <= |core| && FieldsIn(fields, core, last) && fields != [] && ExcludedField(path, fields[0].key)
    requires last <= fields[0].start <= fields[0].end
    requires CutsWithin(above, core, below, path, fields[1..], fields[0].end)
    ensures CutsWithin(above, core, below, path, fields, last)
  {
    hide *;
    var all, n, f := above + core + below, |above|, fields[0];
    FieldsInMoved(fields, core, last, all, n);
    MovedFirst(fields, n);
    CutStep(core, path, fields, last);
    CutStep(all, path, MovedFields(fields, n), n + last);
    MiddleUpTo(above, core, below, last, f.start);
    CutsWithinMeans(above, core, below, path, fields[1..], f.end);
    Regroup(core[last..f.start], Cut(core, path, fields[1..], f.end), below);
    CutsWithinMeans(above, core, below, path, fields, last);
  }

  lemma CutsWithinMeans(above: string, core: string, below: string, path: seq<string>, fields: seq<Field>, last: nat)
    requires last <= |core| && FieldsIn(fields, core, last)
    requires FieldsIn(MovedFields(fields, |above|), above + core + below, |above| + last)
    ensures CutsWithin(above, core, below, path, fields, last)
            <==> Cut(above + core + below, path, MovedFields(fields, |above|), |above| + last)
                 == Cut(core, path, fields, last) + below
  {
    hide FieldsIn, MovedFields, Cut;
  }

  lemma Regroup(a: string, b: string, c: string)
    ensures a + (b + c) == (a + b) + c
  {
  }

  lemma KeepsFirst(above: string, core: string, below: string, path: seq<string>, fields: seq<Field>, last: nat)
    requires last <= |core| && FieldsIn(fields, core, last) && fields != [] && !ExcludedField(path, fields[0].key)
    requires CutsWithin(above, core, below, path, fields[1..], last)
    ensures CutsWithin(above, core, below, path, fields, last)
  {
    hide FieldsIn, Cut, MovedFields, ExcludedField;
    var all, n := above + core + below, |above|;
    FieldsInMoved(fields, core, last, all, n);
    MovedFirst(fields, n);
    CutStep(core, path, fields, last);
    CutStep(all, path, MovedFields(fields, n), n + last);
  }

  lemma {:induction false} CutWithin(above: string, core: string, below: string, path: seq<string>, fields: seq<Field>,
                                     last: nat)
    requires last <= |core| && FieldsIn(fields, core, last)
    ensures CutsWithin(above, core, below, path, fields, last)
    decreases |fields|
  {
    hide CutsWithin, FieldsIn, ExcludedField;
    if fields == [] {
      CutsNone(above, core, below, path, last);
    } else {
      FieldsInRest(fields, core, last);
      if ExcludedField(path, fields[0].key) {
        CutWithin(above, core, below, path, fields[1..], fields[0].end);
        CutsFirst(above, core, below, path, fields, last);
      } else {
        CutWithin(above, core, below, path, fields[1..], last);
        KeepsFirst(above, core, below, path, fields, last);
      }
    }
  }

  lemma MovedNone(off: int)
    ensures MovedFields([], off) == []
  {
  }

  lemma MovedFirst(fields: seq<Field>, off: int)
    requires fields != []
    ensures var moved := MovedFields(fields, off);
            && moved != [] && moved[1..] == MovedFields(fields[1..], off)
            && moved[0] == Field(fields[0].key, fields[0].start + off, fields[0].end + off)
  {
  }

  lemma MiddleOf(above: string, core: string, below: string, last: nat)
    requires last <= |core|
    ensures (above + core + below)[|above| + last..] == core[last..] + below
  {
  }

  lemma MiddleUpTo(above: string, core: string, below: string, last: nat, k: nat)
    requires last <= k <= |core|
    ensures (above + core + below)[|above| + last..|above| + k] == core[last..k]
  {
  }

  lemma FieldsInMoved(fields: seq<Field>, core: string, last: nat, all: string, n: nat)
    requires FieldsIn(fields, core, last) && |core| + n <= |all|
    ensures FieldsIn(MovedFields(fields, n), all, n + last)
  {
  }

  // An item of the whole is projected to its own lines between the text
  // around them.
  lemma {:induction false} ItemProjected(ps: seq<Part>, i: nat)
    requires i < |ps| && FieldsIn(ps[i].fields, ps[i].core, 0)
    ensures FieldsFit(ItemIn(ps, i))
    ensures ProjectedText(ItemIn(ps, i))
            == Above(ps, i) + (Cut(ps[i].core, ps[i].head.path, ps[i].fields, 0) + Below(ps, i))
  {
    hide Cut, Above, Below, MovedFields, FieldsIn;
    var p, it := ps[i], ItemIn(ps, i);
    CutWithin(Above(ps, i), p.core, Below(ps, i), p.head.path, p.fields, 0);
    CutAfter(it.text, p.head.path, it.fields, 0, |Above(ps, i)|);
    assert it.text[0..|Above(ps, i)|] == Above(ps, i);
  }

  lemma ParsedIsQuiet(p: Part, nameOf: Naming, read: Reader)
    requires p.Parsed(nameOf, read)
    ensures Quiet(read, p.lead) && Quiet(read, p.tail)
  {
    hide Quiet, HavePaths, Placed, EndsLine, Scanned, FieldsOf, Part.Text;
  }

  // What stands around it is quiet.
  lemma {:induction false} AroundIsQuiet(ps: seq<Part>, nameOf: Naming, read: Reader, i: nat)
    requires AllParsed(ps, nameOf, read) && i < |ps|
    ensures Quiet(read, Above(ps, i)) && Quiet(read, Below(ps, i))
  {
    hide Quiet, Part.Parsed;
    ParsedIsQuiet(ps[i], nameOf, read);
    NothingIsQuiet(read);
    if i > 0 {
      ParsedIsQuiet(ps[i - 1], nameOf, read);
      BothQuiet(read, ps[i - 1].tail, ps[i].lead);
    }
    if i + 1 < |ps| { ParsedIsQuiet(ps[i + 1], nameOf, read); }
  }

  // Each item of the whole says what its part says.
  lemma {:induction false} ItemSays(ps: seq<Part>, nameOf: Naming, read: Reader, i: nat)
    requires AllParsed(ps, nameOf, read) && i < |ps| && FieldsIn(ps[i].fields, ps[i].core, 0)
    ensures FieldsFit(ItemIn(ps, i))
    ensures ps[i].Value(read).Some? ==> read(ProjectedText(ItemIn(ps, i))) == ps[i].Value(read)
  {
    hide Cut, Quiet, AllParsed, FieldsIn, FieldsFit, ProjectedText, Above, Below, ItemIn;
    ItemProjected(ps, i);
    AroundIsQuiet(ps, nameOf, read, i);
    if ps[i].Value(read).Some? {
      QuietAround(read, Above(ps, i), Cut(ps[i].core, ps[i].head.path, ps[i].fields, 0), Below(ps, i));
    }
  }

  lemma NothingIsQuiet(read: Reader)
    ensures Quiet(read, "")
  {
    assert forall t: string :: "" + t == t && t + "" == t;
  }

  lemma BothQuiet(read: Reader, a: string, b: string)
    requires Quiet(read, a) && Quiet(read, b)
    ensures Quiet(read, a + b)
  {
    forall t: string | read(t).Some? ensures read((a + b) + t) == read(t) && read(t + (a + b)) == read(t) {
      assert (a + b) + t == a + (b + t) && t + (a + b) == (t + a) + b;
    }
  }

  lemma QuietAround(read: Reader, a: string, t: string, b: string)
    requires Quiet(read, a) && Quiet(read, b) && read(t).Some?
    ensures read(a + (t + b)) == read(t)
  {
    assert read(t + b) == read(t);
  }

  ghost predicate AllSay(ps: seq<Part>, read: Reader) {
    forall i :: 0 <= i < |ps| ==>
      FieldsIn(ps[i].fields, ps[i].core, 0) && (ExcludedPath(ps[i].head.path) || ps[i].Value(read).Some?)
  }

  // What the item of a part comes to.
  ghost function Said(p: Part, read: Reader): Option<string>
    requires FieldsIn(p.fields, p.core, 0)
  {
    if ExcludedPath(p.head.path) then None else p.Value(read)
  }

  // Items that say, one for one, what the parts say.
  ghost predicate SayTheSame(items: seq<TomlItem>, ps: seq<Part>, read: Reader)
    requires AllSay(ps, read)
  {
    && |items| == |ps| && AllFit(items) && NamesDistinct(items)
    && forall i :: 0 <= i < |ps| ==> SaysTheSame(items[i], ps[i], read)
  }

  ghost predicate SaysTheSame(it: TomlItem, p: Part, read: Reader)
    requires FieldsIn(p.fields, p.core, 0) && FieldsFit(it)
  {
    && it.name == p.head.name && it.path == p.head.path
    && (!ExcludedPath(it.path) ==> read(ProjectedText(it)).Some? && read(ProjectedText(it)) == p.Value(read))
  }

  lemma {:induction false} ItemsSay(ps: seq<Part>, nameOf: Naming, read: Reader, items: seq<TomlItem>)
    requires AllParsed(ps, nameOf, read) && InOrder(ps) && AllSay(ps, read)
    requires |items| == |ps| && forall i :: 0 <= i < |items| ==> items[i] == ItemIn(ps, i)
    ensures SayTheSame(items, ps, read)
  {
    hide AllParsed, Above, Below, MovedFields, ProjectedText, FieldsFit, ExcludedPath, FieldsIn;
    forall i | 0 <= i < |ps| ensures FieldsFit(items[i]) && SaysTheSame(items[i], ps[i], read) {
      ItemSays(ps, nameOf, read, i);
    }
  }

  // Reading such items gives every name what its part says.
  lemma {:induction false} ReadingSays(items: seq<TomlItem>, ps: seq<Part>, read: Reader)
    requires AllSay(ps, read) && SayTheSame(items, ps, read)
    ensures AllFit(items) && Projected(items, read).Ok?
    ensures var got := Projected(items, read).value;
            && (forall i :: 0 <= i < |ps| ==> ValueOf(got, ps[i].head.name) == Said(ps[i], read))
            && forall n :: (forall i :: 0 <= i < |ps| ==> ps[i].head.name != n) ==> ValueOf(got, n) == None
  {
    hide ProjectedText, FieldsFit, Projected, ExcludedPath, FieldsIn, Index;
    forall i | 0 <= i < |items| ensures ExcludedPath(items[i].path) || read(ProjectedText(items[i])).Some? {
      assert SaysTheSame(items[i], ps[i], read);
    }
    AllProjected(items, read, |items|);
    assert items[..|items|] == items;
    forall i | 0 <= i < |ps| ensures ValueOf(Projected(items, read).value, ps[i].head.name) == Said(ps[i], read) {
      assert SaysTheSame(items[i], ps[i], read);
      ProjectedSays(items, read, i);
    }
    forall n | forall i :: 0 <= i < |ps| ==> ps[i].head.name != n
      ensures ValueOf(Projected(items, read).value, n) == None
    {
      forall i | 0 <= i < |items| ensures items[i].name != n {
        assert SaysTheSame(items[i], ps[i], read) && ps[i].head.name != n;
      }
      UnnamedSays(items, read, n);
    }
  }

  // So does reading the whole.
  lemma {:induction false} WholeReads(ps: seq<Part>, nameOf: Naming, read: Reader, items: seq<TomlItem>)
    requires AllParsed(ps, nameOf, read) && InOrder(ps) && AllSay(ps, read)
    requires HavePaths(ExprsOf(ps)) && Placed(TextOf(ps), ExprsOf(ps))
    requires Splits(TextOf(ps), ExprsOf(ps), nameOf, items)
    ensures AllFit(items) && Projected(items, read).Ok?
    ensures var got := Projected(items, read).value;
            && (forall i :: 0 <= i < |ps| ==> ValueOf(got, ps[i].head.name) == Said(ps[i], read))
            && forall n :: (forall i :: 0 <= i < |ps| ==> ps[i].head.name != n) ==> ValueOf(got, n) == None
  {
    hide AllParsed, InOrder, TextOf, ExprsOf, Placed, HavePaths, Splits, SayTheSame, AllFit, Projected, Said, AllSay;
    SplitsInto(ps, nameOf, read, items);
    ItemsSay(ps, nameOf, read, items);
    ReadingSays(items, ps, read);
  }

  lemma {:induction false} AllProjected(items: seq<TomlItem>, read: Reader, k: nat)
    requires k <= |items| && AllFit(items)
    requires forall i :: 0 <= i < k ==> ExcludedPath(items[i].path) || read(ProjectedText(items[i])).Some?
    ensures AllFit(items[..k]) && Projected(items[..k], read).Ok?
  {
    hide ExcludedPath, FieldsFit, ProjectedText, WithNewline;
    if k > 0 {
      AllProjected(items, read, k - 1);
      assert items[..k][..k - 1] == items[..k - 1] && items[..k][k - 1] == items[k - 1];
    }
  }

  // What one item comes to when its name is no other's.
  lemma {:induction false} ProjectedSays(items: seq<TomlItem>, read: Reader, i: nat)
    requires AllFit(items) && NamesDistinct(items) && Projected(items, read).Ok? && i < |items|
    ensures ValueOf(Projected(items, read).value, items[i].name)
            == if ExcludedPath(items[i].path) then None else read(ProjectedText(items[i]))
  {
    hide ExcludedPath, ProjectedText, FieldsFit, Projected, Index;
    var got := Projected(items, read).value;
    if ExcludedPath(items[i].path) {
      assert items[..|items|] == items;
      ExcludedSays(items, read, i, |items|);
    } else {
      ProjectedHas(items, read, i);
    }
  }

  lemma {:induction false} ExcludedSays(items: seq<TomlItem>, read: Reader, i: nat, k: nat)
    requires AllFit(items) && NamesDistinct(items) && i < |items| && k <= |items| && Projected(items[..k], read).Ok?
    requires ExcludedPath(items[i].path)
    ensures ValueOf(Projected(items[..k], read).value, items[i].name) == None
  {
    hide ExcludedPath, ProjectedText, FieldsFit, WithNewline;
    if k > 0 {
      assert items[..k][..k - 1] == items[..k - 1] && items[..k][k - 1] == items[k - 1];
      ExcludedSays(items, read, i, k - 1);
      if !ExcludedPath(items[k - 1].path) {
        var text := ProjectedText(items[k - 1]);
        IndexSnoc(Projected(items[..k - 1], read).value, Item(items[k - 1].name, read(text).value, WithNewline(text)));
      }
    }
  }

  lemma NamedByOne(items: seq<TomlItem>, n: string)
    requires n in TomlNames(items)
    ensures exists i :: 0 <= i < |items| && items[i].name == n
  {
  }

  lemma {:induction false} UnnamedSays(items: seq<TomlItem>, read: Reader, n: string)
    requires AllFit(items) && Projected(items, read).Ok? && forall i :: 0 <= i < |items| ==> items[i].name != n
    ensures ValueOf(Projected(items, read).value, n) == None
  {
    hide Projected, Index, FieldsFit;
    var got := Projected(items, read).value;
    IndexHas(got, n);
    if n in Index(got) {
      ProjectedNames(items, read, n);
      NamedByOne(items, n);
    }
  }

  // ------------------------------------------------- what is put together

  // A part set off by a blank line.
  function SetOff(p: Part): Part {
    p.(lead := "\n" + p.lead, exprs := Shifted(p.exprs, 1))
  }

  datatype Placing = Placing(roots: seq<Part>, tables: seq<Part>)
  {
    function All(): seq<Part> {
      roots + tables
    }
  }

  predicate NeedsBlank(t: Text, w: Written) {
    w.item.table && w.isNew && t.root + t.tables != "" && !EndsBlank(t.root + t.tables)
  }

  // The parts of the written items in the order of the text.
  function PutTogether(ws: seq<Written>, ps: seq<Part>): Placing
    requires |ps| == |ws|
  {
    if ws == [] then Placing([], [])
    else
      var k := |ws| - 1;
      var before := PutTogether(ws[..k], ps[..k]);
      if !ws[k].item.table then before.(roots := before.roots + [ps[k]])
      else if NeedsBlank(Assembled(ws[..k]), ws[k]) then before.(tables := before.tables + [SetOff(ps[k])])
      else before.(tables := before.tables + [ps[k]])
  }

  // Each written item is found again in its text.
  ghost predicate PartOf(w: Written, p: Part, nameOf: Naming, read: Reader) {
    && p.Parsed(nameOf, read) && p.Text() == WithNewline(w.item.text)
    && p.head.name == w.item.name && p.head.table == w.item.table
    && ExcludedPath(p.head.path) == ExcludedPath(w.item.path)
    && (!ExcludedPath(w.item.path) ==>
          FieldsFit(w.item) && p.Value(read).Some? && p.Value(read) == read(ProjectedText(w.item)))
  }

  ghost predicate PartsOf(ws: seq<Written>, ps: seq<Part>, nameOf: Naming, read: Reader) {
    |ps| == |ws| && forall i :: 0 <= i < |ws| ==> PartOf(ws[i], ps[i], nameOf, read)
  }

  lemma {:induction false} TextOfBoth(a: seq<Part>, b: seq<Part>)
    ensures TextOf(a + b) == TextOf(a) + TextOf(b)
  {
    hide Part.Text;
    if b == [] {
      assert a + b == a;
    } else {
      TextOfBoth(a, b[..|b| - 1]);
      assert (a + b)[..|a + b| - 1] == a + b[..|b| - 1];
    }
  }

  lemma TextOfOneMore(ps: seq<Part>, p: Part)
    ensures TextOf(ps + [p]) == TextOf(ps) + p.Text()
  {
    assert (ps + [p])[..|ps|] == ps;
  }

  lemma SetOffText(p: Part)
    ensures SetOff(p).Text() == "\n" + p.Text()
  {
  }

  lemma {:induction false} PutTogetherText(ws: seq<Written>, ps: seq<Part>, nameOf: Naming, read: Reader)
    requires PartsOf(ws, ps, nameOf, read)
    ensures var t, d := Assembled(ws), PutTogether(ws, ps); TextOf(d.roots) == t.root && TextOf(d.tables) == t.tables
  {
    hide PartOf, TextOf, WithNewline, EndsBlank, SetOff, Part.Text;
    if ws == [] {
      NoText0();
    } else {
      var k := |ws| - 1;
      assert PartOf(ws[k], ps[k], nameOf, read);
      PutTogetherText(ws[..k], ps[..k], nameOf, read);
      PartText(ws[k], ps[k], nameOf, read);
      var d := PutTogether(ws[..k], ps[..k]);
      TextOfOneMore(d.roots, ps[k]);
      TextOfOneMore(d.tables, ps[k]);
      TextOfOneMore(d.tables, SetOff(ps[k]));
      SetOffText(ps[k]);
    }
  }

  lemma PartText(w: Written, p: Part, nameOf: Naming, read: Reader)
    requires PartOf(w, p, nameOf, read)
    ensures p.Text() == WithNewline(w.item.text)
  {
    hide Part.Parsed, Part.Text, WithNewline, ProjectedText;
  }

  lemma NoText0()
    ensures TextOf([]) == "" && Assembled([]) == Text("", "")
  {
  }

  lemma AloneContinues(t: Scan, off: nat)
    ensures Continued(Scan([], [], [], None, None), t, off)
            == Scan(t.heads, MovedStarts(t.starts, None, off), Moved(t.spans, 0, off), Later(t.pending, off),
                    Later(t.current, 0))
  {
    assert [] + t.heads == t.heads;
    assert [] + MovedStarts(t.starts, None, off) == MovedStarts(t.starts, None, off);
    assert [] + Moved(t.spans, 0, off) == Moved(t.spans, 0, off);
  }

  lemma ShiftedScan(exprs: seq<Expr>, nameOf: Naming)
    requires HavePaths(exprs)
    ensures HavePaths(Shifted(exprs, 1))
    ensures Scanned(Shifted(exprs, 1), nameOf) == Continued(Scan([], [], [], None, None), Scanned(exprs, nameOf), 1)
  {
    hide Step, Continued;
    ScansContinue([], exprs, 1, nameOf);
    assert [] + Shifted(exprs, 1) == Shifted(exprs, 1);
  }

  // A blank line above changes nothing for the parser.
  lemma SetOffParsed(p: Part, nameOf: Naming, read: Reader)
    requires p.Parsed(nameOf, read) && Quiet(read, "\n")
    ensures SetOff(p).Parsed(nameOf, read)
  {
    hide Quiet, Step, Scanned, FieldsOf, FieldsIn, Placed, HavePaths, Moved, MovedFields, EndsLine, Continued, Shifted;
    var t := Scanned(p.exprs, nameOf);
    ShiftedScan(p.exprs, nameOf);
    AloneContinues(t, 1);
    FieldsMoved(t.spans, 0, 1, 0, |p.lead| + 1, |p.lead|);
    NothingMoved(p.fields);
    BothQuiet(read, "\n", p.lead);
    BlankPlaced(p.Text(), p.exprs);
    SetOffText(p);
    EndsLater("\n", p.Text());
  }

  lemma NothingMoved(fields: seq<Field>)
    ensures MovedFields(fields, 0) == fields
  {
  }

  lemma BlankPlaced(text: string, exprs: seq<Expr>)
    requires Placed(text, exprs)
    ensures Placed("\n" + text, Shifted(exprs, 1))
  {
    hide LineStart;
    NothingPlacedBy("\n");
    PlacedTogether("\n", [], text, exprs);
    assert [] + Shifted(exprs, 1) == Shifted(exprs, 1);
  }

  lemma NothingPlacedBy(text: string)
    ensures Placed(text, [])
  {
  }

  ghost predicate SameItem(q: Part, p: Part) {
    q == p || q == SetOff(p)
  }

  lemma {:induction false} PutTogetherHas(ws: seq<Written>, ps: seq<Part>, i: nat) returns (j: nat)
    requires |ps| == |ws| && i < |ws|
    ensures var all := PutTogether(ws, ps).All(); j < |all| && SameItem(all[j], ps[i])
  {
    hide NeedsBlank, Assembled, SetOff;
    var k := |ws| - 1;
    var d, before := PutTogether(ws, ps), PutTogether(ws[..k], ps[..k]);
    if i < k {
      j := PutTogetherHas(ws[..k], ps[..k], i);
      if j >= |before.roots| && !ws[k].item.table {
        assert d.All()[j + 1] == before.All()[j];
        j := j + 1;
      } else {
        assert d.All()[j] == before.All()[j];
      }
    } else {
      j := if ws[k].item.table then |d.All()| - 1 else |before.roots|;
    }
  }

  // Every part put together is one of the given parts, in its own half.
  lemma {:induction false} PutTogetherFrom(ws: seq<Written>, ps: seq<Part>, table: bool, j: nat) returns (i: nat)
    requires |ps| == |ws| && var d := PutTogether(ws, ps); j < if table then |d.tables| else |d.roots|
    ensures i < |ws| && ws[i].item.table == table
    ensures var d := PutTogether(ws, ps); SameItem(if table then d.tables[j] else d.roots[j], ps[i])
  {
    hide NeedsBlank, Assembled, SetOff;
    var k := |ws| - 1;
    var before := PutTogether(ws[..k], ps[..k]);
    if j < if table then |before.tables| else |before.roots| {
      i := PutTogetherFrom(ws[..k], ps[..k], table, j);
    } else {
      i := k;
    }
  }

  ghost predicate NamedOnce(ws: seq<Written>) {
    forall i, j :: 0 <= i < j < |ws| ==> ws[i].item.name != ws[j].item.name
  }

  ghost predicate GoodParts(ps: seq<Part>, table: bool, nameOf: Naming, read: Reader) {
    forall j :: 0 <= j < |ps| ==> GoodPart(ps[j], table, nameOf, read)
  }

  ghost predicate GoodPart(p: Part, table: bool, nameOf: Naming, read: Reader) {
    && p.head.table == table && p.Parsed(nameOf, read)
    && FieldsIn(p.fields, p.core, 0) && (ExcludedPath(p.head.path) || p.Value(read).Some?)
  }

  lemma PartIsGood(w: Written, p: Part, nameOf: Naming, read: Reader)
    requires PartOf(w, p, nameOf, read) && Quiet(read, "\n")
    ensures GoodPart(p, w.item.table, nameOf, read) && GoodPart(SetOff(p), w.item.table, nameOf, read)
  {
    SetOffParsed(p, nameOf, read);
    hide Quiet, HavePaths, Placed, EndsLine, Scanned, FieldsOf, ProjectedText, WithNewline, Shifted;
  }

  lemma {:induction false} PutTogetherGood(ws: seq<Written>, ps: seq<Part>, nameOf: Naming, read: Reader)
    requires PartsOf(ws, ps, nameOf, read) && Quiet(read, "\n")
    ensures var d := PutTogether(ws, ps);
            GoodParts(d.roots, false, nameOf, read) && GoodParts(d.tables, true, nameOf, read)
  {
    hide PartOf, Quiet, GoodPart, NeedsBlank, Assembled, SetOff;
    if ws != [] {
      var k := |ws| - 1;
      PutTogetherGood(ws[..k], ps[..k], nameOf, read);
      PartIsGood(ws[k], ps[k], nameOf, read);
    }
  }

  ghost predicate NamesDiffer(ps: seq<Part>) {
    forall i, j :: 0 <= i < j < |ps| ==> ps[i].head.name != ps[j].head.name
  }

  ghost predicate NotNamed(ps: seq<Part>, name: string) {
    forall j :: 0 <= j < |ps| ==> ps[j].head.name != name
  }

  // A part put in between, with a name of its own.
  lemma {:induction false} OneMoreName(a: seq<Part>, b: seq<Part>, p: Part)
    requires NamesDiffer(a + b) && NotNamed(a + b, p.head.name)
    ensures NamesDiffer(a + [p] + b)
  {
    var was, now, k := a + b, a + [p] + b, |a|;
    forall i, j | 0 <= i < j < |now| ensures now[i].head.name != now[j].head.name {
      if j < k {
        assert now[i] == was[i] && now[j] == was[j];
      } else if j == k {
        assert now[i] == was[i] && now[j] == p;
      } else {
        assert now[j] == was[j - 1];
        assert now[i] == if i < k then was[i] else if i == k then p else was[i - 1];
      }
    }
  }

  lemma {:induction false} PutTogetherNot(ws: seq<Written>, ps: seq<Part>, nameOf: Naming, read: Reader, name: string)
    requires PartsOf(ws, ps, nameOf, read) && forall i :: 0 <= i < |ws| ==> ws[i].item.name != name
    ensures NotNamed(PutTogether(ws, ps).All(), name)
  {
    hide PartOf, NeedsBlank, Assembled, SetOff;
    var d := PutTogether(ws, ps);
    forall j | 0 <= j < |d.All()| ensures d.All()[j].head.name != name {
      var table := j >= |d.roots|;
      var i := PutTogetherFrom(ws, ps, table, if table then j - |d.roots| else j);
      PartNamed(ws[i], ps[i], nameOf, read);
    }
  }

  // No name is put together twice.
  lemma {:induction false} PutTogetherOnce(ws: seq<Written>, ps: seq<Part>, nameOf: Naming, read: Reader)
    requires PartsOf(ws, ps, nameOf, read) && NamedOnce(ws)
    ensures NamesDiffer(PutTogether(ws, ps).All())
  {
    hide PartOf, NeedsBlank, Assembled, SetOff, NamesDiffer, NotNamed;
    if ws == [] {
      NoNames();
      assert PutTogether(ws, ps).All() == [];
    } else {
      var k := |ws| - 1;
      var before, d := PutTogether(ws[..k], ps[..k]), PutTogether(ws, ps);
      PutTogetherOnce(ws[..k], ps[..k], nameOf, read);
      PartNamed(ws[k], ps[k], nameOf, read);
      PutTogetherNot(ws[..k], ps[..k], nameOf, read, ws[k].item.name);
      OneMoreName(before.roots, before.tables, ps[k]);
      assert before.All() + [] == before.All();
      OneMoreName(before.All(), [], ps[k]);
      OneMoreName(before.All(), [], SetOff(ps[k]));
      assert before.roots + (before.tables + [ps[k]]) == before.All() + [ps[k]] + [];
      assert before.roots + (before.tables + [SetOff(ps[k])]) == before.All() + [SetOff(ps[k])] + [];
    }
  }

  lemma NoNames()
    ensures NamesDiffer([])
  {
  }

  lemma PartNamed(w: Written, p: Part, nameOf: Naming, read: Reader)
    requires PartOf(w, p, nameOf, read)
    ensures p.head.name == w.item.name && SetOff(p).head.name == w.item.name
  {
    hide Part.Parsed, ProjectedText, WithNewline;
  }

  lemma AllGood(d: Placing, nameOf: Naming, read: Reader)
    requires GoodParts(d.roots, false, nameOf, read) && GoodParts(d.tables, true, nameOf, read)
    requires NamesDiffer(d.All())
    ensures AllParsed(d.All(), nameOf, read) && InOrder(d.All()) && AllSay(d.All(), read)
  {
    hide Part.Parsed, ExcludedPath, FieldsIn, Part.Value;
    forall i | 0 <= i < |d.All()| ensures GoodPart(d.All()[i], i >= |d.roots|, nameOf, read) {
      assert d.All()[i] == if i < |d.roots| then d.roots[i] else d.tables[i - |d.roots|];
    }
  }

  // What a written item comes to when it is read.
  ghost function WrittenSays(w: Written, read: Reader): Option<string>
    requires ExcludedPath(w.item.path) || FieldsFit(w.item)
  {
    if ExcludedPath(w.item.path) then None else read(ProjectedText(w.item))
  }

  // The text put together.
  function TextPut(ws: seq<Written>): string {
    Assembled(ws).root + Assembled(ws).tables
  }

  // The splitter accepts it: no name is defined twice.
  lemma TextIsAccepted(ws: seq<Written>, ps: seq<Part>, nameOf: Naming, read: Reader)
    requires PartsOf(ws, ps, nameOf, read) && NamedOnce(ws) && Quiet(read, "\n")
    ensures var all := PutTogether(ws, ps).All();
            && TextOf(all) == TextPut(ws) && AllParsed(all, nameOf, read) && InOrder(all) && AllSay(all, read)
            && HavePaths(ExprsOf(all)) && Placed(TextPut(ws), ExprsOf(all))
            && !NamedTwice(Scanned(ExprsOf(all), nameOf).heads)
  {
    var d := PutTogether(ws, ps);
    hide PartsOf, NamedOnce, Quiet, AllParsed, InOrder, AllSay, HavePaths, Placed, TextOf, ExprsOf, Assembled,
         NamesDiffer, PutTogether, ScannedAs, FieldsScanned, Scanned, NamedTwice;
    PutTogetherText(ws, ps, nameOf, read);
    TextOfBoth(d.roots, d.tables);
    PutTogetherGood(ws, ps, nameOf, read);
    PutTogetherOnce(ws, ps, nameOf, read);
    AllGood(d, nameOf, read);
    WholeScan(d.All(), nameOf, read);
    WholePlaced(d.All(), nameOf, read);
    HeadsDiffer(d.All(), Scanned(ExprsOf(d.All()), nameOf));
  }

  lemma HeadsDiffer(ps: seq<Part>, s: Scan)
    requires InOrder(ps) && ScannedAs(ps, s)
    ensures !NamedTwice(s.heads)
  {
    hide StartIn, Waiting;
  }

  // Splitting the text put together finds every written item again, and reads
  // it as it was written.
  lemma {:induction false} TextReads(ws: seq<Written>, ps: seq<Part>, nameOf: Naming, read: Reader,
                                     items: seq<TomlItem>)
    requires PartsOf(ws, ps, nameOf, read) && NamedOnce(ws) && Quiet(read, "\n")
    requires var xs := ExprsOf(PutTogether(ws, ps).All());
             HavePaths(xs) && Placed(TextPut(ws), xs) && Splits(TextPut(ws), xs, nameOf, items)
    ensures |items| == |ws| && AllFit(items) && Projected(items, read).Ok?
    ensures forall i :: 0 <= i < |ws| ==>
              && (ExcludedPath(ws[i].item.path) || FieldsFit(ws[i].item))
              && ValueOf(Projected(items, read).value, ws[i].item.name) == WrittenSays(ws[i], read)
    ensures forall n :: (forall i :: 0 <= i < |ws| ==> ws[i].item.name != n) ==>
              ValueOf(Projected(items, read).value, n) == None
  {
    var all := PutTogether(ws, ps).All();
    TextIsAccepted(ws, ps, nameOf, read);
    hide Quiet, AllParsed, InOrder, HavePaths, Placed, TextOf, TextPut, Splits, Projected, PutTogether, Index,
         ProjectedText, ExcludedPath, FieldsFit, NamedOnce, ScannedAs;
    WholeReads(all, nameOf, read, items);
    SplitsInto(all, nameOf, read, items);
    HowMany(ws, ps);
    var got := Projected(items, read).value;
    forall i | 0 <= i < |ws|
      ensures && (ExcludedPath(ws[i].item.path) || FieldsFit(ws[i].item))
              && ValueOf(got, ws[i].item.name) == WrittenSays(ws[i], read)
    {
      var j := PutTogetherHas(ws, ps, i);
      SameSays(ws[i], ps[i], all[j], nameOf, read);
    }
    forall n | forall i :: 0 <= i < |ws| ==> ws[i].item.name != n ensures ValueOf(got, n) == None {
      PutTogetherNot(ws, ps, nameOf, read, n);
    }
  }

  lemma {:induction false} HowMany(ws: seq<Written>, ps: seq<Part>)
    requires |ps| == |ws|
    ensures |PutTogether(ws, ps).All()| == |ws|
  {
    hide NeedsBlank, Assembled, SetOff;
    if ws != [] { HowMany(ws[..|ws| - 1], ps[..|ws| - 1]); }
  }

  lemma SameSays(w: Written, p: Part, q: Part, nameOf: Naming, read: Reader)
    requires PartOf(w, p, nameOf, read) && SameItem(q, p) && FieldsIn(q.fields, q.core, 0)
    ensures q.head.name == w.item.name && (ExcludedPath(w.item.path) || FieldsFit(w.item))
    ensures Said(q, read) == WrittenSays(w, read)
  {
    hide Part.Parsed, ExcludedPath, ProjectedText, WithNewline, FieldsIn, Cut;
  }

  // ------------------------------------------------------- Apply, then read

  lemma {:induction false} KeptNames(local: seq<TomlItem>, synced: map<string, Item>, keep: set<string>, read: Reader,
                                     i: nat) returns (j: nat)
    requires AllFit(local) && i < |KeptItems(local, synced, keep, read)|
    ensures j < |local| && KeptItems(local, synced, keep, read)[i].item.name == local[j].name
  {
    hide FieldsFit, ExcludedPath, ProjectedText, Rewritten;
    var k := |local| - 1;
    var it := local[k];
    var before := KeptItems(local[..k], synced, keep, read);
    if i < |before| {
      j := KeptNames(local[..k], synced, keep, read, i);
    } else {
      j := k;
      if it.name in synced { RewrittenNames(it, synced[it.name].text); }
    }
  }

  lemma {:induction false} KeptOnce(local: seq<TomlItem>, synced: map<string, Item>, keep: set<string>, read: Reader)
    requires AllFit(local) && NamesDistinct(local)
    ensures NamedOnce(KeptItems(local, synced, keep, read))
  {
    hide FieldsFit, ItemAfter;
    if local != [] {
      var k := |local| - 1;
      var it, before := local[k], KeptItems(local[..k], synced, keep, read);
      KeptOnce(local[..k], synced, keep, read);
      forall i | 0 <= i < |before| ensures before[i].item.name != it.name {
        var j := KeptNames(local[..k], synced, keep, read, i);
      }
      AfterNamed(it, Lookup(synced, it.name), it.name in keep, read);
    }
  }

  lemma AfterNamed(it: TomlItem, synced: Option<Item>, kept: bool, read: Reader)
    requires FieldsFit(it)
    ensures var w := ItemAfter(it, synced, kept, read); w.Some? ==> w.value.item.name == it.name
  {
    hide FieldsFit, ExcludedPath, ProjectedText, Rewritten;
    if synced.Some? { RewrittenNames(it, synced.value.text); }
  }

  lemma {:induction false} NewOnce(synced: seq<Item>, seen: set<string>, keep: set<string>)
    requires Distinct(synced)
    ensures NamedOnce(NewItems(synced, seen, keep))
    ensures forall i :: 0 <= i < |NewItems(synced, seen, keep)| ==>
              && NewItems(synced, seen, keep)[i].item.name !in seen
              && exists j :: 0 <= j < |synced| && synced[j].name == NewItems(synced, seen, keep)[i].item.name
  {
    if synced != [] { NewOnce(synced[..|synced| - 1], seen, keep); }
  }

  lemma OutcomeOnce(local: seq<TomlItem>, synced: seq<Item>, keep: set<string>, read: Reader)
    requires AllFit(local) && NamesDistinct(local) && Distinct(synced)
    ensures NamedOnce(Outcome(local, synced, keep, read))
  {
    hide FieldsFit, KeptItems, NewItems, Index;
    KeptOnce(local, Index(synced), keep, read);
    NewOnce(synced, TomlNames(local), keep);
    var kept := KeptItems(local, Index(synced), keep, read);
    forall i | 0 <= i < |kept| ensures kept[i].item.name in TomlNames(local) {
      var j := KeptNames(local, Index(synced), keep, read, i);
    }
  }

  lemma {:induction false} ItemsOfAt(ws: seq<Written>, i: nat)
    requires i < |ws|
    ensures |ItemsOf(ws)| == |ws| && ItemsOf(ws)[i] == ws[i].item
  {
    var k := |ws| - 1;
    if k > 0 { ItemsOfAt(ws[..k], if i < k then i else 0); }
  }

  // What the text says is what the written items say.
  lemma {:induction false} TextSaysAsWritten(ws: seq<Written>, ps: seq<Part>, nameOf: Naming, read: Reader,
                                             items: seq<TomlItem>, n: string, v: Option<string>)
    requires PartsOf(ws, ps, nameOf, read) && NamedOnce(ws) && Quiet(read, "\n") && ReadsAs(ws, read, n, v)
    requires var xs := ExprsOf(PutTogether(ws, ps).All());
             HavePaths(xs) && Placed(TextPut(ws), xs) && Splits(TextPut(ws), xs, nameOf, items)
    ensures AllFit(items) && Projected(items, read).Ok? && ValueOf(Projected(items, read).value, n) == v
  {
    TextReads(ws, ps, nameOf, read, items);
    hide *;
    if i :| 0 <= i < |ws| && ws[i].item.name == n {
      WrittenReadsAs(ws, read, i, v);
    } else {
      NoneReadsAs(ws, read, n, v);
    }
  }

  lemma {:induction false} WrittenReadsAs(ws: seq<Written>, read: Reader, i: nat, v: Option<string>)
    requires NamedOnce(ws) && i < |ws| && ReadsAs(ws, read, ws[i].item.name, v)
    requires ExcludedPath(ws[i].item.path) || FieldsFit(ws[i].item)
    ensures v == WrittenSays(ws[i], read)
  {
    hide Projected, ProjectedText, ExcludedPath, FieldsFit, Index, ItemsOf;
    forall j | 0 <= j < |ws| ensures |ItemsOf(ws)| == |ws| && ItemsOf(ws)[j] == ws[j].item { ItemsOfAt(ws, j); }
    ProjectedSays(ItemsOf(ws), read, i);
  }

  lemma {:induction false} NoneReadsAs(ws: seq<Written>, read: Reader, n: string, v: Option<string>)
    requires ReadsAs(ws, read, n, v) && forall i :: 0 <= i < |ws| ==> ws[i].item.name != n
    ensures v == None
  {
    hide Projected, ProjectedText, ExcludedPath, FieldsFit, Index, ItemsOf;
    forall j | 0 <= j < |ws| ensures |ItemsOf(ws)| == |ws| && ItemsOf(ws)[j] == ws[j].item { ItemsOfAt(ws, j); }
    if ws == [] { NoItems(ws); } else { ItemsOfAt(ws, 0); }
    UnnamedSays(ItemsOf(ws), read, n);
  }

  lemma NoItems(ws: seq<Written>)
    ensures ws == [] ==> ItemsOf(ws) == []
  {
  }

  // Reading the text Apply writes: what is not synced says nothing, this
  // machine's own version of the items kept, the synced one of all others.
  lemma PutGetText(local: seq<TomlItem>, synced: seq<Item>, keep: set<string>, read: Reader, nameOf: Naming,
                   ps: seq<Part>, items: seq<TomlItem>, n: string)
    requires Readable(local, synced, read) && NamesDistinct(local) && Distinct(synced) && Quiet(read, "\n")
    requires forall i :: 0 <= i < |local| ==> ExcludedPath(local[i].path) || read(ProjectedText(local[i])).Some?
    requires AllFit(local) && PartsOf(Outcome(local, synced, keep, read), ps, nameOf, read)
    requires var ws := Outcome(local, synced, keep, read);
             var xs := ExprsOf(PutTogether(ws, ps).All());
             HavePaths(xs) && Placed(TextPut(ws), xs) && Splits(TextPut(ws), xs, nameOf, items)
    ensures AllFit(items) && Projected(items, read).Ok?
    ensures ValueOf(Projected(items, read).value, n)
            == if n in TomlNames(local) then LocalSays(local, synced, keep, read, n)
               else if n in keep then None else ValueOf(synced, n)
  {
    hide *;
    OutcomeOnce(local, synced, keep, read);
    PutGet(local, synced, keep, read, n);
    var v := if n in TomlNames(local) then LocalSays(local, synced, keep, read, n)
             else if n in keep then None else ValueOf(synced, n);
    TextSaysAsWritten(Outcome(local, synced, keep, read), ps, nameOf, read, items, n, v);
  }

  // ------------------------------------------------------ Render, then parse

  // The synced form: the items as they are.
  function AsRendered(items: seq<Item>): seq<Written> {
    seq(|items|, i requires 0 <= i < |items| => NewItem(items[i]).(isNew := false))
  }

  method Render(items: seq<Item>) returns (out: string)
    ensures out == TextPut(AsRendered(items))
  {
    hide AddText, Assembled, IsTable;
    var root, tables := "", "";
    NothingAssembled();
    assert AsRendered(items[..0]) == [];
    for i := 0 to |items|
      invariant Text(root, tables) == Assembled(AsRendered(items[..i]))
    {
      assert AsRendered(items[..i + 1]) == AsRendered(items[..i]) + [NewItem(items[i]).(isNew := false)];
      AssembledSnoc(AsRendered(items[..i]), NewItem(items[i]).(isNew := false));
      root, tables := AddTo(root, tables, NewItem(items[i]).(isNew := false));
    }
    assert items[..|items|] == items;
    out := root + tables;
  }

  // What one machine renders, another parses to the same items.
  lemma {:induction false} ParseRendered(items: seq<Item>, ps: seq<Part>, nameOf: Naming, read: Reader,
                                         split: seq<TomlItem>)
    requires Distinct(items) && Quiet(read, "\n")
    requires forall i :: 0 <= i < |items| ==> read(items[i].text) == Some(items[i].value)
    requires PartsOf(AsRendered(items), ps, nameOf, read)
    requires var ws := AsRendered(items);
             var xs := ExprsOf(PutTogether(ws, ps).All());
             HavePaths(xs) && Placed(TextPut(ws), xs) && Splits(TextPut(ws), xs, nameOf, split)
    ensures AllFit(split) && Projected(split, read).Ok?
    ensures |split| == |items| && SameValues(Projected(split, read).value, items)
  {
    hide Projected, ProjectedText, ExcludedPath, FieldsFit, Index, Placed, HavePaths, Splits, TextPut, PartsOf,
         PutTogether, Quiet, ExprsOf, IsTable;
    var ws := AsRendered(items);
    TextReads(ws, ps, nameOf, read, split);
    var got := Projected(split, read).value;
    forall n ensures ValueOf(got, n) == ValueOf(items, n) {
      IndexHas(items, n);
      if i :| 0 <= i < |items| && items[i].name == n {
        IndexAt(items, i);
        NewItemReads(items[i], read);
        assert ws[i].item == NewItem(items[i]).item;
      } else {
        assert forall i :: 0 <= i < |ws| ==> ws[i].item.name == items[i].name;
      }
    }
  }
}
