// Text with marked homes: the tool for comparing a text with its portable
// form and with what another machine makes of it. A document is a sequence of
// literal bytes and homes; rendering writes each home in some spelling, as a
// placeholder or expanded.
module HomeTokens {
  import opened Options
  import opened HomePath

  datatype Tok = Ch(c: char) | Home(sp: Spelling)

  type Texts = Spelling -> string

  function TokText(t: Tok, e: Texts): string {
    match t
    case Ch(c) => [c]
    case Home(sp) => e(sp)
  }

  function Render(d: seq<Tok>, e: Texts): string {
    if d == [] then "" else TokText(d[0], e) + Render(d[1..], e)
  }

  function Chars(s: string): seq<Tok> {
    seq(|s|, i requires 0 <= i < |s| => Ch(s[i]))
  }

  predicate NonName(t: Tok) {
    t.Ch? && !IsNameByte(t.c)
  }

  ghost predicate Literal(run: seq<Tok>) {
    forall k :: 0 <= k < |run| ==> run[k].Ch?
  }

  ghost predicate Reads(run: seq<Tok>, text: string, fold: bool) {
    |run| == |text| && forall k :: 0 <= k < |run| ==> run[k].Ch? && SameByte(run[k].c, text[k], fold)
  }

  // The literal bytes at j spell text.
  ghost predicate Spells(d: seq<Tok>, text: string, fold: bool, j: nat) {
    j + |text| <= |d| && Reads(d[j..j + |text|], text, fold)
  }

  // A form stands literally at j, as a whole path component.
  ghost predicate ValidTok(d: seq<Tok>, f: Form, j: nat) {
    && Spells(d, f.text, f.fold, j)
    && (j == 0 || NonName(d[j - 1]))
    && (j + |f.text| == |d| || NonName(d[j + |f.text|]))
  }

  // A form's replacement on a document, from j on.
  ghost function TPass(d: seq<Tok>, f: Form, j: nat): seq<Tok>
    requires j <= |d| && f.text != ""
    decreases |d| - j
  {
    if j == |d| then []
    else if ValidTok(d, f, j) then [Home(f.spelling)] + TPass(d, f, j + |f.text|)
    else [d[j]] + TPass(d, f, j + 1)
  }

  // Homes stand between bytes that cannot belong to a name.
  ghost predicate Separated(d: seq<Tok>) {
    forall j :: 0 <= j < |d| && d[j].Home? ==>
      (j == 0 || NonName(d[j - 1])) && (j + 1 == |d| || NonName(d[j + 1]))
  }

  ghost predicate NoneLeft(d: seq<Tok>, f: Form) {
    forall j :: 0 <= j <= |d| ==> !ValidTok(d, f, j)
  }

  ghost predicate HasRun(d: seq<Tok>, text: string) {
    exists j :: 0 <= j <= |d| && Spells(d, text, false, j)
  }

  // ------------------------------------------------------------ rendering

  lemma {:induction false} RenderConcat(a: seq<Tok>, b: seq<Tok>, e: Texts)
    ensures Render(a + b, e) == Render(a, e) + Render(b, e)
  {
    if a == [] {
      assert a + b == b;
    } else {
      hide TokText;
      RenderConcat(a[1..], b, e);
      assert (a + b)[1..] == a[1..] + b && (a + b)[0] == a[0];
      var x, y, z := TokText(a[0], e), Render(a[1..], e), Render(b, e);
      assert x + (y + z) == (x + y) + z;
    }
  }

  function Off(d: seq<Tok>, e: Texts, j: nat): nat
    requires j <= |d|
  {
    |Render(d[..j], e)|
  }

  lemma RenderSplit(d: seq<Tok>, e: Texts, j: nat)
    requires j <= |d|
    ensures Render(d, e) == Render(d[..j], e) + Render(d[j..], e)
    ensures Off(d, e, j) <= |Render(d, e)| && Render(d, e)[Off(d, e, j)..] == Render(d[j..], e)
  {
    assert d == d[..j] + d[j..];
    hide *;
    RenderConcat(d[..j], d[j..], e);
    AfterFirst(Render(d[..j], e), Render(d[j..], e));
    OffIs(d, e, j);
  }

  lemma OffIs(d: seq<Tok>, e: Texts, j: nat)
    requires j <= |d|
    ensures Off(d, e, j) == |Render(d[..j], e)|
  {
  }

  lemma AfterFirst(a: string, b: string)
    ensures (a + b)[|a|..] == b
  {
  }

  lemma RenderOne(t: Tok, e: Texts)
    ensures Render([t], e) == TokText(t, e)
  {
    assert [t][1..] == [];
  }

  lemma OffStep(d: seq<Tok>, e: Texts, j: nat)
    requires j < |d|
    ensures Off(d, e, j + 1) == Off(d, e, j) + |TokText(d[j], e)| <= |Render(d, e)|
    ensures Render(d, e)[Off(d, e, j)..Off(d, e, j + 1)] == TokText(d[j], e)
    ensures Render(d, e)[Off(d, e, j)..] == TokText(d[j], e) + Render(d, e)[Off(d, e, j + 1)..]
  {
    hide Render, TokText;
    RenderSplit(d, e, j);
    RenderSplit(d, e, j + 1);
    assert d[..j + 1] == d[..j] + [d[j]];
    RenderConcat(d[..j], [d[j]], e);
    RenderOne(d[j], e);
  }

  lemma OffEnds(d: seq<Tok>, e: Texts)
    ensures Off(d, e, 0) == 0 && Off(d, e, |d|) == |Render(d, e)|
  {
    assert d[..|d|] == d;
  }

  function Bytes(run: seq<Tok>): string
    requires forall k :: 0 <= k < |run| ==> run[k].Ch?
  {
    if run == [] then "" else [run[0].c] + Bytes(run[1..])
  }

  lemma {:induction false} BytesAre(run: seq<Tok>)
    requires Literal(run)
    ensures |Bytes(run)| == |run| && forall k :: 0 <= k < |run| ==> Bytes(run)[k] == run[k].c
  {
    if run != [] { BytesAre(run[1..]); }
  }

  lemma {:induction false} RenderLiteral(run: seq<Tok>, e: Texts)
    requires Literal(run)
    ensures Render(run, e) == Bytes(run)
  {
    if run != [] { RenderLiteral(run[1..], e); }
  }

  // A run of literal bytes renders as itself.
  lemma OffRun(d: seq<Tok>, e: Texts, j: nat, n: nat)
    requires j + n <= |d| && Literal(d[j..j + n])
    ensures Off(d, e, j + n) == Off(d, e, j) + n <= |Render(d, e)|
    ensures Render(d, e)[Off(d, e, j)..Off(d, e, j) + n] == Bytes(d[j..j + n])
  {
    hide Render, Bytes;
    RenderSplit(d, e, j);
    RenderSplit(d, e, j + n);
    assert d[..j + n] == d[..j] + d[j..j + n];
    RenderConcat(d[..j], d[j..j + n], e);
    RenderLiteral(d[j..j + n], e);
    BytesAre(d[j..j + n]);
  }

  lemma {:induction false} RenderChars(s: string, e: Texts)
    ensures Render(Chars(s), e) == s
  {
    if s != "" {
      RenderChars(s[1..], e);
      assert Chars(s)[1..] == Chars(s[1..]);
    }
  }

  // --------------------------------------- what a replacement leaves intact

  // A literal run of the result comes from the same run of the source, at a
  // place where nothing was replaced, between the same literal neighbours.
  ghost predicate ComesFrom(d: seq<Tok>, f: Form, i: nat, p: seq<Tok>, j: nat, n: nat, x: nat)
    requires j + n <= |p|
  {
    && i <= x && x + n <= |d| && d[x..x + n] == p[j..j + n] && !ValidTok(d, f, x)
    && (j == 0 ==> x == i) && (j + n == |p| ==> x + n == |d|)
    && (j > 0 && p[j - 1].Ch? ==> x > i && d[x - 1] == p[j - 1])
    && (j + n < |p| && p[j + n].Ch? ==> x + n < |d| && d[x + n] == p[j + n])
  }

  lemma PassStep(d: seq<Tok>, f: Form, i: nat) returns (next: nat)
    requires f.text != "" && i < |d|
    ensures i < next <= |d| && (!ValidTok(d, f, i) ==> next == i + 1)
    ensures TPass(d, f, i) == [if ValidTok(d, f, i) then Home(f.spelling) else d[i]] + TPass(d, f, next)
  {
    next := if ValidTok(d, f, i) then i + |f.text| else i + 1;
  }

  lemma {:induction false} HeadComesFrom(d: seq<Tok>, f: Form, i: nat, n: nat)
    requires f.text != "" && i <= |d|
    requires 0 < n <= |TPass(d, f, i)| && Literal(TPass(d, f, i)[..n])
    ensures i + n <= |d| && d[i..i + n] == TPass(d, f, i)[..n] && !ValidTok(d, f, i)
    ensures n == |TPass(d, f, i)| ==> i + n == |d|
    ensures n < |TPass(d, f, i)| && TPass(d, f, i)[n].Ch? ==> i + n < |d| && d[i + n] == TPass(d, f, i)[n]
    decreases n
  {
    hide TPass, ValidTok;
    var p := TPass(d, f, i);
    if i == |d| { EmptyAtEnd(d, f); }
    var next := PassStep(d, f, i);
    var rest := TPass(d, f, next);
    assert p[..n][0] == p[0] && rest == p[1..];
    if n > 1 {
      assert rest[..n - 1] == p[..n][1..];
      HeadComesFrom(d, f, i + 1, n - 1);
      assert d[i..i + n] == [d[i]] + d[i + 1..i + n] && p[..n] == [p[0]] + rest[..n - 1];
    } else {
      assert d[i..i + 1] == [d[i]] && p[..1] == [p[0]];
      if rest == [] { EmptyPass(d, f, i + 1); }
      if rest != [] && rest[0].Ch? {
        if i + 1 == |d| { EmptyAtEnd(d, f); }
        var after := PassStep(d, f, i + 1);
      }
    }
  }

  lemma EmptyAtEnd(d: seq<Tok>, f: Form)
    requires f.text != ""
    ensures TPass(d, f, |d|) == []
  {
  }

  lemma {:induction false} RunComesFrom(d: seq<Tok>, f: Form, i: nat, j: nat, n: nat) returns (x: nat)
    requires f.text != "" && i <= |d|
    requires n > 0 && j + n <= |TPass(d, f, i)| && Literal(TPass(d, f, i)[j..j + n])
    ensures ComesFrom(d, f, i, TPass(d, f, i), j, n, x)
    decreases j
  {
    hide TPass, ValidTok;
    var p := TPass(d, f, i);
    if j == 0 {
      assert p[0..n] == p[..n];
      HeadComesFrom(d, f, i, n);
      x := i;
    } else {
      if i == |d| { EmptyAtEnd(d, f); }
      var next := PassStep(d, f, i);
      var rest := TPass(d, f, next);
      assert rest == p[1..] && rest[j - 1..j - 1 + n] == p[j..j + n];
      x := RunComesFrom(d, f, next, j - 1, n);
      assert j > 1 ==> rest[j - 2] == p[j - 1];
      assert j + n < |p| ==> rest[j - 1 + n] == p[j + n];
    }
  }

  lemma EmptyPass(d: seq<Tok>, f: Form, i: nat)
    requires f.text != "" && i <= |d| && TPass(d, f, i) == []
    ensures i == |d|
  {
  }

  // A form that stands nowhere in the source stands nowhere in the result,
  // and neither does the replaced form.
  lemma PassLeavesNone(d: seq<Tok>, f: Form, g: Form)
    requires f.text != "" && g.text != "" && (g == f || NoneLeft(d, g))
    ensures NoneLeft(TPass(d, f, 0), g)
  {
    hide TPass, ValidTok;
    var p := TPass(d, f, 0);
    forall j | 0 <= j <= |p| ensures !ValidTok(p, g, j) {
      if ValidTok(p, g, j) {
        ValidIsLiteral(p, g, j);
        var x := RunComesFrom(d, f, 0, j, |g.text|);
        ValidCameFrom(d, f, g, p, j, x);
      }
    }
  }

  lemma ValidIsLiteral(p: seq<Tok>, g: Form, j: nat)
    requires ValidTok(p, g, j)
    ensures j + |g.text| <= |p| && Literal(p[j..j + |g.text|])
  {
  }

  // A match in the result was one in the source, and was not replaced there.
  lemma ValidCameFrom(d: seq<Tok>, f: Form, g: Form, p: seq<Tok>, j: nat, x: nat)
    requires g.text != "" && ValidTok(p, g, j) && ComesFrom(d, f, 0, p, j, |g.text|, x)
    ensures x + |g.text| <= |d| && ValidTok(d, g, x) && !(g == f)
  {
  }

  lemma PassMakesNoRun(d: seq<Tok>, f: Form, text: string)
    requires f.text != "" && text != ""
    ensures HasRun(TPass(d, f, 0), text) ==> HasRun(d, text)
  {
    var p := TPass(d, f, 0);
    if HasRun(p, text) {
      var j :| 0 <= j <= |p| && Spells(p, text, false, j);
      var x := RunComesFrom(d, f, 0, j, |text|);
      assert Spells(d, text, false, x);
    }
  }

  lemma SameByteSameName(a: char, b: char, fold: bool)
    requires SameByte(a, b, fold)
    ensures IsNameByte(a) == IsNameByte(b)
  {
  }

  // After a home the next byte is copied: it cannot start a match.
  lemma NoMatchAfterHome(d: seq<Tok>, f: Form, i: nat)
    requires f.text != "" && 0 < i <= |d| && !NonName(d[i - 1])
    ensures !ValidTok(d, f, i)
    ensures TPass(d, f, i) == if i == |d| then [] else [d[i]] + TPass(d, f, i + 1)
  {
  }

  lemma {:induction false} PassKeepsSeparated(d: seq<Tok>, f: Form, i: nat)
    requires Separated(d) && i <= |d| && f.text != "" && IsNameByte(f.text[|f.text| - 1])
    ensures var p := TPass(d, f, i);
            Separated(p) && (p != [] && p[0].Home? ==> i == 0 || NonName(d[i - 1]))
    decreases |d| - i
  {
    if i < |d| {
      var p := TPass(d, f, i);
      var n := |f.text|;
      var next := if ValidTok(d, f, i) then i + n else i + 1;
      PassKeepsSeparated(d, f, next);
      var rest := TPass(d, f, next);
      assert p == [p[0]] + rest;
      if p[0].Home? {
        if ValidTok(d, f, i) { SameByteSameName(d[i..i + n][n - 1].c, f.text[n - 1], f.fold); }
        NoMatchAfterHome(d, f, next);
        assert rest == [] || NonName(rest[0]);
      }
      forall j | 0 <= j < |p| && p[j].Home?
        ensures (j == 0 || NonName(p[j - 1])) && (j + 1 == |p| || NonName(p[j + 1]))
      {
        if j > 0 { assert p[j] == rest[j - 1]; }
      }
    }
  }

  // A pass in which the form stands nowhere changes nothing.
  lemma {:induction false} PassOfNone(d: seq<Tok>, f: Form, j: nat)
    requires j <= |d| && f.text != "" && NoneLeft(d, f)
    ensures TPass(d, f, j) == d[j..]
    decreases |d| - j
  {
    if j < |d| {
      PassOfNone(d, f, j + 1);
      assert d[j..] == [d[j]] + d[j + 1..];
    }
  }

  // ---------------------------------------- a pass on the rendered document

  // The spelling of e after the form's homes became placeholders.
  function After(e: Texts, f: Form): Texts {
    (sp: Spelling) => if sp == f.spelling then PlaceholderOf(sp) else e(sp)
  }

  // The home at j is one the form stands for: it is replaced.
  predicate Own(t: Tok, e: Texts, f: Form) {
    t.Home? && t.sp == f.spelling && e(t.sp) != PlaceholderOf(t.sp)
  }

  // What is special about a rendering: the form matches its own homes, and
  // literal text exactly where it stands in the document, and nothing else.
  ghost predicate MatchesAt(d: seq<Tok>, e: Texts, f: Form, j: nat)
    requires j < |d|
  {
    var s := Render(d, e);
    match d[j]
    case Ch(_) => ValidAt(s, f, Off(d, e, j)) <==> ValidTok(d, f, j)
    case Home(_) =>
      if Own(d[j], e, f) then ValidAt(s, f, Off(d, e, j)) && |e(d[j].sp)| == |f.text|
      else forall p :: Off(d, e, j) <= p < Off(d, e, j + 1) ==> !ValidAt(s, f, p)
  }

  lemma CopyToken(d: seq<Tok>, e: Texts, f: Form, j: nat)
    requires j < |d| && f.text != ""
    requires OffStepped(d, e, j) && forall p :: Off(d, e, j) <= p < Off(d, e, j + 1) ==> !ValidAt(Render(d, e), f, p)
    ensures Replaced(Render(d, e), f, Off(d, e, j)) == TokText(d[j], e) + Replaced(Render(d, e), f, Off(d, e, j + 1))
  {
    OffStep(d, e, j);
    CopiedTo(Render(d, e), f, Off(d, e, j), Off(d, e, j + 1));
  }

  ghost predicate OffStepped(d: seq<Tok>, e: Texts, j: nat)
    requires j < |d|
  {
    Off(d, e, j) <= Off(d, e, j + 1) <= |Render(d, e)|
  }

  lemma ReplaceHere(s: string, f: Form, o: nat)
    requires f.text != "" && o < |s| && ValidAt(s, f, o)
    ensures o + |f.text| <= |s|
    ensures Replaced(s, f, o) == PlaceholderOf(f.spelling) + Replaced(s, f, o + |f.text|)
  {
  }

  // One step where the form stands: in the document and in the text.
  lemma ReplacedStep(d: seq<Tok>, e: Texts, f: Form, j: nat, next: nat)
    requires j < next <= |d| && f.text != ""
    requires ValidAt(Render(d, e), f, Off(d, e, j)) && Off(d, e, next) == Off(d, e, j) + |f.text|
    requires TPass(d, f, j) == [Home(f.spelling)] + TPass(d, f, next)
    requires Off(d, e, next) <= |Render(d, e)|
    requires Replaced(Render(d, e), f, Off(d, e, next)) == Render(TPass(d, f, next), After(e, f))
    ensures Off(d, e, j) <= |Render(d, e)|
    ensures Replaced(Render(d, e), f, Off(d, e, j)) == Render(TPass(d, f, j), After(e, f))
  {
    hide ValidAt, TPass, Replaced, Render, PlaceholderOf;
    ReplaceHere(Render(d, e), f, Off(d, e, j));
    RenderCons(Home(f.spelling), TPass(d, f, next), After(e, f));
  }

  lemma CopiedStep(d: seq<Tok>, e: Texts, f: Form, j: nat)
    requires j < |d| && f.text != "" && TPass(d, f, j) == [d[j]] + TPass(d, f, j + 1)
    requires OffStepped(d, e, j) && forall p :: Off(d, e, j) <= p < Off(d, e, j + 1) ==> !ValidAt(Render(d, e), f, p)
    requires TokText(d[j], e) == TokText(d[j], After(e, f))
    requires Replaced(Render(d, e), f, Off(d, e, j + 1)) == Render(TPass(d, f, j + 1), After(e, f))
    ensures Replaced(Render(d, e), f, Off(d, e, j)) == Render(TPass(d, f, j), After(e, f))
  {
    hide ValidAt, TPass, Replaced, Render, TokText;
    CopyToken(d, e, f, j);
    RenderCons(d[j], TPass(d, f, j + 1), After(e, f));
  }

  // Where the form matches what it should, its replacement in the rendered
  // text is its replacement in the document.
  lemma {:induction false} PassOnText(d: seq<Tok>, e: Texts, f: Form, j: nat)
    requires j <= |d| && f.text != "" && forall i :: 0 <= i < |d| ==> MatchesAt(d, e, f, i)
    ensures Off(d, e, j) <= |Render(d, e)|
    ensures Replaced(Render(d, e), f, Off(d, e, j)) == Render(TPass(d, f, j), After(e, f))
    decreases |d| - j, 1
  {
    hide ValidAt, ValidTok, TPass, Replaced, Render, Off, MatchesAt, Own;
    if j == |d| {
      PassAtEnd(d, e, f);
    } else if d[j].Ch? && ValidTok(d, f, j) {
      PassOnValid(d, e, f, j);
    } else {
      PassOnText(d, e, f, j + 1);
      if Own(d[j], e, f) { PassOnOwn(d, e, f, j); } else { PassOnOther(d, e, f, j); }
    }
  }

  lemma PassAtEnd(d: seq<Tok>, e: Texts, f: Form)
    requires f.text != ""
    ensures Off(d, e, |d|) <= |Render(d, e)|
    ensures Replaced(Render(d, e), f, Off(d, e, |d|)) == Render(TPass(d, f, |d|), After(e, f))
  {
    OffEnds(d, e);
    EmptyAtEnd(d, f);
    ReplacedNothing(Render(d, e), f);
  }

  lemma {:induction false} PassOnOwn(d: seq<Tok>, e: Texts, f: Form, j: nat)
    requires j < |d| && f.text != "" && MatchesAt(d, e, f, j) && Own(d[j], e, f)
    requires Off(d, e, j + 1) <= |Render(d, e)|
    requires Replaced(Render(d, e), f, Off(d, e, j + 1)) == Render(TPass(d, f, j + 1), After(e, f))
    ensures Off(d, e, j) <= |Render(d, e)|
    ensures Replaced(Render(d, e), f, Off(d, e, j)) == Render(TPass(d, f, j), After(e, f))
  {
    hide ValidAt, ValidTok, TPass, Replaced, Render, Off;
    OffStep(d, e, j);
    HomeIsNotValid(d, f, j);
    CopyPass(d, f, j);
    ReplacedStep(d, e, f, j, j + 1);
  }

  lemma {:induction false} PassOnOther(d: seq<Tok>, e: Texts, f: Form, j: nat)
    requires j < |d| && f.text != "" && MatchesAt(d, e, f, j) && !Own(d[j], e, f) && !(d[j].Ch? && ValidTok(d, f, j))
    requires Off(d, e, j + 1) <= |Render(d, e)|
    requires Replaced(Render(d, e), f, Off(d, e, j + 1)) == Render(TPass(d, f, j + 1), After(e, f))
    ensures Off(d, e, j) <= |Render(d, e)|
    ensures Replaced(Render(d, e), f, Off(d, e, j)) == Render(TPass(d, f, j), After(e, f))
  {
    hide ValidAt, ValidTok, TPass, Replaced, Render, Off;
    OffStep(d, e, j);
    if d[j].Home? { HomeIsNotValid(d, f, j); }
    CopyPass(d, f, j);
    CopiedText(d[j], e, f);
    CopiedStep(d, e, f, j);
  }

  lemma {:induction false} PassOnValid(d: seq<Tok>, e: Texts, f: Form, j: nat)
    requires j < |d| && f.text != "" && forall i :: 0 <= i < |d| ==> MatchesAt(d, e, f, i)
    requires d[j].Ch? && ValidTok(d, f, j)
    ensures Off(d, e, j) <= |Render(d, e)|
    ensures Replaced(Render(d, e), f, Off(d, e, j)) == Render(TPass(d, f, j), After(e, f))
    decreases |d| - j, 0
  {
    hide *;
    LiteralRun(d, f, j);
    MatchesThere(d, e, f, j);
    OffRun(d, e, j, |f.text|);
    ValidPass(d, f, j);
    PassOnText(d, e, f, j + |f.text|);
    ReplacedStep(d, e, f, j, j + |f.text|);
  }

  lemma MatchesThere(d: seq<Tok>, e: Texts, f: Form, j: nat)
    requires j < |d| && MatchesAt(d, e, f, j) && d[j].Ch? && ValidTok(d, f, j)
    ensures ValidAt(Render(d, e), f, Off(d, e, j))
  {
  }

  lemma CopiedText(t: Tok, e: Texts, f: Form)
    requires !Own(t, e, f)
    ensures TokText(t, e) == TokText(t, After(e, f))
  {
  }

  lemma CopyPass(d: seq<Tok>, f: Form, j: nat)
    requires j < |d| && f.text != "" && !ValidTok(d, f, j)
    ensures TPass(d, f, j) == [d[j]] + TPass(d, f, j + 1)
  {
  }

  lemma RenderCons(t: Tok, rest: seq<Tok>, e: Texts)
    ensures Render([t] + rest, e) == TokText(t, e) + Render(rest, e)
  {
    assert ([t] + rest)[1..] == rest;
  }

  lemma LiteralRun(d: seq<Tok>, f: Form, j: nat)
    requires ValidTok(d, f, j)
    ensures j + |f.text| <= |d| && Literal(d[j..j + |f.text|])
  {
  }

  lemma ValidPass(d: seq<Tok>, f: Form, j: nat)
    requires j < |d| && f.text != "" && ValidTok(d, f, j)
    ensures TPass(d, f, j) == [Home(f.spelling)] + TPass(d, f, j + |f.text|)
  {
  }

  lemma HomeIsNotValid(d: seq<Tok>, f: Form, j: nat)
    requires j < |d| && d[j].Home? && f.text != ""
    ensures !ValidTok(d, f, j)
  {
    if j + |f.text| <= |d| { assert d[j..j + |f.text|][0] == d[j]; }
  }

  // ------------------------------------------------ expanding a document

  function Portables(): Texts {
    (sp: Spelling) => PlaceholderOf(sp)
  }

  lemma PlaceholderFound(sp: Spelling, rest: string)
    ensures PlaceholderAt(PlaceholderOf(sp) + rest) == Some(sp)
  {
    var b := PlaceholderOf(sp) + rest;
    match sp
    case Slash => assert b[17] == '_' && PLACEHOLDER_WIN[17] == 'W' && PLACEHOLDER_WIN_ESCAPED[17] == 'W';
    case Win => assert b[21] == '_' && PLACEHOLDER_WIN_ESCAPED[21] == 'E';
    case WinEscaped =>
  }

  ghost predicate AllNames(s: string) {
    forall k :: 0 <= k < |s| ==> IsNameByte(s[k])
  }

  lemma PrefixIsNames()
    ensures AllNames(PREFIX)
  {
    assert forall k :: 0 <= k < |PREFIX| ==> IsLetter(PREFIX[k]) || PREFIX[k] == '_';
  }

  // p literal bytes of a name stand right before j: if the rest of the name
  // follows in the rendered text, it follows literally.
  lemma {:induction false} NameRunIsLiteral(d: seq<Tok>, e: Texts, text: string, j: nat, p: nat)
    requires Separated(d) && AllNames(text)
    requires 0 < p <= |text| && p <= j <= |d| && Reads(d[j - p..j], text[..p], false)
    ensures text[p..] <= Render(d[j..], e) ==> HasRun(d, text)
    decreases |text| - p
  {
    hide Render;
    assert d[j - p..j][p - 1] == d[j - 1] && text[..p][p - 1] == text[p - 1];
    assert IsNameByte(text[p - 1]);
    if p == |text| {
      assert text[..p] == text && Spells(d, text, false, j - p);
    } else if j < |d| && d[j].Ch? && text[p..] <= Render(d[j..], e) {
      RenderFrom(d, e, j);
      assert Render(d[j..], e)[1..] == Render(d[j + 1..], e);
      assert text[p..][0] == text[p] && text[p + 1..] == text[p..][1..];
      assert d[j - p..j + 1] == d[j - p..j] + [d[j]] && text[..p + 1] == text[..p] + [text[p]];
      NameRunIsLiteral(d, e, text, j + 1, p + 1);
    } else if j == |d| {
      RenderNothing(e);
      assert d[j..] == [];
    }
  }

  lemma RenderNothing(e: Texts)
    ensures Render([], e) == ""
  {
  }

  lemma LiteralIsNoPlaceholder(d: seq<Tok>, j: nat, e: Texts, prefix: string)
    requires Separated(d) && AllNames(prefix) && |prefix| > 1 && j < |d| && d[j].Ch?
    ensures prefix <= Render(d[j..], e) ==> HasRun(d, prefix)
  {
    var r := Render(d[j..], e);
    assert r == [d[j].c] + Render(d[j..][1..], e) && d[j..][1..] == d[j + 1..];
    if d[j].c == prefix[0] {
      assert d[j + 1 - 1..j + 1] == [d[j]] && prefix[..1] == [prefix[0]];
      NameRunIsLiteral(d, e, prefix, j + 1, 1);
      if prefix <= r { assert prefix[1..] <= r[1..]; }
    }
  }

  // Expanding the portable rendering expands its homes and nothing else.
  lemma {:induction false} ExpandDoc(d: seq<Tok>, m: Mapper, j: nat)
    requires j <= |d| && Separated(d) && !HasRun(d, PREFIX)
    requires m.windows || forall i :: 0 <= i < |d| && d[i].Home? ==> d[i].sp == Slash
    ensures Expanded(m, Render(d[j..], Portables())) == Render(d[j..], m.expand)
    decreases |d| - j
  {
    hide Render, Expanded, HasRun, Separated;
    if j == |d| {
      assert d[j..] == [];
      ExpandNothing(m);
    } else {
      ExpandDoc(d, m, j + 1);
      if d[j].Ch? { ExpandLiteral(d, m, j); } else { ExpandHome(d, m, j); }
    }
  }

  lemma ExpandNothing(m: Mapper)
    ensures Expanded(m, Render([], Portables())) == Render([], m.expand)
  {
  }

  lemma RenderFrom(d: seq<Tok>, e: Texts, j: nat)
    requires j < |d|
    ensures Render(d[j..], e) == TokText(d[j], e) + Render(d[j + 1..], e)
  {
    assert d[j..][1..] == d[j + 1..];
  }

  lemma ExpandLiteral(d: seq<Tok>, m: Mapper, j: nat)
    requires j < |d| && Separated(d) && !HasRun(d, PREFIX) && d[j].Ch?
    requires Expanded(m, Render(d[j + 1..], Portables())) == Render(d[j + 1..], m.expand)
    ensures Expanded(m, Render(d[j..], Portables())) == Render(d[j..], m.expand)
  {
    hide Render, PlaceholderAt, HasRun, PlaceholderOf;
    RenderFrom(d, Portables(), j);
    RenderFrom(d, m.expand, j);
    var b := Render(d[j..], Portables());
    PrefixIsNames();
    LiteralIsNoPlaceholder(d, j, Portables(), PREFIX);
    PlaceholdersStartWithPrefix(b);
    assert b[1..] == Render(d[j + 1..], Portables());
  }

  lemma ExpandHome(d: seq<Tok>, m: Mapper, j: nat)
    requires j < |d| && d[j].Home? && (m.windows || d[j].sp == Slash)
    requires Expanded(m, Render(d[j + 1..], Portables())) == Render(d[j + 1..], m.expand)
    ensures Expanded(m, Render(d[j..], Portables())) == Render(d[j..], m.expand)
  {
    hide Render, PlaceholderAt, PlaceholderOf, Expanded;
    RenderFrom(d, Portables(), j);
    RenderFrom(d, m.expand, j);
    var sp, rest := d[j].sp, Render(d[j + 1..], Portables());
    var b := Render(d[j..], Portables());
    PlaceholderFound(sp, rest);
    ExpandedHere(m, b, sp);
    assert b[|PlaceholderOf(sp)|..] == rest && rest[0..] == rest;
    AfterHomeIs(m, sp, rest);
  }

  lemma {:induction false} PassesSpell(d: seq<Tok>, f: Form, i: nat)
    requires i <= |d| && f.text != "" && f.spelling == Slash
    requires forall k :: 0 <= k < |d| && d[k].Home? ==> d[k].sp == Slash
    ensures forall k :: 0 <= k < |TPass(d, f, i)| && TPass(d, f, i)[k].Home? ==> TPass(d, f, i)[k].sp == Slash
    decreases |d| - i
  {
    if i < |d| { PassesSpell(d, f, if ValidTok(d, f, i) then i + |f.text| else i + 1); }
  }
}
