// Two POSIX machines: what one machine makes portable and the other expands,
// the other makes portable again exactly as it was, so neither rewrites the
// other's files.
module HomeAcross {
  import opened Options
  import opened HomePath
  import opened HomePosix
  import opened HomeTokens

  // A home made of non-empty components of name bytes.
  ghost predicate HomeShape(h: string) {
    && |h| >= 2 && h[0] == '/' && IsNameByte(h[|h| - 1])
    && (forall k :: 0 <= k < |h| ==> h[k] == '/' || IsNameByte(h[k]))
    && forall k :: 0 <= k < |h| - 1 ==> !(h[k] == '/' && h[k + 1] == '/')
  }

  lemma CharBefore(d: seq<Tok>, e: Texts, j: nat)
    requires 0 < j <= |d| && TokText(d[j - 1], e) != ""
    ensures Off(d, e, j) > 0 && Off(d, e, j) <= |Render(d, e)|
    ensures var t := TokText(d[j - 1], e); Render(d, e)[Off(d, e, j) - 1] == t[|t| - 1]
  {
    hide Render, TokText;
    OffStep(d, e, j - 1);
    var s, a, b := Render(d, e), Off(d, e, j - 1), Off(d, e, j);
    assert s[a..b][|s[a..b]| - 1] == s[b - 1];
  }

  lemma CharAt(d: seq<Tok>, e: Texts, j: nat)
    requires j < |d| && TokText(d[j], e) != ""
    ensures Off(d, e, j) < |Render(d, e)| && Render(d, e)[Off(d, e, j)] == TokText(d[j], e)[0]
  {
    hide Render, TokText;
    OffStep(d, e, j);
    var s, a, b := Render(d, e), Off(d, e, j), Off(d, e, j + 1);
    assert s[a..b][0] == s[a];
  }

  lemma TextEndsAt(d: seq<Tok>, e: Texts, j: nat)
    requires j <= |d| && forall sp :: e(sp) != ""
    ensures Off(d, e, j) <= |Render(d, e)|
    ensures Off(d, e, j) == |Render(d, e)| <==> j == |d|
  {
    hide Render, TokText;
    RenderSplit(d, e, j);
    OffEnds(d, e);
    if j < |d| {
      assert TokText(d[j], e) != "" by { TokIsText(d[j], e); }
      CharAt(d, e, j);
    }
  }

  lemma TokIsText(t: Tok, e: Texts)
    requires forall sp :: e(sp) != ""
    ensures TokText(t, e) != ""
  {
  }

  ghost predicate SameText(a: string, b: string, fold: bool) {
    |a| == |b| && forall k :: 0 <= k < |a| ==> SameByte(a[k], b[k], fold)
  }

  lemma MatchIsSlice(s: string, text: string, fold: bool, o: nat)
    ensures MatchAt(s, text, fold, o) <==> o + |text| <= |s| && SameText(s[o..o + |text|], text, fold)
  {
    if o + |text| <= |s| {
      var t := s[o..o + |text|];
      assert forall k :: 0 <= k < |text| ==> t[k] == s[o + k];
    }
  }

  lemma ReadsIsText(run: seq<Tok>, text: string, fold: bool)
    ensures Reads(run, text, fold) <==> Literal(run) && SameText(Bytes(run), text, fold)
  {
    if Literal(run) { BytesAre(run); }
  }

  // A literal run matches in the text exactly when it does in the document.
  lemma RunMatches(d: seq<Tok>, e: Texts, f: Form, j: nat)
    requires j + |f.text| <= |d| && Literal(d[j..j + |f.text|])
    ensures MatchAt(Render(d, e), f.text, f.fold, Off(d, e, j)) <==> Spells(d, f.text, f.fold, j)
  {
    hide Render, MatchAt, Reads, SameText, Off, Bytes;
    OffRun(d, e, j, |f.text|);
    MatchIsSlice(Render(d, e), f.text, f.fold, Off(d, e, j));
    ReadsIsText(d[j..j + |f.text|], f.text, f.fold);
  }

  lemma SpellsLiteral(d: seq<Tok>, text: string, fold: bool, j: nat)
    requires Spells(d, text, fold, j)
    ensures j + |text| <= |d| && Literal(d[j..j + |text|])
  {
  }

  ghost predicate NameTexts(e: Texts) {
    forall sp :: e(sp) != "" && IsNameByte(e(sp)[0]) && IsNameByte(e(sp)[|e(sp)| - 1])
  }

  // A byte that belongs to no name stands, literally, right before j.
  lemma LeftNeighbour(d: seq<Tok>, e: Texts, j: nat)
    requires j <= |d| && forall sp :: e(sp) != ""
    ensures Off(d, e, j) <= |Render(d, e)|
    ensures var free := Off(d, e, j) > 0 && IsNameByte(Render(d, e)[Off(d, e, j) - 1]);
            && (j == 0 || NonName(d[j - 1]) ==> !free)
            && (NameTexts(e) && !free ==> j == 0 || NonName(d[j - 1]))
  {
    hide Render, Off;
    if j > 0 { TokIsText(d[j - 1], e); CharBefore(d, e, j); } else { OffEnds(d, e); }
  }

  lemma RightNeighbour(d: seq<Tok>, e: Texts, j: nat)
    requires j <= |d| && forall sp :: e(sp) != ""
    ensures Off(d, e, j) <= |Render(d, e)|
    ensures var free := Off(d, e, j) < |Render(d, e)| && IsNameByte(Render(d, e)[Off(d, e, j)]);
            && (j == |d| || NonName(d[j]) ==> !free)
            && (NameTexts(e) && !free ==> j == |d| || NonName(d[j]))
  {
    hide Render, Off;
    TextEndsAt(d, e, j);
    if j < |d| { TokIsText(d[j], e); CharAt(d, e, j); }
  }

  // The bytes around n literal tokens at j are those of its neighbours.
  lemma BoundedByNeighbours(d: seq<Tok>, e: Texts, j: nat, n: nat)
    requires j + n <= |d| && Off(d, e, j + n) == Off(d, e, j) + n && forall sp :: e(sp) != ""
    ensures Off(d, e, j) + n <= |Render(d, e)|
    ensures (j == 0 || NonName(d[j - 1])) && (j + n == |d| || NonName(d[j + n])) ==>
              Bounded(Render(d, e), Off(d, e, j), n)
    ensures Bounded(Render(d, e), Off(d, e, j), n) && NameTexts(e)
            ==> (j == 0 || NonName(d[j - 1])) && (j + n == |d| || NonName(d[j + n]))
  {
    hide Render, Off, NonName, IsNameByte, NameTexts;
    LeftNeighbour(d, e, j);
    RightNeighbour(d, e, j + n);
  }

  // A form that stands in the document stands in its text.
  lemma ValidTokIsValid(d: seq<Tok>, e: Texts, f: Form, j: nat)
    requires j <= |d| && ValidTok(d, f, j) && forall sp :: e(sp) != ""
    ensures ValidAt(Render(d, e), f, Off(d, e, j))
  {
    hide Render, MatchAt, Reads, Bounded, Off;
    SpellsLiteral(d, f.text, f.fold, j);
    OffRun(d, e, j, |f.text|);
    RunMatches(d, e, f, j);
    BoundedByNeighbours(d, e, j, |f.text|);
  }

  // A literal match between texts of names stands in the document.
  lemma LiteralMatchIsValidTok(d: seq<Tok>, e: Texts, f: Form, j: nat)
    requires j + |f.text| <= |d| && Literal(d[j..j + |f.text|]) && forall sp :: e(sp) != ""
    requires ValidAt(Render(d, e), f, Off(d, e, j))
    requires NameTexts(e)
    ensures ValidTok(d, f, j)
  {
    hide Render, MatchAt, Reads, Bounded, Off, NameTexts;
    OffRun(d, e, j, |f.text|);
    RunMatches(d, e, f, j);
    BoundedByNeighbours(d, e, j, |f.text|);
  }

  // ------------------------------------------------ a text as a document

  lemma CharsOff(s: string, e: Texts, j: nat)
    requires j <= |s|
    ensures Off(Chars(s), e, j) == j
  {
    assert Chars(s)[..j] == Chars(s[..j]);
    RenderChars(s[..j], e);
  }

  lemma CharsSlice(s: string, j: nat, n: nat)
    requires j + n <= |s|
    ensures Chars(s)[j..j + n] == Chars(s[j..j + n]) && Literal(Chars(s)[j..j + n])
    ensures Bytes(Chars(s)[j..j + n]) == s[j..j + n]
  {
    assert Chars(s)[j..j + n] == Chars(s[j..j + n]);
    BytesAre(Chars(s[j..j + n]));
  }

  lemma SameTextIsEqual(a: string, b: string)
    ensures SameText(a, b, false) <==> a == b
  {
  }

  lemma CharsRun(s: string, text: string)
    ensures HasRun(Chars(s), text) <==> Contains(s, text)
  {
    hide Reads, SameText, Bytes;
    forall j: nat | j + |text| <= |s| ensures Spells(Chars(s), text, false, j) <==> text <= s[j..] {
      CharsSlice(s, j, |text|);
      ReadsIsText(Chars(s)[j..j + |text|], text, false);
      SameTextIsEqual(s[j..j + |text|], text);
      assert s[j..j + |text|] == s[j..][..|text|];
    }
    if HasRun(Chars(s), text) {
      var j :| 0 <= j <= |s| && Spells(Chars(s), text, false, j);
      assert text <= s[j..];
    }
    if Contains(s, text) {
      var j :| 0 <= j <= |s| && text <= s[j..];
      assert Spells(Chars(s), text, false, j);
    }
  }

  // In a text without homes a form matches exactly where it stands.
  lemma CharsMatch(s: string, e: Texts, f: Form, j: nat)
    requires j < |s|
    ensures MatchesAt(Chars(s), e, f, j)
  {
    hide Render, Reads, Bytes, MatchAt, SameText, Off;
    RenderChars(s, e);
    CharsOff(s, e, j);
    MatchIsSlice(s, f.text, f.fold, j);
    if j + |f.text| <= |s| {
      CharsSlice(s, j, |f.text|);
      ReadsIsText(Chars(s)[j..j + |f.text|], f.text, f.fold);
    }
  }

  // The first pass on a text.
  lemma FirstPass(s: string, f: Form)
    requires f.text != ""
    ensures Replaced(s, f, 0) == Render(TPass(Chars(s), f, 0), Portables())
  {
    var d := Chars(s);
    forall j | 0 <= j < |d| ensures MatchesAt(d, Portables(), f, j) { CharsMatch(s, Portables(), f, j); }
    PassOnText(d, Portables(), f, 0);
    RenderChars(s, Portables());
    CharsOff(s, Portables(), 0);
    SameRender(TPass(d, f, 0), After(Portables(), f), Portables());
  }

  lemma {:induction false} SameRender(d: seq<Tok>, e: Texts, e': Texts)
    requires forall sp :: e(sp) == e'(sp)
    ensures Render(d, e) == Render(d, e')
  {
    if d != [] { SameRender(d[1..], e, e'); }
  }

  // ----------------------------------------------------- the other machine

  // The last of the p bytes read before j.
  lemma LastRead(d: seq<Tok>, h: string, j: nat, p: nat)
    requires 0 < p <= |h| && p <= j <= |d| && Reads(d[j - p..j], h[..p], false)
    ensures d[j - 1].Ch? && SameByte(d[j - 1].c, h[p - 1], false)
  {
    assert d[j - p..j][p - 1] == d[j - 1] && h[..p][p - 1] == h[p - 1];
  }

  lemma OneMoreRead(d: seq<Tok>, h: string, j: nat, p: nat)
    requires 0 < p < |h| && p <= j < |d| && Reads(d[j - p..j], h[..p], false)
    requires d[j].Ch? && d[j].c == h[p]
    ensures Reads(d[j - p..j + 1], h[..p + 1], false)
  {
    assert d[j - p..j + 1] == d[j - p..j] + [d[j]] && h[..p + 1] == h[..p] + [h[p]];
  }

  // A home stands at j: its text starts with a slash, and so did what comes
  // before it end with one.
  lemma NoHomeInside(d: seq<Tok>, h: string, j: nat, p: nat, r: string)
    requires Separated(d) && HomeShape(h) && 0 < p < |h| && p <= j < |d|
    requires Reads(d[j - p..j], h[..p], false) && d[j].Home? && h <= r
    ensures !(h[p..] <= r)
  {
    LastRead(d, h, j, p);
    assert !IsNameByte(h[p - 1]) && h[p - 1] == '/';
    assert h[p..][0] == h[p] && r[0] == '/';
    assert !(h[p - 1] == '/' && h[p - 1 + 1] == '/');
  }

  // p literal bytes of the other machine's home stand right before j: if the
  // rest follows in its text, the home stands there literally. It cannot run
  // into an expanded home: that would put two slashes side by side.
  lemma {:induction false} HomeRunIsLiteral(d: seq<Tok>, e: Texts, h: string, j: nat, p: nat)
    requires Separated(d) && HomeShape(h) && forall sp :: e(sp) == h
    requires 0 < p <= |h| && p <= j <= |d| && Reads(d[j - p..j], h[..p], false)
    ensures h[p..] <= Render(d[j..], e) ==> HasRun(d, h)
    decreases |h| - p
  {
    hide Render, Separated, HomeShape, Reads;
    if p == |h| {
      assert h[..p] == h && Spells(d, h, false, j - p);
    } else if j == |d| {
      RenderNothing(e);
      assert d[j..] == [];
    } else {
      RenderFrom(d, e, j);
      var r, rest := Render(d[j..], e), Render(d[j + 1..], e);
      if d[j].Home? {
        NoHomeInside(d, h, j, p, r);
      } else if h[p..] <= r {
        assert r[0] == d[j].c && r[1..] == rest && h[p..][0] == h[p] && h[p..][1..] == h[p + 1..];
        OneMoreRead(d, h, j, p);
        HomeRunIsLiteral(d, e, h, j + 1, p + 1);
      }
    }
  }

  lemma NoMatchInLiteral(d: seq<Tok>, e: Texts, h: string, j: nat)
    requires Separated(d) && HomeShape(h) && (forall sp :: e(sp) == h) && j < |d| && d[j].Ch?
    ensures MatchAt(Render(d, e), h, false, Off(d, e, j)) ==> HasRun(d, h)
  {
    hide Render, MatchAt, Off, HomeShape;
    RenderSplit(d, e, j);
    RenderFrom(d, e, j);
    var r, rest := Render(d[j..], e), Render(d[j + 1..], e);
    MatchIsPrefix(Render(d, e), h, Off(d, e, j));
    if h <= r {
      ShapeIsNotEmpty(h);
      FirstByteLiteral(d, h, j, r);
      assert r[1..] == rest;
      HomeRunIsLiteral(d, e, h, j + 1, 1);
    }
  }

  lemma MatchIsPrefix(s: string, h: string, o: nat)
    requires o <= |s|
    ensures MatchAt(s, h, false, o) <==> h <= s[o..]
  {
    MatchIsSlice(s, h, false, o);
    if o + |h| <= |s| {
      SameTextIsEqual(s[o..o + |h|], h);
      assert s[o..o + |h|] == s[o..][..|h|];
    }
  }

  lemma ShapeIsNotEmpty(h: string)
    requires HomeShape(h)
    ensures |h| >= 2 && h[0] == '/'
  {
  }

  lemma ValidTokHasRun(d: seq<Tok>, h: string, j: nat)
    ensures ValidTok(d, PosixForm(h), j) ==> HasRun(d, h)
  {
    if ValidTok(d, PosixForm(h), j) { assert Spells(d, h, false, j); }
  }

  lemma FirstByteLiteral(d: seq<Tok>, h: string, j: nat, r: string)
    requires j < |d| && d[j].Ch? && h != "" && h <= r && r[0] == d[j].c
    ensures Reads(d[j + 1 - 1..j + 1], h[..1], false) && h[1..] <= r[1..]
  {
    assert d[j + 1 - 1..j + 1] == [d[j]] && h[..1] == [h[0]];
  }

  lemma OtherMachineMatches(d: seq<Tok>, h: string, j: nat)
    requires Separated(d) && HomeShape(h) && !HasRun(d, h) && j < |d|
    requires d[j].Home? ==> d[j].sp == Slash
    ensures MatchesAt(d, (sp: Spelling) => h, PosixForm(h), j)
  {
    var e: Texts := (sp: Spelling) => h;
    var f := PosixForm(h);
    if d[j].Ch? {
      NoMatchInLiteral(d, e, h, j);
      ValidTokHasRun(d, h, j);
    } else {
      hide Render, MatchAt;
      assert h[0] == '/' && PlaceholderOf(Slash)[0] == '_';
      OffStep(d, e, j);
      MatchIsSlice(Render(d, e), h, false, Off(d, e, j));
      SameTextIsEqual(h, h);
      HomeIsBounded(d, e, j);
    }
  }

  // An expanded home stands between bytes that belong to no name.
  lemma HomeIsBounded(d: seq<Tok>, e: Texts, j: nat)
    requires Separated(d) && j < |d| && d[j].Home? && forall sp :: e(sp) != ""
    ensures Off(d, e, j) + |e(d[j].sp)| <= |Render(d, e)| && Bounded(Render(d, e), Off(d, e, j), |e(d[j].sp)|)
  {
    hide Render, Off;
    OffStep(d, e, j);
    if j > 0 { CharBefore(d, e, j); } else { OffEnds(d, e); }
    TextEndsAt(d, e, j + 1);
    if j + 1 < |d| { CharAt(d, e, j + 1); }
  }

  // For homes of name-byte components: the second machine gives back the
  // portable form of the first, unless its own home stands in the content.
  lemma SecondMachineAgrees(s: string, a: Mapper, homeA: string, b: Mapper, homeB: string)
    requires PosixMapper(a, homeA) && PosixMapper(b, homeB) && HomeShape(homeA) && HomeShape(homeB)
    requires !Contains(s, PREFIX)
    requires !Contains(s, homeB) || !Contains(Portable(s, a.forms), homeB)
    ensures Portable(Expanded(b, Portable(s, a.forms)), b.forms) == Portable(s, a.forms)
  {
    var f, g := PosixForm(homeA), PosixForm(homeB);
    var d := TPass(Chars(s), f, 0);
    var portable := Portable(s, a.forms);
    PortableOne(s, f);
    PortableOne(Expanded(b, portable), g);
    FirstPass(s, f);
    assert portable == Render(d, Portables());
    PassKeepsSeparated(Chars(s), f, 0);
    PassMakesNoRun(Chars(s), f, PREFIX);
    CharsRun(s, PREFIX);
    PassesSpell(Chars(s), f, 0);
    ExpandDoc(d, b, 0);
    assert d[0..] == d;
    var e: Texts := (sp: Spelling) => homeB;
    SameRender(d, b.expand, e);
    PassMakesNoRun(Chars(s), f, homeB);
    CharsRun(s, homeB);
    RunIsInText(d, Portables(), homeB);
    forall j | 0 <= j < |d| ensures MatchesAt(d, e, g, j) { OtherMachineMatches(d, homeB, j); }
    PassOnText(d, e, g, 0);
    OffEnds(d, e);
    forall j | 0 <= j <= |d| ensures !ValidTok(d, g, j) { ValidTokHasRun(d, homeB, j); }
    PassOfNone(d, g, 0);
    SlashRender(d, After(e, g), Portables());
  }

  lemma PortableOne(s: string, f: Form)
    requires f.text != ""
    ensures Portable(s, [f]) == Replaced(s, f, 0)
  {
    assert [f][1..] == [];
  }

  lemma RunIsInText(d: seq<Tok>, e: Texts, text: string)
    ensures HasRun(d, text) ==> Contains(Render(d, e), text)
  {
    if HasRun(d, text) {
      var j :| 0 <= j <= |d| && Spells(d, text, false, j);
      OffRun(d, e, j, |text|);
      BytesAre(d[j..j + |text|]);
      assert Bytes(d[j..j + |text|]) == text;
      assert text <= Render(d, e)[Off(d, e, j)..];
    }
  }

  lemma {:induction false} SlashRender(d: seq<Tok>, e: Texts, e': Texts)
    requires e(Slash) == e'(Slash) && forall j :: 0 <= j < |d| && d[j].Home? ==> d[j].sp == Slash
    ensures Render(d, e) == Render(d, e')
  {
    if d != [] { SlashRender(d[1..], e, e'); }
  }
}
