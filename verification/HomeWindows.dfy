// A Windows machine: expanding the portable form and making it portable again
// changes nothing, across the four spellings of the home directory; with the
// one family of homes for which that fails.
module HomeWindows {
  import opened Options
  import opened HomePath
  import opened HomePosix
  import opened HomeTokens
  import opened HomeAcross

  ghost predicate FoldContains(s: string, q: string) {
    exists i: nat :: MatchAt(s, q, true, i)
  }

  // A drive-letter home: one colon, no doubled backslash, its last byte part
  // of a name, and not spelled like a placeholder.
  ghost predicate DriveHome(raw: string) {
    && |raw| >= 4 && IsDrivePath(raw) && IsNameByte(raw[|raw| - 1])
    && (forall k :: 0 <= k < |raw| && k != 1 ==> raw[k] != ':')
    && (forall k :: 0 <= k < |raw| ==> raw[k] != '/')
    && (forall k :: 0 <= k < |raw| - 1 ==> !(raw[k] == '\\' && raw[k + 1] == '\\'))
    && !FoldContains(raw, PREFIX)
  }

  // The last component is the drive letter alone, as in C:\Users\c.
  predicate EndsInDriveLetter(x: string)
    requires |x| >= 4
  {
    !IsNameByte(x[|x| - 2]) && LowerASCII(x[|x| - 1]) == LowerASCII(x[0])
  }

  // What the three spellings with a drive share.
  ghost predicate DriveText(x: string) {
    && |x| >= 4 && IsLetter(x[0]) && x[1] == ':' && IsNameByte(x[|x| - 1])
    && (forall k :: 0 <= k < |x| && k != 1 ==> x[k] != ':')
    && !FoldContains(x, PREFIX) && !EndsInDriveLetter(x)
  }

  ghost predicate Differ(x: string, y: string) {
    exists k :: 0 <= k < |x| && k < |y| && !SameByte(x[k], y[k], true)
  }

  // What a pass of form f may meet: placeholders, its own homes in the
  // canonical spelling, and homes in spellings that differ from it.
  ghost predicate Meets(f: Form, e: Texts) {
    && f.fold && |f.text| >= 4 && f.text[0] != '_' && !FoldContains(f.text, PREFIX) && IsNameByte(f.text[|f.text| - 1])
    && forall sp :: e(sp) != PlaceholderOf(sp) ==>
         && DriveText(f.text) && DriveText(e(sp)) && LowerASCII(e(sp)[0]) == LowerASCII(f.text[0])
         && (if sp == f.spelling then e(sp) == f.text else Differ(f.text, e(sp)))
  }

  lemma PlaceholderIsNames(sp: Spelling)
    ensures AllNames(PlaceholderOf(sp)) && PlaceholderOf(sp)[0] == '_'
  {
    var p := PlaceholderOf(sp);
    assert forall k :: 0 <= k < |p| ==> IsLetter(p[k]) || p[k] == '_';
  }

  lemma TextsAreNames(f: Form, e: Texts)
    requires Meets(f, e)
    ensures NameTexts(e)
  {
    forall sp ensures e(sp) != "" && IsNameByte(e(sp)[0]) && IsNameByte(e(sp)[|e(sp)| - 1]) {
      PlaceholderIsNames(sp);
    }
  }

  // ------------------------------------------------- a match meets a home

  // The p literal bytes of a match are followed by a home: what the match
  // then says about its form and the home's text.
  lemma HomeInMatch(d: seq<Tok>, e: Texts, f: Form, j: nat, p: nat)
    requires Separated(d) && (forall sp :: e(sp) != "")
    requires 0 < p < |f.text| && j + p < |d| && Literal(d[j..j + p]) && d[j + p].Home?
    requires ValidAt(Render(d, e), f, Off(d, e, j))
    ensures var x, y := f.text, e(d[j + p].sp);
            && !IsNameByte(x[p - 1])
            && (forall k :: 0 <= k < |y| && p + k < |x| ==> SameByte(y[k], x[p + k], f.fold))
            && (|x| - p < |y| ==> !IsNameByte(y[|x| - p]))
  {
    var y := e(d[j + p].sp);
    hide Render, Off, ValidAt, Bytes;
    OffRun(d, e, j, p);
    OffStep(d, e, j + p);
    LastLiteral(d, j, p);
    TextInMatch(Render(d, e), f, Off(d, e, j), p, Bytes(d[j..j + p]), y);
  }

  lemma LastLiteral(d: seq<Tok>, j: nat, p: nat)
    requires Separated(d) && 0 < p && j + p < |d| && Literal(d[j..j + p]) && d[j + p].Home?
    ensures |Bytes(d[j..j + p])| == p && !IsNameByte(Bytes(d[j..j + p])[p - 1])
  {
    BytesAre(d[j..j + p]);
    assert d[j..j + p][p - 1] == d[j + p - 1];
  }

  // Where a match covers the bytes z and, at least in part, the text y.
  lemma TextInMatch(s: string, f: Form, o: nat, p: nat, z: string, y: string)
    requires ValidAt(s, f, o) && 0 < p == |z| < |f.text|
    requires o + p + |y| <= |s| && s[o..o + p] == z && s[o + p..o + p + |y|] == y && !IsNameByte(z[p - 1])
    ensures var x := f.text;
            && !IsNameByte(x[p - 1])
            && (forall k :: 0 <= k < |y| && p + k < |x| ==> SameByte(y[k], x[p + k], f.fold))
            && (|x| - p < |y| ==> !IsNameByte(y[|x| - p]))
  {
    var x, b := f.text, o + p;
    assert s[o..o + p][p - 1] == s[o + (p - 1)];
    SameByteSameName(s[o + (p - 1)], x[p - 1], f.fold);
    forall k | 0 <= k < |y| && p + k < |x| ensures SameByte(y[k], x[p + k], f.fold) {
      assert s[b..b + |y|][k] == s[o + (p + k)];
    }
    if |x| - p < |y| {
      assert s[b..b + |y|][|x| - p] == s[o + |x|];
    }
  }

  // Where a match starts k bytes into the text y.
  lemma MatchInText(s: string, f: Form, o: nat, k: nat, y: string)
    requires k < |y| && o + |y| <= |s| && s[o..o + |y|] == y && ValidAt(s, f, o + k)
    ensures k > 0 ==> !IsNameByte(y[k - 1])
    ensures forall i :: 0 <= i < |f.text| && k + i < |y| ==> SameByte(y[k + i], f.text[i], f.fold)
  {
    hide IsNameByte, SameByte;
    if k > 0 { assert s[o..o + |y|][k - 1] == s[o + k - 1]; }
    forall i | 0 <= i < |f.text| && k + i < |y| ensures SameByte(y[k + i], f.text[i], f.fold) {
      assert s[o..o + |y|][k + i] == s[o + k + i];
    }
  }

  lemma MatchInsideHome(d: seq<Tok>, e: Texts, f: Form, j: nat, k: nat)
    requires j < |d| && d[j].Home? && k < |e(d[j].sp)|
    requires ValidAt(Render(d, e), f, Off(d, e, j) + k)
    ensures var x, y := f.text, e(d[j].sp);
            && (k > 0 ==> !IsNameByte(y[k - 1]))
            && (forall i :: 0 <= i < |x| && k + i < |y| ==> SameByte(y[k + i], x[i], f.fold))
  {
    hide Render, Off, ValidAt, IsNameByte, SameByte;
    OffStep(d, e, j);
    MatchInText(Render(d, e), f, Off(d, e, j), k, e(d[j].sp));
  }

  lemma ColonFolds(c: char)
    ensures SameByte(c, ':', true) || SameByte(':', c, true) ==> c == ':'
  {
  }

  lemma PrefixInText(x: string, y: string, p: nat)
    requires PREFIX <= y && p + |PREFIX| <= |x|
    requires forall k :: 0 <= k < |y| && p + k < |x| ==> SameByte(y[k], x[p + k], true)
    ensures FoldContains(x, PREFIX)
  {
    assert forall k :: 0 <= k < |PREFIX| ==> PREFIX[k] == y[k];
    assert MatchAt(x, PREFIX, true, p);
  }

  // A valid match never runs from literal text into a home.
  lemma MatchStopsBeforeHome(d: seq<Tok>, e: Texts, f: Form, j: nat, p: nat)
    requires Separated(d) && Meets(f, e)
    requires 0 < p < |f.text| && j + p < |d| && Literal(d[j..j + p]) && d[j + p].Home?
    ensures !ValidAt(Render(d, e), f, Off(d, e, j))
  {
    hide Render, Off, ValidAt, PlaceholderOf;
    TextsAreNames(f, e);
    if ValidAt(Render(d, e), f, Off(d, e, j)) {
      HomeInMatch(d, e, f, j, p);
      var x, sp := f.text, d[j + p].sp;
      NotFollowed(f, e, sp, p);
    }
  }

  lemma NotFollowed(f: Form, e: Texts, sp: Spelling, p: nat)
    requires Meets(f, e) && 0 < p < |f.text|
    ensures var x, y := f.text, e(sp);
            !(&& !IsNameByte(x[p - 1])
              && (forall k :: 0 <= k < |y| && p + k < |x| ==> SameByte(y[k], x[p + k], f.fold))
              && (|x| - p < |y| ==> !IsNameByte(y[|x| - p])))
  {
    hide PlaceholderOf;
    var x, y := f.text, e(sp);
    if forall k :: 0 <= k < |y| && p + k < |x| ==> SameByte(y[k], x[p + k], true) {
      if y == PlaceholderOf(sp) {
        PlaceholderIsNames(sp);
        if |x| - p >= |y| { PrefixInText(x, y, p); }
      } else if p + 1 < |x| {
        ColonFolds(x[p + 1]);
      }
    }
  }

  lemma NotInsideHome(f: Form, e: Texts, sp: Spelling, k: nat)
    requires Meets(f, e) && k < |e(sp)| && (e(sp) == PlaceholderOf(sp) || sp != f.spelling)
    ensures var x, y := f.text, e(sp);
            !(&& (k > 0 ==> !IsNameByte(y[k - 1]))
              && (forall i :: 0 <= i < |x| && k + i < |y| ==> SameByte(y[k + i], x[i], f.fold)))
  {
    hide PlaceholderOf;
    var x, y := f.text, e(sp);
    if forall i :: 0 <= i < |x| && k + i < |y| ==> SameByte(y[k + i], x[i], true) {
      assert SameByte(y[k + 0], x[0], true);
      if y == PlaceholderOf(sp) {
        PlaceholderIsNames(sp);
      } else if k > 0 && k + 1 < |y| {
        ColonFolds(y[k + 1]);
      } else if k == 0 {
        DifferenceShows(x, y);
      }
    }
  }

  lemma DifferenceShows(x: string, y: string)
    ensures Differ(x, y) ==> exists i :: 0 <= i < |x| && i < |y| && !SameByte(y[0 + i], x[i], true)
  {
    if Differ(x, y) {
      var k :| 0 <= k < |x| && k < |y| && !SameByte(x[k], y[k], true);
      assert !SameByte(y[0 + k], x[k], true);
    }
  }

  // A valid match that starts in literal text lies in literal text.
  lemma {:induction false} MatchIsLiteral(d: seq<Tok>, e: Texts, f: Form, j: nat, p: nat)
    requires 0 < p <= |f.text| && j + p <= |d| && Literal(d[j..j + p])
    requires Separated(d) && Meets(f, e) && ValidAt(Render(d, e), f, Off(d, e, j))
    ensures j + |f.text| <= |d| && Literal(d[j..j + |f.text|])
    decreases |f.text| - p
  {
    hide *;
    if p < |f.text| {
      MatchGoesOn(d, e, f, j, p);
      LiteralOneMore(d, j, p);
      MatchIsLiteral(d, e, f, j, p + 1);
    }
  }

  lemma MatchGoesOn(d: seq<Tok>, e: Texts, f: Form, j: nat, p: nat)
    requires 0 < p < |f.text| && j + p <= |d| && Literal(d[j..j + p])
    requires Separated(d) && Meets(f, e) && ValidAt(Render(d, e), f, Off(d, e, j))
    ensures j + p < |d| && d[j + p].Ch?
  {
    hide Render, Meets, Off, Separated, Bytes, NameTexts, Literal;
    OffRun(d, e, j, p);
    TextsAreNames(f, e);
    NamesAreTexts(e);
    TextEndsAt(d, e, j + p);
    if j + p < |d| && d[j + p].Home? { MatchStopsBeforeHome(d, e, f, j, p); }
  }

  lemma NamesAreTexts(e: Texts)
    requires NameTexts(e)
    ensures forall sp :: e(sp) != ""
  {
  }

  lemma LiteralOneMore(d: seq<Tok>, j: nat, p: nat)
    requires j + p < |d| && Literal(d[j..j + p]) && d[j + p].Ch?
    ensures Literal(d[j..j + p + 1])
  {
    assert d[j..j + p + 1] == d[j..j + p] + [d[j + p]];
  }

  // The form matches its own homes and where it stands, and nothing else.
  lemma FormMatches(d: seq<Tok>, e: Texts, f: Form, j: nat)
    requires Separated(d) && Meets(f, e) && j < |d|
    ensures MatchesAt(d, e, f, j)
  {
    hide Render, Off, ValidAt, ValidTok, Meets;
    if d[j].Ch? {
      LiteralMatches(d, e, f, j);
    } else if Own(d[j], e, f) {
      OwnText(d[j], e, f);
      OwnMatches(d, e, f, j);
    } else {
      HomeIsLeft(d, e, f, j);
    }
  }

  lemma LiteralMatches(d: seq<Tok>, e: Texts, f: Form, j: nat)
    requires Separated(d) && Meets(f, e) && j < |d| && d[j].Ch?
    ensures ValidAt(Render(d, e), f, Off(d, e, j)) <==> ValidTok(d, f, j)
  {
    hide *;
    TextsAreNames(f, e);
    NamesAreTexts(e);
    MeetsSomething(f, e);
    if ValidTok(d, f, j) { ValidTokIsValid(d, e, f, j); }
    if ValidAt(Render(d, e), f, Off(d, e, j)) {
      LiteralOne(d, j);
      MatchIsLiteral(d, e, f, j, 1);
      LiteralMatchIsValidTok(d, e, f, j);
    }
  }

  lemma MeetsSomething(f: Form, e: Texts)
    requires Meets(f, e)
    ensures f.text != ""
  {
  }

  lemma LiteralOne(d: seq<Tok>, j: nat)
    requires j < |d| && d[j].Ch?
    ensures Literal(d[j..j + 1])
  {
    assert d[j..j + 1] == [d[j]];
  }

  lemma OwnText(t: Tok, e: Texts, f: Form)
    requires Meets(f, e) && Own(t, e, f)
    ensures e(t.sp) == f.text && forall sp :: e(sp) != ""
  {
    hide PlaceholderOf;
    TextsAreNames(f, e);
  }

  lemma HomeIsLeft(d: seq<Tok>, e: Texts, f: Form, j: nat)
    requires Separated(d) && Meets(f, e) && j < |d| && d[j].Home? && !Own(d[j], e, f)
    ensures forall p :: Off(d, e, j) <= p < Off(d, e, j + 1) ==> !ValidAt(Render(d, e), f, p)
  {
    hide Render, Off, ValidAt, PlaceholderOf, Meets;
    var o := Off(d, e, j);
    OffStep(d, e, j);
    forall p | o <= p < Off(d, e, j + 1) ensures !ValidAt(Render(d, e), f, p) {
      NoMatchInHome(d, e, f, j, p - o);
    }
  }

  lemma NoMatchInHome(d: seq<Tok>, e: Texts, f: Form, j: nat, k: nat)
    requires Meets(f, e) && j < |d| && d[j].Home? && !Own(d[j], e, f) && k < |e(d[j].sp)|
    ensures !ValidAt(Render(d, e), f, Off(d, e, j) + k)
  {
    hide Render, Off, ValidAt, PlaceholderOf, Meets;
    if ValidAt(Render(d, e), f, Off(d, e, j) + k) {
      MatchInsideHome(d, e, f, j, k);
      NotInsideHome(f, e, d[j].sp, k);
    }
  }

  lemma OwnMatches(d: seq<Tok>, e: Texts, f: Form, j: nat)
    requires Separated(d) && j < |d| && d[j].Home? && e(d[j].sp) == f.text && forall sp :: e(sp) != ""
    ensures ValidAt(Render(d, e), f, Off(d, e, j))
  {
    hide Render, MatchAt, Bounded;
    OffStep(d, e, j);
    MatchIsSlice(Render(d, e), f.text, f.fold, Off(d, e, j));
    HomeIsBounded(d, e, j);
  }

  // ------------------------------------------------- the four spellings

  function Escaped(raw: string): string { ReplaceAll(raw, '\\', "\\\\") }

  function Slashed(raw: string): string { ReplaceAll(raw, '\\', "/") }

  lemma {:induction false} ReplaceConcat(a: string, b: string, c: char, sub: string)
    ensures ReplaceAll(a + b, c, sub) == ReplaceAll(a, c, sub) + ReplaceAll(b, c, sub)
  {
    hide ReplaceAll;
    if a == "" {
      ReplacedNothingLeft(c, sub);
      assert a + b == b;
    } else {
      ReplaceConcat(a[1..], b, c, sub);
      ReplaceStep(a, c, sub);
      ReplaceStep(a + b, c, sub);
      assert (a + b)[1..] == a[1..] + b && (a + b)[0] == a[0];
    }
  }

  lemma ReplacedNothingLeft(c: char, sub: string)
    ensures ReplaceAll("", c, sub) == ""
  {
  }

  lemma ReplaceStep(s: string, c: char, sub: string)
    requires s != ""
    ensures ReplaceAll(s, c, sub) == (if s[0] == c then sub else [s[0]]) + ReplaceAll(s[1..], c, sub)
  {
  }

  lemma {:induction false} ReplacedBytes(s: string, c: char, sub: string, x: char)
    requires x !in sub
    ensures x in ReplaceAll(s, c, sub) ==> x in s
  {
    if s != "" { ReplacedBytes(s[1..], c, sub, x); }
  }

  lemma {:induction false} SlashedIs(s: string, c: char)
    ensures var r := ReplaceAll(s, c, "/");
            |r| == |s| && forall k :: 0 <= k < |s| ==> r[k] == if s[k] == c then '/' else s[k]
  {
    if s != "" {
      SlashedIs(s[1..], c);
      var r, t := ReplaceAll(s, c, "/"), ReplaceAll(s[1..], c, "/");
      forall k | 0 <= k < |s| ensures r[k] == if s[k] == c then '/' else s[k] {
        if k > 0 { assert r[k] == t[k - 1]; }
      }
    }
  }

  // A name found in the replaced text is found in the text, whatever non-name
  // bytes were put in.
  lemma {:induction false} NameAtHead(s: string, c: char, sub: string, q: string)
    requires AllNames(q) && sub != "" && (forall k :: 0 <= k < |sub| ==> !IsNameByte(sub[k]))
    ensures MatchAt(ReplaceAll(s, c, sub), q, true, 0) ==> MatchAt(s, q, true, 0)
    decreases |q|
  {
    var r := ReplaceAll(s, c, sub);
    if s != "" && s[0] == c { assert r[0] == sub[0]; }
    if q != "" && MatchAt(r, q, true, 0) {
      assert SameByte(r[0 + 0], q[0], true);
      SameByteSameName(r[0], q[0], true);
      var t := ReplaceAll(s[1..], c, sub);
      assert r == [s[0]] + t;
      assert forall k :: 0 <= k < |q| - 1 ==> t[0 + k] == r[0 + (k + 1)] && q[1..][k] == q[k + 1];
      NameAtHead(s[1..], c, sub, q[1..]);
      forall k | 0 <= k < |q| ensures SameByte(s[0 + k], q[k], true) {
        if k > 0 { assert s[k] == s[1..][0 + (k - 1)] && q[k] == q[1..][k - 1]; }
      }
    }
  }

  lemma {:induction false} NameInReplaced(s: string, c: char, sub: string, q: string, i: nat)
    requires AllNames(q) && q != "" && sub != "" && (forall k :: 0 <= k < |sub| ==> !IsNameByte(sub[k]))
    ensures MatchAt(ReplaceAll(s, c, sub), q, true, i) ==> FoldContains(s, q)
    decreases |s|
  {
    var r := ReplaceAll(s, c, sub);
    if s != "" && s[0] == c && i < |sub| { assert r[i] == sub[i]; }
    if MatchAt(r, q, true, i) {
      if i == 0 {
        NameAtHead(s, c, sub, q);
        assert MatchAt(s, q, true, 0);
      } else {
        var t := ReplaceAll(s[1..], c, sub);
        var n := if s[0] == c then |sub| else 1;
        assert SameByte(r[i + 0], q[0], true);
        SameByteSameName(r[i], q[0], true);
        ShiftMatch(r, t, q, i, n);
        NameInReplaced(s[1..], c, sub, q, i - n);
        TailContains(s, q);
      }
    }
  }

  lemma ShiftMatch(r: string, t: string, q: string, i: nat, n: nat)
    requires n <= |r| && r[n..] == t && n <= i
    ensures MatchAt(r, q, true, i) <==> MatchAt(t, q, true, i - n)
  {
    assert forall k :: n <= k < |r| ==> r[k] == t[k - n];
    if MatchAt(t, q, true, i - n) {
      forall k | 0 <= k < |q| ensures SameByte(r[i + k], q[k], true) { assert SameByte(t[i - n + k], q[k], true); }
    }
    if MatchAt(r, q, true, i) {
      forall k | 0 <= k < |q| ensures SameByte(t[i - n + k], q[k], true) { assert SameByte(r[i + k], q[k], true); }
    }
  }

  lemma TailContains(s: string, q: string)
    requires s != ""
    ensures FoldContains(s[1..], q) ==> FoldContains(s, q)
  {
    if FoldContains(s[1..], q) {
      var i: nat :| MatchAt(s[1..], q, true, i);
      ShiftMatch(s, s[1..], q, i + 1, 1);
      assert MatchAt(s, q, true, i + 1);
    }
  }

  lemma PrefixNotInReplaced(s: string, sub: string)
    requires sub == "/" || sub == "\\\\"
    ensures FoldContains(ReplaceAll(s, '\\', sub), PREFIX) ==> FoldContains(s, PREFIX)
  {
    PrefixIsNames();
    if FoldContains(ReplaceAll(s, '\\', sub), PREFIX) {
      var i: nat :| MatchAt(ReplaceAll(s, '\\', sub), PREFIX, true, i);
      NameInReplaced(s, '\\', sub, PREFIX, i);
    }
  }

  lemma {:induction false} DropContains(s: string, q: string, n: nat)
    requires n <= |s|
    ensures FoldContains(s[n..], q) ==> FoldContains(s, q)
    decreases n
  {
    if n > 0 {
      assert s[n - 1..][1..] == s[n..];
      TailContains(s[n - 1..], q);
      DropContains(s, q, n - 1);
    } else {
      assert s[0..] == s;
    }
  }

  lemma SlashedHome(raw: string)
    requires DriveHome(raw)
    ensures var x := Slashed(raw);
            && |x| == |raw| && x[0] == raw[0] && x[1] == ':' && x[2] == '/'
            && (forall k :: 0 <= k < |x| ==> x[k] == if raw[k] == '\\' then '/' else raw[k])
            && !FoldContains(x, PREFIX)
            && EndsInDriveLetter(x) == EndsInDriveLetter(raw)
  {
    SlashedIs(raw, '\\');
    PrefixNotInReplaced(raw, "/");
  }

  lemma EscapedHome(raw: string)
    requires DriveHome(raw)
    ensures var x := Escaped(raw);
            && |x| > |raw| && x[0] == raw[0] && x[1] == ':' && x[2] == '\\' && x[3] == '\\'
            && x[|x| - 1] == raw[|raw| - 1]
            && (forall k :: 0 <= k < |x| && k != 1 ==> x[k] != ':') && !FoldContains(x, PREFIX)
            && EndsInDriveLetter(x) == EndsInDriveLetter(raw)
  {
    EscapedParts(raw);
    PrefixNotInReplaced(raw, "\\\\");
  }

  lemma {:induction false} EscapedLength(s: string)
    ensures |Escaped(s)| >= |s|
  {
    if s != "" { EscapedLength(s[1..]); }
  }

  // The last two bytes: the last one belongs to a name.
  lemma {:induction false} EscapedTail(raw: string)
    requires |raw| >= 2 && raw[|raw| - 1] != '\\'
    ensures var x, n := Escaped(raw), |raw|;
            |x| >= 2 && x[|x| - 1] == raw[n - 1] && x[|x| - 2] == raw[n - 2]
  {
    var n := |raw|;
    var last2 := raw[n - 2..];
    assert raw == raw[..n - 2] + last2;
    ReplaceConcat(raw[..n - 2], last2, '\\', "\\\\");
    assert last2[1..] == [raw[n - 1]] && last2[1..][1..] == "";
    assert Escaped(last2[1..]) == [raw[n - 1]] + Escaped(last2[1..][1..]) == [raw[n - 1]];
    assert Escaped(last2) == (if raw[n - 2] == '\\' then "\\\\" else [raw[n - 2]]) + [raw[n - 1]];
  }

  lemma {:induction false} EscapedParts(raw: string)
    requires DriveHome(raw)
    ensures var x, n := Escaped(raw), |raw|;
            && |x| > n && x[0] == raw[0] && x[1] == ':' && x[2] == '\\' && x[3] == '\\'
            && x[|x| - 1] == raw[n - 1]
            && x[|x| - 2] == raw[n - 2]
            && (forall k :: 0 <= k < |x| && k != 1 ==> x[k] != ':')
  {
    var n := |raw|;
    var rest := raw[2..];
    assert raw == [raw[0]] + ([raw[1]] + rest) && raw[1..] == [raw[1]] + rest;
    assert raw[1..][1..] == rest;
    var y := Escaped(rest);
    assert Escaped(raw[1..]) == [':'] + y;
    assert Escaped(raw) == [raw[0]] + Escaped(raw[1..]) == [raw[0], ':'] + y;
    assert rest[0] == '\\';
    assert y == "\\\\" + Escaped(rest[1..]);
    EscapedLength(rest[1..]);
    ReplacedBytes(rest, '\\', "\\\\", ':');
    EscapedTail(raw);
    forall k | 0 <= k < |Escaped(raw)| && k != 1 ensures Escaped(raw)[k] != ':' {
      if k > 1 { assert Escaped(raw)[k] == y[k - 2]; assert y[k - 2] in y; }
    }
  }

  lemma GitBashHome(raw: string)
    requires DriveHome(raw)
    ensures var x := GitBash(raw);
            && |x| == |raw| && x[0] == '/' && x[1] == LowerASCII(raw[0]) && x[2] == '/'
            && (forall k :: 2 <= k < |x| ==> x[k] == if raw[k] == '\\' then '/' else raw[k])
            && !FoldContains(x, PREFIX) && IsNameByte(x[|x| - 1])
  {
    var rest := ReplaceAll(raw[2..], '\\', "/");
    SlashedIs(raw[2..], '\\');
    var x := GitBash(raw);
    assert x[2..] == rest;
    forall k | 2 <= k < |x| ensures x[k] == if raw[k] == '\\' then '/' else raw[k] {
      assert x[k] == rest[k - 2] && raw[2..][k - 2] == raw[k];
    }
    PrefixAfterSlashes(x);
    PrefixNotInReplaced(raw[2..], "/");
    DropContains(raw, PREFIX, 2);
  }

  lemma PrefixAfterSlashes(x: string)
    requires |x| >= 3 && x[0] == '/' && x[2] == '/'
    ensures FoldContains(x, PREFIX) ==> FoldContains(x[2..], PREFIX)
  {
    if FoldContains(x, PREFIX) {
      var i: nat :| MatchAt(x, PREFIX, true, i);
      assert PREFIX[0] == '_' && PREFIX[1] == '_';
      assert SameByte(x[i + 0], PREFIX[0], true) && SameByte(x[i + 1], PREFIX[1], true);
      ShiftMatch(x, x[2..], PREFIX, i, 2);
      assert MatchAt(x[2..], PREFIX, true, i - 2);
    }
  }

  // ------------------------------------------------------------ stability

  function FormE(raw: string): Form { Form(Escaped(raw), true, WinEscaped) }
  function FormW(raw: string): Form { Form(raw, true, Win) }
  function FormS(raw: string): Form { Form(Slashed(raw), true, Slash) }
  function FormG(raw: string): Form
    requires IsDrivePath(raw)
  {
    Form(GitBash(raw), true, Slash)
  }

  ghost predicate WindowsMapper(m: Mapper, raw: string)
    requires IsDrivePath(raw)
  {
    && m.windows
    && m.forms == [FormE(raw), FormW(raw), FormS(raw), FormG(raw)]
    && m.expand(Slash) == Slashed(raw) && m.expand(Win) == raw && m.expand(WinEscaped) == Escaped(raw)
  }

  // What New builds for such a home: the escaped form first, as the longest.
  lemma NewWindows(home: string)
    requires DriveHome(WindowsRaw(home))
    ensures WindowsMapper(Mapper(true, SortForms(AllForms([home], true)), Expansion(home, true)), WindowsRaw(home))
  {
    var raw := WindowsRaw(home);
    EscapedHome(raw);
    SlashedHome(raw);
    GitBashHome(raw);
    assert [home][..0] == [];
    var w, e, s, g := FormW(raw), FormE(raw), FormS(raw), FormG(raw);
    assert AllForms([home], true) == [] + WindowsForms(home) == [w, e, s, g];
    assert [w, e, s, g][..3] == [w, e, s] && [w, e, s][..2] == [w, e] && [w, e][..1] == [w] && [w][..0] == [];
    assert SortForms([w]) == [w];
    assert Insert(e, []) == [e];
    assert SortForms([w, e]) == Insert(e, [w]) == [e, w];
    assert SortForms([w, e, s]) == Insert(s, [e, w]) == [e, w, s];
    assert SortForms([w, e, s, g]) == Insert(g, [e, w, s]) == [e, w, s, g];
  }

  // The rendering when the spellings in turn became placeholders.
  function Expanded3(raw: string): Texts {
    (sp: Spelling) => match sp case Slash => Slashed(raw) case Win => raw case WinEscaped => Escaped(raw)
  }
  function Expanded2(raw: string): Texts {
    (sp: Spelling) => match sp case Slash => Slashed(raw) case Win => raw case WinEscaped => PlaceholderOf(WinEscaped)
  }
  function Expanded1(raw: string): Texts {
    (sp: Spelling) =>
      match sp case Slash => Slashed(raw) case Win => PlaceholderOf(Win) case WinEscaped => PlaceholderOf(WinEscaped)
  }

  lemma DriveTexts(raw: string)
    requires DriveHome(raw) && !EndsInDriveLetter(raw)
    ensures DriveText(raw) && DriveText(Slashed(raw)) && DriveText(Escaped(raw))
  {
    EscapedHome(raw);
    SlashedHome(raw);
  }

  lemma FormsMeet(raw: string)
    requires DriveHome(raw) && !EndsInDriveLetter(raw)
    ensures Meets(FormE(raw), Expanded3(raw)) && Meets(FormW(raw), Expanded2(raw)) && Meets(FormS(raw), Expanded1(raw))
    ensures Meets(FormG(raw), Portables())
  {
    FormsDiffer(raw);
    MeetsEscaped(raw);
    MeetsRaw(raw);
    MeetsSlashed(raw);
    FormsMeetPlaceholders(raw, FormG(raw));
  }

  // No two of the spellings with a drive agree in all bytes they share.
  lemma FormsDiffer(raw: string)
    requires DriveHome(raw)
    ensures Differ(Escaped(raw), raw) && Differ(Escaped(raw), Slashed(raw)) && Differ(raw, Slashed(raw))
  {
    EscapedHome(raw);
    SlashedHome(raw);
    DriveBytes(raw);
    var e, w, s := Escaped(raw), raw, Slashed(raw);
    assert !SameByte(e[3], w[3], true) by { NoDoubleBackslash(raw); }
    assert !SameByte(e[2], s[2], true);
    assert !SameByte(w[2], s[2], true);
  }

  lemma NoDoubleBackslash(raw: string)
    requires DriveHome(raw)
    ensures raw[2] == '\\' && raw[3] != '\\'
  {
  }

  lemma MeetsEscaped(raw: string)
    requires DriveHome(raw) && !EndsInDriveLetter(raw)
    ensures Meets(FormE(raw), Expanded3(raw))
  {
    hide EndsInDriveLetter, FoldContains, PlaceholderOf, DriveHome, DriveText, Differ;
    FormsDiffer(raw);
    SpellingShapes(raw);
  }

  lemma MeetsRaw(raw: string)
    requires DriveHome(raw) && !EndsInDriveLetter(raw)
    ensures Meets(FormW(raw), Expanded2(raw))
  {
    hide EndsInDriveLetter, FoldContains, PlaceholderOf, DriveHome, DriveText, Differ;
    FormsDiffer(raw);
    SpellingShapes(raw);
  }

  lemma MeetsSlashed(raw: string)
    requires DriveHome(raw) && !EndsInDriveLetter(raw)
    ensures Meets(FormS(raw), Expanded1(raw))
  {
    hide EndsInDriveLetter, FoldContains, PlaceholderOf, DriveHome, DriveText, Differ;
    FormsDiffer(raw);
    SpellingShapes(raw);
  }

  // What the spellings with a drive have in common.
  lemma SpellingShapes(raw: string)
    requires DriveHome(raw) && !EndsInDriveLetter(raw)
    ensures DriveText(raw) && DriveText(Slashed(raw)) && DriveText(Escaped(raw))
    ensures LikeHome(raw, raw) && LikeHome(Slashed(raw), raw) && LikeHome(Escaped(raw), raw)
  {
    hide EndsInDriveLetter, FoldContains, DriveText;
    DriveTexts(raw);
    EscapedHome(raw);
    SlashedHome(raw);
  }

  ghost predicate LikeHome(x: string, raw: string)
    requires raw != ""
  {
    |x| >= 4 && x[0] == raw[0] && x[0] != '_' && !FoldContains(x, PREFIX) && IsNameByte(x[|x| - 1])
  }

  lemma FormsMeetPlaceholders(raw: string, f: Form)
    requires DriveHome(raw) && f in [FormE(raw), FormW(raw), FormS(raw), FormG(raw)]
    ensures Meets(f, Portables())
  {
    hide EndsInDriveLetter, FoldContains;
    EscapedHome(raw);
    SlashedHome(raw);
    GitBashHome(raw);
  }

  lemma PassDoc(d: seq<Tok>, e: Texts, f: Form)
    requires Separated(d) && Meets(f, e)
    ensures Replaced(Render(d, e), f, 0) == Render(TPass(d, f, 0), After(e, f))
    ensures Separated(TPass(d, f, 0))
  {
    hide Render, Replaced, Meets;
    assert f.text != "" && IsNameByte(f.text[|f.text| - 1]) by { MeetsText(f, e); }
    forall j | 0 <= j < |d| ensures MatchesAt(d, e, f, j) { FormMatches(d, e, f, j); }
    PassOnText(d, e, f, 0);
    OffEnds(d, e);
    PassKeepsSeparated(d, f, 0);
  }

  lemma MeetsText(f: Form, e: Texts)
    requires Meets(f, e)
    ensures f.text != "" && IsNameByte(f.text[|f.text| - 1])
  {
  }

  // One pass over a portable rendering.
  lemma PortablePass(d: seq<Tok>, f: Form)
    requires Separated(d) && Meets(f, Portables())
    ensures Replaced(Render(d, Portables()), f, 0) == Render(TPass(d, f, 0), Portables())
    ensures Separated(TPass(d, f, 0))
  {
    hide Render, Replaced, Meets;
    MeetsText(f, Portables());
    PassDoc(d, Portables(), f);
    SameRender(TPass(d, f, 0), After(Portables(), f), Portables());
  }

  lemma PortableStep(s: string, f: Form, rest: seq<Form>)
    requires f.text != "" && forall g :: g in rest ==> g.text != ""
    ensures Portable(s, [f] + rest) == Portable(Replaced(s, f, 0), rest)
  {
    hide Replaced;
    assert ([f] + rest)[1..] == rest;
  }

  lemma PortableTwo(s: string, f: Form, g: Form)
    requires f.text != "" && g.text != ""
    ensures Portable(s, [f, g]) == Replaced(Replaced(s, f, 0), g, 0)
  {
    hide Replaced;
    assert [f, g] == [f] + [g] && [g] == [g] + [];
    PortableStep(s, f, [g]);
    PortableStep(Replaced(s, f, 0), g, []);
  }

  lemma PortableFour(s: string, e: Form, w: Form, f: Form, g: Form)
    requires e.text != "" && w.text != "" && f.text != "" && g.text != ""
    ensures Portable(s, [e, w, f, g])
            == Replaced(Replaced(Replaced(Replaced(s, e, 0), w, 0), f, 0), g, 0)
  {
    hide Replaced, Portable;
    assert [e, w, f, g] == [e] + [w, f, g] && [w, f, g] == [w] + [f, g];
    PortableStep(s, e, [w, f, g]);
    PortableStep(Replaced(s, e, 0), w, [f, g]);
    PortableTwo(Replaced(Replaced(s, e, 0), w, 0), f, g);
  }

  // The portable form as a document in which no spelling is left.
  ghost predicate Settled(d: seq<Tok>, raw: string)
    requires IsDrivePath(raw)
  {
    && Separated(d) && NoneLeft(d, FormE(raw)) && NoneLeft(d, FormW(raw))
    && NoneLeft(d, FormS(raw)) && NoneLeft(d, FormG(raw))
  }

  lemma PortableDoc(s: string, raw: string) returns (d: seq<Tok>)
    requires DriveHome(raw)
    ensures Portable(s, [FormE(raw), FormW(raw), FormS(raw), FormG(raw)]) == Render(d, Portables())
    ensures Settled(d, raw) && (HasRun(d, PREFIX) ==> Contains(s, PREFIX))
  {
    hide Replaced, Render, TPass, Meets, NoneLeft, Separated, HasRun;
    var e, w, f, g := FormE(raw), FormW(raw), FormS(raw), FormG(raw);
    FormsMeetPlaceholders(raw, e);
    FormsMeetPlaceholders(raw, w);
    FormsMeetPlaceholders(raw, f);
    FormsMeetPlaceholders(raw, g);
    MeetsText(e, Portables());
    MeetsText(w, Portables());
    MeetsText(f, Portables());
    MeetsText(g, Portables());
    CharsAreSeparated(s);
    RenderChars(s, Portables());
    var d1 := TPass(Chars(s), e, 0);
    PortablePass(Chars(s), e);
    var d2 := TPass(d1, w, 0);
    PortablePass(d1, w);
    var d3 := TPass(d2, f, 0);
    PortablePass(d2, f);
    d := TPass(d3, g, 0);
    PortablePass(d3, g);
    PortableFour(s, e, w, f, g);
    PassLeavesNone(Chars(s), e, e);
    PassLeavesNone(d1, w, e);
    PassLeavesNone(d1, w, w);
    PassLeavesNone(d2, f, e);
    PassLeavesNone(d2, f, w);
    PassLeavesNone(d2, f, f);
    PassLeavesNone(d3, g, e);
    PassLeavesNone(d3, g, w);
    PassLeavesNone(d3, g, f);
    PassLeavesNone(d3, g, g);
    CharsRun(s, PREFIX);
    PassMakesNoRun(Chars(s), e, PREFIX);
    PassMakesNoRun(d1, w, PREFIX);
    PassMakesNoRun(d2, f, PREFIX);
    PassMakesNoRun(d3, g, PREFIX);
  }

  lemma CharsAreSeparated(s: string)
    ensures Separated(Chars(s))
  {
  }

  // A pass over a settled document only takes its own homes back.
  lemma SettledPass(d: seq<Tok>, e: Texts, f: Form, e': Texts)
    requires Separated(d) && NoneLeft(d, f) && Meets(f, e) && forall sp :: After(e, f)(sp) == e'(sp)
    ensures Replaced(Render(d, e), f, 0) == Render(d, e')
  {
    hide Render, Replaced, Meets, NoneLeft;
    MeetsText(f, e);
    PassDoc(d, e, f);
    PassOfNone(d, f, 0);
    assert d[0..] == d;
    SameRender(d, After(e, f), e');
  }

  ghost predicate StableOn(m: Mapper, s: string)
    requires forall f :: f in m.forms ==> f.text != ""
  {
    var t := Portable(s, m.forms);
    Portable(Expanded(m, t), m.forms) == t
  }

  lemma DriveIsPath(raw: string)
    requires DriveHome(raw)
    ensures IsDrivePath(raw) && raw != "" && Escaped(raw) != "" && Slashed(raw) != ""
  {
    EscapedHome(raw);
    SlashedHome(raw);
  }

  lemma ExpandsFully(d: seq<Tok>, m: Mapper, raw: string)
    requires IsDrivePath(raw) && WindowsMapper(m, raw) && Separated(d) && !HasRun(d, PREFIX)
    ensures Expanded(m, Render(d, Portables())) == Render(d, Expanded3(raw))
  {
    hide Render, Separated, HasRun, Expanded;
    ExpandDoc(d, m, 0);
    assert d[0..] == d;
    forall sp ensures m.expand(sp) == Expanded3(raw)(sp) {}
    SameRender(d, m.expand, Expanded3(raw));
  }

  // Each pass takes one spelling back to its placeholder.
  lemma PassesAfter(raw: string)
    requires DriveHome(raw)
    ensures forall sp :: After(Expanded3(raw), FormE(raw))(sp) == Expanded2(raw)(sp)
    ensures forall sp :: After(Expanded2(raw), FormW(raw))(sp) == Expanded1(raw)(sp)
    ensures forall sp :: After(Expanded1(raw), FormS(raw))(sp) == Portables()(sp)
    ensures forall sp :: After(Portables(), FormG(raw))(sp) == Portables()(sp)
  {
    hide PlaceholderOf, DriveHome;
  }

  // The portable form is stable on every text for a home that does not end
  // in its drive letter.
  lemma PortableFormIsStable(s: string, m: Mapper, raw: string)
    requires DriveHome(raw) && WindowsMapper(m, raw) && !EndsInDriveLetter(raw) && !Contains(s, PREFIX)
    ensures StableOn(m, s)
  {
    hide Replaced, Render, TPass, Meets, NoneLeft, Separated, HasRun, EndsInDriveLetter, Expanded;
    DriveIsPath(raw);
    hide Expanded1, Expanded2, Expanded3, After, DriveHome, PlaceholderOf;
    var e, w, f, g := FormE(raw), FormW(raw), FormS(raw), FormG(raw);
    var d := PortableDoc(s, raw);
    ExpandsFully(d, m, raw);
    PassesAfter(raw);
    FormsMeet(raw);
    MeetsText(e, Expanded3(raw));
    MeetsText(w, Expanded2(raw));
    MeetsText(f, Expanded1(raw));
    MeetsText(g, Portables());
    SettledPass(d, Expanded3(raw), e, Expanded2(raw));
    SettledPass(d, Expanded2(raw), w, Expanded1(raw));
    SettledPass(d, Expanded1(raw), f, Portables());
    SettledPass(d, Portables(), g, Portables());
    PortableFour(Render(d, Expanded3(raw)), e, w, f, g);
  }

  // ------------------------------------- the homes for which it is not

  // For C:\\Users\\c: the text C:\\Users\\/c/Users/c.
  function Counterexample(raw: string): string
    requires DriveHome(raw)
  {
    raw[..|raw| - 1] + GitBash(raw)
  }

  function AfterwardsLocal(raw: string): string
    requires DriveHome(raw)
  {
    raw[..|raw| - 1] + Slashed(raw)
  }

  lemma NeverMatches(s: string, f: Form)
    requires f.text != "" && forall i :: 0 <= i <= |s| ==> !MatchAt(s, f.text, f.fold, i)
    ensures Replaced(s, f, 0) == s
  {
    CopiedTo(s, f, 0, |s|);
    ReplacedNothing(s, f);
    assert s[0..|s|] == s;
  }

  lemma ByteInMatch(s: string, text: string, i: nat, k: nat)
    requires MatchAt(s, text, true, i) && k < |text|
    ensures SameByte(s[i + k], text[k], true)
  {
  }

  lemma MatchedName(s: string, text: string, i: nat, k: nat)
    requires MatchAt(s, text, true, i) && k < |text|
    ensures IsNameByte(s[i + k]) == IsNameByte(text[k])
  {
    SameByteSameName(s[i + k], text[k], true);
  }

  lemma NoMatchAcross(s: string, text: string, i: nat, k: nat)
    requires k < |text| && IsNameByte(text[k]) && (i + k < |s| ==> !IsNameByte(s[i + k]))
    ensures !MatchAt(s, text, true, i)
  {
    if MatchAt(s, text, true, i) { MatchedName(s, text, i, k); }
  }

  // Neither text holds two backslashes in a row, so neither holds the escaped
  // spelling.
  lemma NoEscapedHome(raw: string, tail: string)
    requires DriveHome(raw) && (forall k :: 0 <= k < |tail| ==> tail[k] != '\\')
    ensures var s := raw[..|raw| - 1] + tail; Replaced(s, FormE(raw), 0) == s
  {
    var s := raw[..|raw| - 1] + tail;
    EscapedHome(raw);
    var x := Escaped(raw);
    forall i | 0 <= i <= |s| ensures !MatchAt(s, x, true, i) {
      if MatchAt(s, x, true, i) {
        ByteInMatch(s, x, i, 2);
        ByteInMatch(s, x, i, 3);
      }
    }
    NeverMatches(s, FormE(raw));
  }

  lemma TailsHaveNoBackslash(raw: string)
    requires DriveHome(raw)
    ensures forall k :: 0 <= k < |GitBash(raw)| ==> GitBash(raw)[k] != '\\' && GitBash(raw)[k] != ':'
    ensures forall k :: 0 <= k < |Slashed(raw)| ==> Slashed(raw)[k] != '\\'
  {
    GitBashHome(raw);
    SlashedHome(raw);
  }

  // A match of a form with a drive can only start where the one colon is.
  lemma OneColon(raw: string, text: string, i: nat)
    requires DriveHome(raw) && |text| >= 4 && text[1] == ':' && MatchAt(Counterexample(raw), text, true, i)
    ensures i == 0
  {
    TailsHaveNoBackslash(raw);
    ByteInMatch(Counterexample(raw), text, i, 1);
    ColonFolds(Counterexample(raw)[i + 1]);
  }

  lemma BackslashAgainstSlash(s: string, text: string, i: nat)
    requires i + 2 < |s| && 2 < |text| && s[i + 2] == '\\' && text[2] == '/'
    ensures !MatchAt(s, text, true, i)
  {
    assert !SameByte(s[i + 2], text[2], true);
  }

  lemma NoDriveInCounterexample(raw: string)
    requires DriveHome(raw) && EndsInDriveLetter(raw)
    ensures var s := Counterexample(raw);
            Replaced(s, FormW(raw), 0) == s && Replaced(s, FormS(raw), 0) == s
  {
    hide DriveHome;
    assert |raw| >= 4 && IsNameByte(raw[|raw| - 1]) && raw[2] == '\\' && raw[1] == ':' by { DriveBytes(raw); }
    SlashedHome(raw);
    GitBashHome(raw);
    var s, n := Counterexample(raw), |raw|;
    NoMatchAcross(s, raw, 0, n - 1);
    forall i | 0 <= i <= |s| ensures !MatchAt(s, raw, true, i) {
      if MatchAt(s, raw, true, i) {
        OneColon(raw, raw, i);
      }
    }
    NeverMatches(s, FormW(raw));
    BackslashAgainstSlash(s, Slashed(raw), 0);
    forall i | 0 <= i <= |s| ensures !MatchAt(s, Slashed(raw), true, i) {
      if MatchAt(s, Slashed(raw), true, i) {
        OneColon(raw, Slashed(raw), i);
      }
    }
    NeverMatches(s, FormS(raw));
  }

  lemma DriveBytes(raw: string)
    requires DriveHome(raw)
    ensures |raw| >= 4 && IsNameByte(raw[|raw| - 1]) && raw[2] == '\\' && raw[1] == ':' && IsLetter(raw[0])
    ensures forall k :: 0 <= k < |raw| ==> raw[k] != '/'
  {
  }

  lemma MatchesItself(s: string, text: string, o: nat)
    requires o + |text| <= |s| && s[o..o + |text|] == text
    ensures MatchAt(s, text, true, o)
  {
    forall k | 0 <= k < |text| ensures SameByte(s[o + k], text[k], true) { assert s[o..o + |text|][k] == s[o + k]; }
  }

  lemma ValidAtEnd(a: string, f: Form)
    requires f.fold && f.text != "" && a != "" && !IsNameByte(a[|a| - 1])
    requires forall k :: 0 <= k < |a| ==> !SameByte(a[k], f.text[0], true)
    ensures ValidAt(a + f.text, f, |a|) && forall k :: 0 <= k < |a| ==> !ValidAt(a + f.text, f, k)
  {
    hide MatchAt;
    var s, n := a + f.text, |a|;
    assert s[n..n + |f.text|] == f.text;
    MatchesItself(s, f.text, n);
    assert s[n - 1] == a[n - 1];
    forall k | 0 <= k < n ensures !ValidAt(s, f, k) {
      assert s[k] == a[k];
      OtherStart(s, f.text, k);
    }
  }

  // A form standing at the end only, after bytes none of which starts it.
  lemma ReplacedAtEnd(a: string, f: Form)
    requires f.fold && f.text != "" && a != "" && !IsNameByte(a[|a| - 1])
    requires forall k :: 0 <= k < |a| ==> !SameByte(a[k], f.text[0], true)
    ensures Replaced(a + f.text, f, 0) == a + PlaceholderOf(f.spelling)
  {
    hide PlaceholderOf, Replaced, ValidAt;
    var s, n := a + f.text, |a|;
    ValidAtEnd(a, f);
    ReplacedAt(s, f, 0, n);
    ReplacedNothing(s, f);
    assert s[0..n] == a;
  }

  lemma OtherStart(s: string, text: string, i: nat)
    requires i < |s| && text != "" && !SameByte(s[i], text[0], true)
    ensures !MatchAt(s, text, true, i)
  {
    assert s[i + 0] == s[i];
  }

  // Only the Git Bash spelling stands in it, at the end.
  lemma CounterexamplePortable(raw: string)
    requires DriveHome(raw) && EndsInDriveLetter(raw)
    ensures Portable(Counterexample(raw), [FormE(raw), FormW(raw), FormS(raw), FormG(raw)])
            == raw[..|raw| - 1] + PLACEHOLDER
  {
    hide Replaced, Portable, DriveHome, PlaceholderOf, MatchAt, FoldContains;
    var s, n := Counterexample(raw), |raw|;
    DriveBytes(raw);
    TailsHaveNoBackslash(raw);
    NoEscapedHome(raw, GitBash(raw));
    NoDriveInCounterexample(raw);
    EscapedHome(raw);
    SlashedHome(raw);
    GitBashHome(raw);
    var a, g := raw[..n - 1], FormG(raw);
    forall k | 0 <= k < n - 1 ensures !SameByte(a[k], g.text[0], true) { SlashFolds(raw[k]); }
    ReplacedAtEnd(a, g);
    SlashPlaceholder();
    PortableFour(s, FormE(raw), FormW(raw), FormS(raw), FormG(raw));
  }

  lemma SlashFolds(c: char)
    requires c != '/'
    ensures !SameByte(c, '/', true)
  {
  }

  lemma SlashPlaceholder()
    ensures PlaceholderOf(Slash) == PLACEHOLDER
  {
  }

  lemma NoPrefixInCounterexample(raw: string)
    requires DriveHome(raw) && EndsInDriveLetter(raw)
    ensures !Contains(Counterexample(raw), PREFIX)
  {
    hide DriveHome, Contains, AllNames, GitBash;
    DriveBytes(raw);
    NoPrefixInParts(raw);
    PrefixIsNames();
    PrefixInNeither(raw[..|raw| - 1], GitBash(raw), PREFIX);
  }

  lemma PrefixInNeither(a: string, b: string, q: string)
    requires AllNames(q) && q != "" && a != "" && !IsNameByte(a[|a| - 1]) && !Contains(a, q) && !Contains(b, q)
    ensures !Contains(a + b, q)
  {
    if Contains(a + b, q) {
      var i :| 0 <= i <= |a + b| && q <= (a + b)[i..];
      PrefixOnOneSide(a, b, i, q);
    }
  }

  lemma NoPrefixInParts(raw: string)
    requires DriveHome(raw)
    ensures !Contains(raw[..|raw| - 1], PREFIX) && !Contains(GitBash(raw), PREFIX)
  {
    GitBashHome(raw);
    ContainsFolds(GitBash(raw), PREFIX);
    ContainsFolds(raw[..|raw| - 1], PREFIX);
    if FoldContains(raw[..|raw| - 1], PREFIX) {
      var i: nat :| MatchAt(raw[..|raw| - 1], PREFIX, true, i);
      assert MatchAt(raw, PREFIX, true, i);
    }
  }

  lemma ContainsFolds(s: string, q: string)
    ensures Contains(s, q) ==> FoldContains(s, q)
  {
    if Contains(s, q) {
      var i :| 0 <= i <= |s| && q <= s[i..];
      assert s[i..i + |q|] == q;
      MatchesItself(s, q, i);
    }
  }

  // A name in a text made of two parts lies in one of them when the first
  // ends in a byte of no name.
  lemma PrefixOnOneSide(a: string, b: string, i: nat, q: string)
    requires AllNames(q) && a != "" && !IsNameByte(a[|a| - 1]) && i <= |a + b| && q <= (a + b)[i..]
    ensures q == "" || Contains(a, q) || Contains(b, q)
  {
    NamesSpan(a + b, q, i);
    assert (a + b)[|a| - 1] == a[|a| - 1];
    if i >= |a| {
      assert (a + b)[i..] == b[i - |a|..];
    } else if i + |q| <= |a| {
      assert q <= a[i..];
    }
  }

  lemma NamesSpan(t: string, q: string, i: nat)
    requires AllNames(q) && i <= |t| && q <= t[i..]
    ensures forall k :: i <= k < i + |q| ==> IsNameByte(t[k])
  {
    forall k | i <= k < i + |q| ensures IsNameByte(t[k]) { assert t[k] == t[i..][k - i] == q[k - i]; }
  }

  lemma CounterexampleLocal(m: Mapper, raw: string)
    requires DriveHome(raw) && EndsInDriveLetter(raw) && WindowsMapper(m, raw)
    ensures Expanded(m, raw[..|raw| - 1] + PLACEHOLDER) == AfterwardsLocal(raw)
  {
    hide Render, Expanded, HasRun;
    var a := raw[..|raw| - 1];
    var d := Chars(a) + [Home(Slash)];
    assert Separated(d);
    NoPrefixInParts(raw);
    PrefixIsNames();
    DocRun(a, PREFIX);
    ExpandDoc(d, m, 0);
    assert d[0..] == d;
    RenderConcat(Chars(a), [Home(Slash)], Portables());
    RenderConcat(Chars(a), [Home(Slash)], m.expand);
    RenderChars(a, Portables());
    RenderChars(a, m.expand);
    RenderOne(Home(Slash), Portables());
    RenderOne(Home(Slash), m.expand);
  }

  lemma DocRun(a: string, q: string)
    requires q != ""
    ensures HasRun(Chars(a) + [Home(Slash)], q) ==> Contains(a, q)
  {
    var d := Chars(a) + [Home(Slash)];
    if HasRun(d, q) {
      var j :| 0 <= j <= |d| && Spells(d, q, false, j);
      SpelledInChars(d, q, j);
      assert d[|a|] == Home(Slash);
      assert d[j..j + |q|] == Chars(a)[j..j + |q|];
      assert Spells(Chars(a), q, false, j);
      CharsRun(a, q);
    }
  }

  lemma SpelledInChars(d: seq<Tok>, q: string, j: nat)
    requires Spells(d, q, false, j)
    ensures forall k :: j <= k < j + |q| ==> d[k].Ch?
  {
    forall k | j <= k < j + |q| ensures d[k].Ch? { assert d[k] == d[j..j + |q|][k - j]; }
  }

  // Expanded, its start reads as the raw spelling: the last byte of that is
  // the drive letter the expanded home begins with.
  lemma CounterexampleChanges(raw: string)
    requires DriveHome(raw) && EndsInDriveLetter(raw)
    ensures var p := Portable(AfterwardsLocal(raw), [FormE(raw), FormW(raw), FormS(raw), FormG(raw)]);
            p != "" && p[0] == '_'
  {
    hide PlaceholderOf;
    var u, n := AfterwardsLocal(raw), |raw|;
    DriveBytes(raw);
    EscapedHome(raw);
    SlashedHome(raw);
    GitBashHome(raw);
    TailsHaveNoBackslash(raw);
    NoEscapedHome(raw, Slashed(raw));
    forall k | 0 <= k < n ensures SameByte(u[0 + k], raw[k], true) {
      if k < n - 1 { assert u[k] == raw[k]; } else { assert u[n - 1] == Slashed(raw)[0]; }
    }
    assert u[n] == Slashed(raw)[1] == ':';
    assert ValidAt(u, FormW(raw), 0);
    PlaceholderIsNames(Win);
    var v := Replaced(u, FormW(raw), 0);
    assert v[0] == PlaceholderOf(Win)[0] == '_';
    FirstByteStays(v, FormS(raw));
    FirstByteStays(Replaced(v, FormS(raw), 0), FormG(raw));
    PortableFour(u, FormE(raw), FormW(raw), FormS(raw), FormG(raw));
  }

  lemma FirstByteStays(v: string, f: Form)
    requires v != "" && v[0] == '_' && f.text != "" && !SameByte('_', f.text[0], true) && f.fold
    ensures var r := Replaced(v, f, 0); r != "" && r[0] == '_'
  {
    OtherStart(v, f.text, 0);
  }

  // Exactly the homes whose last component is their drive letter alone make
  // the portable form unstable on some text.
  lemma StableExactly(m: Mapper, raw: string)
    requires DriveHome(raw) && WindowsMapper(m, raw)
    requires forall f :: f in m.forms ==> f.text != ""
    ensures (forall s :: !Contains(s, PREFIX) ==> StableOn(m, s)) <==> !EndsInDriveLetter(raw)
  {
    hide StableOn, Contains, WindowsMapper;
    if EndsInDriveLetter(raw) {
      NotStableOnCounterexample(m, raw);
      NoPrefixInCounterexample(raw);
    } else {
      forall s | !Contains(s, PREFIX) ensures StableOn(m, s) { PortableFormIsStable(s, m, raw); }
    }
  }

  lemma NotStableOnCounterexample(m: Mapper, raw: string)
    requires DriveHome(raw) && WindowsMapper(m, raw) && EndsInDriveLetter(raw)
    requires forall f :: f in m.forms ==> f.text != ""
    ensures !StableOn(m, Counterexample(raw))
  {
    hide Portable, Expanded;
    DriveBytes(raw);
    CounterexamplePortable(raw);
    CounterexampleLocal(m, raw);
    CounterexampleChanges(raw);
    assert (raw[..|raw| - 1] + PLACEHOLDER)[0] == raw[0];
  }
}
