// internal/homepath/homepath.go: the user's home directory becomes a
// placeholder when content is uploaded and a path again when it is
// downloaded. Bytes are characters; those from 0x80 on count as name bytes.
module HomePath {
  import opened Options

  const PREFIX := "__CODEAGENT_HOME"
  const PLACEHOLDER := "__CODEAGENT_HOME__"
  const PLACEHOLDER_WIN := "__CODEAGENT_HOME_WIN__"
  const PLACEHOLDER_WIN_ESCAPED := "__CODEAGENT_HOME_WIN_ESCAPED__"

  datatype Spelling = Slash | Win | WinEscaped

  function PlaceholderOf(sp: Spelling): (p: string)
    ensures |p| >= 18 && PREFIX <= p
  {
    match sp
    case Slash => PLACEHOLDER
    case Win => PLACEHOLDER_WIN
    case WinEscaped => PLACEHOLDER_WIN_ESCAPED
  }

  // A spelling of the home directory recognized on this machine.
  datatype Form = Form(text: string, fold: bool, spelling: Spelling)

  datatype Mapper = Mapper(windows: bool, forms: seq<Form>, expand: Spelling -> string)

  predicate IsLetter(c: char) {
    'a' <= c <= 'z' || 'A' <= c <= 'Z'
  }

  predicate IsNameByte(c: char) {
    IsLetter(c) || '0' <= c <= '9' || c == '_' || c == '.' || c == '-' || c as int >= 0x80
  }

  function LowerASCII(c: char): char {
    if 'A' <= c <= 'Z' then (c as int + 32) as char else c
  }

  predicate SameByte(a: char, b: char, fold: bool) {
    a == b || (fold && LowerASCII(a) == LowerASCII(b))
  }

  predicate MatchAt(data: string, text: string, fold: bool, i: nat) {
    i + |text| <= |data| && forall k :: 0 <= k < |text| ==> SameByte(data[i + k], text[k], fold)
  }

  // The bytes at i..i+n are whole path components: no name goes on before or
  // after them.
  predicate Bounded(data: string, i: nat, n: nat)
    requires i + n <= |data|
  {
    !(i > 0 && IsNameByte(data[i - 1])) && !(i + n < |data| && IsNameByte(data[i + n]))
  }

  predicate ValidAt(data: string, f: Form, i: nat) {
    MatchAt(data, f.text, f.fold, i) && Bounded(data, i, |f.text|)
  }

  // What one form's replacement makes of data from i on.
  function Replaced(data: string, f: Form, i: nat): string
    requires i <= |data| && f.text != ""
    decreases |data| - i
  {
    if i == |data| then ""
    else if ValidAt(data, f, i) then PlaceholderOf(f.spelling) + Replaced(data, f, i + |f.text|)
    else [data[i]] + Replaced(data, f, i + 1)
  }

  function Portable(data: string, forms: seq<Form>): string
    requires forall f :: f in forms ==> f.text != ""
    decreases |forms|
  {
    if forms == [] then data else Portable(Replaced(data, forms[0], 0), forms[1..])
  }

  function PlaceholderAt(b: string): (sp: Option<Spelling>)
    ensures sp.Some? ==> PlaceholderOf(sp.value) <= b
  {
    if PLACEHOLDER_WIN_ESCAPED <= b then Some(WinEscaped)
    else if PLACEHOLDER_WIN <= b then Some(Win)
    else if PLACEHOLDER <= b then Some(Slash)
    else None
  }

  predicate IsPathEnd(c: char, stopAtSpace: bool) {
    c in "\"'`<>|*?,;\n\r\t\0" || (c == ' ' && stopAtSpace)
  }

  // The rest of a Windows path, with forward slashes, and its length.
  function PosixTail(b: string, escaped: bool): (string, nat)
    ensures PosixTail(b, escaped).1 <= |b|
  {
    var sep := if escaped then "\\\\" else "\\";
    if b == "" then ("", 0)
    else if sep <= b then
      var rest := PosixTail(b[|sep|..], escaped);
      ("/" + rest.0, |sep| + rest.1)
    else if b[0] == '\\' || IsPathEnd(b[0], !escaped) then ("", 0)
    else
      var rest := PosixTail(b[1..], escaped);
      ([b[0]] + rest.0, 1 + rest.1)
  }

  // What follows an expanded home directory, and how much of rest it covers:
  // on a POSIX machine, the rest of a path that was written on Windows.
  function AfterHome(m: Mapper, sp: Spelling, rest: string): (string, nat)
    ensures AfterHome(m, sp, rest).1 <= |rest|
  {
    if !m.windows && sp != Slash then PosixTail(rest, sp == WinEscaped) else ("", 0)
  }

  // What ToLocal makes of the rest b of the data.
  function Expanded(m: Mapper, b: string): string
    decreases |b|
  {
    hide PlaceholderAt, PlaceholderOf, AfterHome;
    if b == "" then ""
    else
      match PlaceholderAt(b)
      case None => [b[0]] + Expanded(m, b[1..])
      case Some(sp) =>
        var rest := b[|PlaceholderOf(sp)|..];
        var tail := AfterHome(m, sp, rest);
        m.expand(sp) + tail.0 + Expanded(m, rest[tail.1..])
  }

  // -------------------------------------------------------- the loops

  method Index(data: string, f: Form, from: nat) returns (i: int)
    requires from <= |data|
    ensures i == -1 ==> forall j :: from <= j ==> !MatchAt(data, f.text, f.fold, j)
    ensures i != -1 ==> from <= i && MatchAt(data, f.text, f.fold, i)
                        && forall j :: from <= j < i ==> !MatchAt(data, f.text, f.fold, j)
  {
    i := from;
    while i + |f.text| <= |data|
      invariant from <= i
      invariant forall j :: from <= j < i ==> !MatchAt(data, f.text, f.fold, j)
      decreases |data| - i
    {
      if MatchAt(data, f.text, f.fold, i) { return; }
      i := i + 1;
    }
    i := -1;
  }

  // Without a valid match in between, bytes are copied.
  lemma {:induction false} CopiedTo(data: string, f: Form, i: nat, j: nat)
    requires i <= j <= |data| && f.text != ""
    requires forall k :: i <= k < j ==> !ValidAt(data, f, k)
    ensures Replaced(data, f, i) == data[i..j] + Replaced(data, f, j)
    decreases j - i
  {
    hide ValidAt, Replaced;
    if i == j {
      assert data[i..j] == "" && "" + Replaced(data, f, j) == Replaced(data, f, j);
    } else {
      CopiedByte(data, f, i);
      CopiedTo(data, f, i + 1, j);
      assert data[i..j] == [data[i]] + data[i + 1..j];
    }
  }

  lemma CopiedByte(data: string, f: Form, i: nat)
    requires i < |data| && f.text != "" && !ValidAt(data, f, i)
    ensures Replaced(data, f, i) == [data[i]] + Replaced(data, f, i + 1)
  {
    hide ValidAt;
  }

  // A match that is a whole path component becomes the placeholder.
  lemma ReplacedAt(data: string, f: Form, copied: nat, i: nat)
    requires copied <= i <= |data| && f.text != "" && ValidAt(data, f, i)
    requires forall k :: copied <= k < i ==> !ValidAt(data, f, k)
    ensures i + |f.text| <= |data|
    ensures Replaced(data, f, copied)
            == data[copied..i] + PlaceholderOf(f.spelling) + Replaced(data, f, i + |f.text|)
  {
    CopiedTo(data, f, copied, i);
  }

  method Replace(data: string, f: Form) returns (r: string)
    requires f.text != ""
    ensures r == Replaced(data, f, 0)
  {
    hide Replaced, PlaceholderOf;
    var out := "";
    var copied, from := 0, 0;
    while true
      invariant 0 <= copied <= from <= |data|
      invariant forall k :: copied <= k < from ==> !ValidAt(data, f, k)
      invariant out + Replaced(data, f, copied) == Replaced(data, f, 0)
      decreases |data| - from
    {
      var i := Index(data, f, from);
      if i < 0 { break; }
      var end := i + |f.text|;
      if (i > 0 && IsNameByte(data[i - 1])) || (end < |data| && IsNameByte(data[end])) {
        from := i + 1;
        continue;
      }
      ReplacedAt(data, f, copied, i);
      out := out + (data[copied..i] + PlaceholderOf(f.spelling));
      copied, from := end, end;
    }
    CopiedTo(data, f, copied, |data|);
    ReplacedNothing(data, f);
    assert data[copied..|data|] == data[copied..];
    r := out + data[copied..];
  }

  lemma ReplacedNothing(data: string, f: Form)
    requires f.text != ""
    ensures Replaced(data, f, |data|) == ""
  {
  }

  method ToPortable(m: Mapper, data: string) returns (r: string)
    requires forall f :: f in m.forms ==> f.text != ""
    ensures r == Portable(data, m.forms)
  {
    r := data;
    for i := 0 to |m.forms|
      invariant Portable(r, m.forms[i..]) == Portable(data, m.forms)
    {
      assert m.forms[i..][1..] == m.forms[i + 1..];
      r := Replace(r, m.forms[i]);
    }
  }

  // One step along the rest of a path.
  lemma TailStep(data: string, i: nat, escaped: bool)
    requires i <= |data|
    ensures var sep, tail := if escaped then "\\\\" else "\\", PosixTail(data[i..], escaped);
            if i == |data| then tail == ("", 0)
            else if sep <= data[i..] then
              && i + |sep| <= |data|
              && var rest := PosixTail(data[i + |sep|..], escaped);
                 tail == ("/" + rest.0, |sep| + rest.1)
            else if data[i] == '\\' || IsPathEnd(data[i], !escaped) then tail == ("", 0)
            else var rest := PosixTail(data[i + 1..], escaped); tail == ([data[i]] + rest.0, 1 + rest.1)
  {
    hide IsPathEnd;
    var sep := if escaped then "\\\\" else "\\";
    if i < |data| {
      assert data[i..][1..] == data[i + 1..];
      if sep <= data[i..] { assert data[i..][|sep|..] == data[i + |sep|..]; }
    }
  }

  method AppendPosixTail(out: string, data: string, at: nat, sp: Spelling) returns (r: string, i: nat)
    requires at <= |data|
    ensures var tail := PosixTail(data[at..], sp == WinEscaped);
            i == at + tail.1 && r == out + tail.0
  {
    hide PosixTail, IsPathEnd;
    var sep := if sp == WinEscaped then "\\\\" else "\\";
    r, i := out, at;
    TailStep(data, |data|, sp == WinEscaped);
    while i < |data|
      invariant at <= i <= |data|
      invariant var tail, rest := PosixTail(data[at..], sp == WinEscaped), PosixTail(data[i..], sp == WinEscaped);
                at + tail.1 == i + rest.1 && out + tail.0 == r + rest.0
    {
      TailStep(data, i, sp == WinEscaped);
      if sep <= data[i..] {
        r := r + "/";
        i := i + |sep|;
        continue;
      }
      var c := data[i];
      if c == '\\' || IsPathEnd(c, sp == Win || sp == Slash) { break; }
      r := r + [c];
      i := i + 1;
    }
  }

  lemma {:induction false} ExpandedTo(m: Mapper, data: string, i: nat, j: nat)
    requires i <= j <= |data|
    requires forall k :: i <= k < j ==> PlaceholderAt(data[k..]).None?
    ensures Expanded(m, data[i..]) == data[i..j] + Expanded(m, data[j..])
    decreases j - i
  {
    hide Expanded, PlaceholderAt;
    if i < j {
      ExpandedTo(m, data, i + 1, j);
      ExpandedByte(m, data[i..]);
      assert data[i..][1..] == data[i + 1..];
      assert data[i..j] == [data[i]] + data[i + 1..j];
    }
  }

  lemma ExpandedByte(m: Mapper, b: string)
    requires b != "" && PlaceholderAt(b).None?
    ensures Expanded(m, b) == [b[0]] + Expanded(m, b[1..])
  {
    hide PlaceholderAt, PlaceholderOf, AfterHome;
  }

  // Every placeholder starts with the prefix.
  lemma PlaceholdersStartWithPrefix(b: string)
    ensures PlaceholderAt(b).Some? ==> PREFIX <= b
  {
    assert PREFIX <= PLACEHOLDER && PREFIX <= PLACEHOLDER_WIN && PREFIX <= PLACEHOLDER_WIN_ESCAPED;
  }

  method IndexOfPrefix(data: string, from: nat) returns (i: int)
    requires from <= |data|
    ensures i == -1 ==> forall k :: from <= k <= |data| ==> !(PREFIX <= data[k..])
    ensures i != -1 ==>
              from <= i <= |data| && PREFIX <= data[i..] && forall k :: from <= k < i ==> !(PREFIX <= data[k..])
  {
    i := from;
    while i <= |data|
      invariant from <= i <= |data| + 1
      invariant forall k :: from <= k < i ==> !(PREFIX <= data[k..])
    {
      if PREFIX <= data[i..] { return; }
      i := i + 1;
    }
    i := -1;
  }

  // One placeholder expanded: what precedes it is copied, then comes the home
  // directory and, where the path was written on Windows, its rest.
  lemma ExpandedAt(m: Mapper, data: string, copied: nat, i: nat, sp: Spelling, next: nat)
    requires copied <= i <= |data| && PlaceholderAt(data[i..]) == Some(sp)
    requires forall k :: copied <= k < i ==> PlaceholderAt(data[k..]).None?
    requires next == i + |PlaceholderOf(sp)|
    ensures next <= |data|
    ensures var tail := AfterHome(m, sp, data[next..]);
            Expanded(m, data[copied..])
            == data[copied..i] + (m.expand(sp) + tail.0) + Expanded(m, data[next + tail.1..])
  {
    hide Expanded, PlaceholderAt, PlaceholderOf, AfterHome;
    ExpandedTo(m, data, copied, i);
    ExpandedHere(m, data[i..], sp);
    assert data[i..][|PlaceholderOf(sp)|..] == data[next..];
    var tail := AfterHome(m, sp, data[next..]);
    assert data[next..][tail.1..] == data[next + tail.1..];
  }

  lemma ExpandedHere(m: Mapper, b: string, sp: Spelling)
    requires PlaceholderAt(b) == Some(sp)
    ensures |PlaceholderOf(sp)| <= |b|
    ensures var rest := b[|PlaceholderOf(sp)|..];
            var tail := AfterHome(m, sp, rest);
            Expanded(m, b) == m.expand(sp) + tail.0 + Expanded(m, rest[tail.1..])
  {
    hide PlaceholderAt, PlaceholderOf, AfterHome;
  }

  // The text before a placeholder, the home directory and the rest of a path
  // written on Windows.
  method ExpandOne(m: Mapper, data: string, out: string, copied: nat, i: nat, sp: Spelling)
    returns (r: string, next: nat)
    requires copied <= i <= |data| && PlaceholderAt(data[i..]) == Some(sp)
    requires forall k :: copied <= k < i ==> PlaceholderAt(data[k..]).None?
    ensures i < next <= |data| && r + Expanded(m, data[next..]) == out + Expanded(m, data[copied..])
  {
    hide Expanded, PlaceholderAt, PosixTail, AfterHome;
    next := i + |PlaceholderOf(sp)|;
    ExpandedAt(m, data, copied, i, sp, next);
    ghost var tail := AfterHome(m, sp, data[next..]);
    AfterHomeIs(m, sp, data[next..]);
    r := out + data[copied..i] + m.expand(sp);
    if !m.windows && sp != Slash {
      r, next := AppendPosixTail(r, data, next, sp);
    }
    assert r == out + (data[copied..i] + (m.expand(sp) + tail.0));
  }

  method ToLocal(m: Mapper, data: string) returns (r: string)
    ensures r == Expanded(m, data)
  {
    hide Expanded, PlaceholderAt, PlaceholderOf, PosixTail, AfterHome;
    var out := "";
    var copied, from := 0, 0;
    assert data[0..] == data;
    while true
      invariant 0 <= copied <= from <= |data|
      invariant forall k :: copied <= k < from ==> PlaceholderAt(data[k..]).None?
      invariant out + Expanded(m, data[copied..]) == Expanded(m, data)
      decreases |data| - from
    {
      var i := IndexOfPrefix(data, from);
      forall k | from <= k < (if i < 0 then |data| else i) ensures PlaceholderAt(data[k..]).None? {
        PlaceholdersStartWithPrefix(data[k..]);
      }
      if i < 0 { break; }
      PrefixFits(data[i..]);
      var sp := PlaceholderAt(data[i..]);
      if sp.None? {
        from := i + 1;
        continue;
      }
      out, copied := ExpandOne(m, data, out, copied, i, sp.value);
      from := copied;
    }
    ExpandedTo(m, data, copied, |data|);
    ExpandedNothing(m, data);
    assert data[copied..|data|] == data[copied..];
    r := out + data[copied..];
  }

  lemma AfterHomeIs(m: Mapper, sp: Spelling, rest: string)
    ensures AfterHome(m, sp, rest) == if !m.windows && sp != Slash then PosixTail(rest, sp == WinEscaped) else ("", 0)
  {
  }

  lemma PrefixFits(b: string)
    requires PREFIX <= b
    ensures b != ""
  {
  }

  lemma ExpandedNothing(m: Mapper, data: string)
    ensures Expanded(m, data[|data|..]) == ""
  {
  }

  // ------------------------------------------------------------ the mapper

  function TrimRight(s: string, c: char): string {
    if s != "" && s[|s| - 1] == c then TrimRight(s[..|s| - 1], c) else s
  }

  function ReplaceAll(s: string, c: char, sub: string): string {
    if s == "" then ""
    else if s[0] == c then sub + ReplaceAll(s[1..], c, sub)
    else [s[0]] + ReplaceAll(s[1..], c, sub)
  }

  function WindowsRaw(home: string): string {
    TrimRight(ReplaceAll(home, '/', "\\"), '\\')
  }

  predicate IsDrivePath(raw: string) {
    |raw| >= 3 && raw[1] == ':' && raw[2] == '\\' && IsLetter(raw[0])
  }

  // The drive letter becomes a directory below the root.
  function GitBash(raw: string): string
    requires IsDrivePath(raw)
  {
    "/" + [LowerASCII(raw[0])] + ReplaceAll(raw[2..], '\\', "/")
  }

  function WindowsForms(home: string): seq<Form> {
    var raw := WindowsRaw(home);
    if raw == "" then []
    else
      [Form(raw, true, Win),
       Form(ReplaceAll(raw, '\\', "\\\\"), true, WinEscaped),
       Form(ReplaceAll(raw, '\\', "/"), true, Slash)]
      + if IsDrivePath(raw) then [Form(GitBash(raw), true, Slash)] else []
  }

  function FormsOf(home: string, windows: bool): seq<Form> {
    if windows then WindowsForms(home)
    else if TrimRight(home, '/') == "" then []
    else [Form(TrimRight(home, '/'), false, Slash)]
  }

  function AllForms(homes: seq<string>, windows: bool): seq<Form> {
    if homes == [] then [] else AllForms(homes[..|homes| - 1], windows) + FormsOf(homes[|homes| - 1], windows)
  }

  // Longest first; equally long forms keep their order.
  function Insert(f: Form, sorted: seq<Form>): seq<Form> {
    if sorted == [] then [f]
    else if |f.text| > |sorted[|sorted| - 1].text| then Insert(f, sorted[..|sorted| - 1]) + [sorted[|sorted| - 1]]
    else sorted + [f]
  }

  function SortForms(forms: seq<Form>): seq<Form> {
    if forms == [] then [] else Insert(forms[|forms| - 1], SortForms(forms[..|forms| - 1]))
  }

  function Expansion(home: string, windows: bool): Spelling -> string {
    var raw := WindowsRaw(home);
    (sp: Spelling) =>
      if !windows then TrimRight(home, '/')
      else match sp
           case Slash => ReplaceAll(raw, '\\', "/")
           case Win => raw
           case WinEscaped => ReplaceAll(raw, '\\', "\\\\")
  }

  method New(home: string, windows: bool, aliases: seq<string>) returns (m: Mapper)
    ensures m == Mapper(windows, SortForms(AllForms([home] + aliases, windows)), Expansion(home, windows))
  {
    var homes := [home] + aliases;
    var forms: seq<Form> := [];
    for i := 0 to |homes|
      invariant forms == AllForms(homes[..i], windows)
    {
      assert homes[..i + 1][..i] == homes[..i];
      forms := forms + FormsOf(homes[i], windows);
    }
    assert homes[..|homes|] == homes;
    m := Mapper(windows, SortForms(forms), Expansion(home, windows));
  }
}
