// internal/homepath/homepath.go, appendPOSIXTail: the rest of a path written
// on Windows resolves on a POSIX machine.
module HomeTail {
  import opened Options
  import opened HomePath
  import opened HomePosix
  import opened HomeTokens

  function Join(parts: seq<string>, sep: string): string {
    if parts == [] then "" else if |parts| == 1 then parts[0] else parts[0] + sep + Join(parts[1..], sep)
  }

  // A character of a path component: no separator, and none of those that end
  // a path; a space ends a path that is not escaped.
  predicate InComponent(c: char, escaped: bool) {
    && c != '\\' && c != '"' && c != '\'' && c != '`' && c != '<' && c != '>' && c != '|' && c != '*' && c != '?'
    && c != ',' && c != ';' && c != '\n' && c != '\r' && c != '\t' && c != '\0' && (escaped || c != ' ')
  }

  ghost predicate Components(parts: seq<string>, escaped: bool) {
    forall i, k :: 0 <= i < |parts| && 0 <= k < |parts[i]| ==> InComponent(parts[i][k], escaped)
  }

  // What comes after a path: nothing, or one of those characters; in an
  // escaped text also a backslash alone, which starts an escape sequence.
  predicate AfterPath(rest: string, escaped: bool) {
    || rest == ""
    || rest[0] in ['"', '\'', '`', '<', '>', '|', '*', '?', ',', ';', '\n', '\r', '\t', '\0']
    || (!escaped && rest[0] == ' ')
    || (escaped && rest[0] == '\\' && !("\\\\" <= rest))
  }

  function Sep(escaped: bool): string {
    if escaped then "\\\\" else "\\"
  }

  lemma {:induction false} TailOfName(name: string, rest: string, escaped: bool)
    requires forall k :: 0 <= k < |name| ==> InComponent(name[k], escaped)
    ensures PosixTail(name + rest, escaped)
            == (name + PosixTail(rest, escaped).0, |name| + PosixTail(rest, escaped).1)
    decreases |name|
  {
    hide PosixTail, InComponent;
    if name == "" {
      assert name + rest == rest && "" + PosixTail(rest, escaped).0 == PosixTail(rest, escaped).0;
    } else {
      TailOfName(name[1..], rest, escaped);
      TailOfByte(name[0], name[1..] + rest, escaped);
      assert name + rest == [name[0]] + (name[1..] + rest);
      assert name + PosixTail(rest, escaped).0 == [name[0]] + (name[1..] + PosixTail(rest, escaped).0);
    }
  }

  lemma TailOfByte(c: char, rest: string, escaped: bool)
    requires InComponent(c, escaped)
    ensures PosixTail([c] + rest, escaped) == ([c] + PosixTail(rest, escaped).0, 1 + PosixTail(rest, escaped).1)
  {
    assert ([c] + rest)[0] == c && ([c] + rest)[1..] == rest;
  }

  lemma TailOfSep(rest: string, escaped: bool)
    ensures var tail := PosixTail(rest, escaped);
            PosixTail(Sep(escaped) + rest, escaped) == ("/" + tail.0, |Sep(escaped)| + tail.1)
  {
    var sep := Sep(escaped);
    var all := sep + rest;
    assert sep <= all && all[|sep|..] == rest && sep == if escaped then "\\\\" else "\\";
    hide IsPathEnd, Sep;
  }

  lemma TailEnds(rest: string, escaped: bool)
    requires AfterPath(rest, escaped)
    ensures PosixTail(rest, escaped) == ("", 0)
  {
  }

  // The rest of a path: a separator before each component.
  lemma {:induction false} TailOfPath(parts: seq<string>, rest: string, escaped: bool)
    requires parts != [] && Components(parts, escaped) && AfterPath(rest, escaped)
    ensures var path := Sep(escaped) + Join(parts, Sep(escaped));
            PosixTail(path + rest, escaped) == ("/" + Join(parts, "/"), |path|)
    decreases |parts|
  {
    hide InComponent, AfterPath, PosixTail, Sep;
    var sep := Sep(escaped);
    if |parts| == 1 {
      TailEnds(rest, escaped);
      TailOfName(parts[0], rest, escaped);
      TailOfSep(parts[0] + rest, escaped);
      assert sep + parts[0] + rest == sep + (parts[0] + rest);
      assert parts[0] + "" == parts[0];
    } else {
      var more := sep + Join(parts[1..], sep);
      TailOfPath(parts[1..], rest, escaped);
      TailOfName(parts[0], more + rest, escaped);
      TailOfSep(parts[0] + (more + rest), escaped);
      assert sep + Join(parts, sep) + rest == sep + (parts[0] + (more + rest));
      assert "/" + Join(parts, "/") == "/" + (parts[0] + ("/" + Join(parts[1..], "/")));
    }
  }

  // On a POSIX machine a path below a home directory that was written on
  // Windows becomes the path below this machine's home, with forward slashes,
  // up to the first character that cannot belong to it.
  lemma WindowsPathResolves(m: Mapper, home: string, parts: seq<string>, rest: string)
    requires PosixMapper(m, home)
    requires parts != [] && Components(parts, false) && AfterPath(rest, false)
    ensures Expanded(m, "__CODEAGENT_HOME_WIN__" + "\\" + Join(parts, "\\") + rest)
            == home + "/" + Join(parts, "/") + Expanded(m, rest)
  {
    PathResolves(m, home, Win, parts, rest, false);
  }

  lemma EscapedPathResolves(m: Mapper, home: string, parts: seq<string>, rest: string)
    requires PosixMapper(m, home)
    requires parts != [] && Components(parts, true) && AfterPath(rest, true)
    ensures Expanded(m, "__CODEAGENT_HOME_WIN_ESCAPED__" + "\\\\" + Join(parts, "\\\\") + rest)
            == home + "/" + Join(parts, "/") + Expanded(m, rest)
  {
    PathResolves(m, home, WinEscaped, parts, rest, true);
  }

  lemma PathResolves(m: Mapper, home: string, sp: Spelling, parts: seq<string>, rest: string, escaped: bool)
    requires PosixMapper(m, home) && sp == if escaped then WinEscaped else Win
    requires parts != [] && Components(parts, escaped) && AfterPath(rest, escaped)
    ensures Expanded(m, PlaceholderOf(sp) + Sep(escaped) + Join(parts, Sep(escaped)) + rest)
            == home + "/" + Join(parts, "/") + Expanded(m, rest)
  {
    var tail := Join(parts, Sep(escaped));
    TailOfPath(parts, rest, escaped);
    Placed(m, sp, Sep(escaped) + tail, rest, "/" + Join(parts, "/"));
    hide *;
    Regroup(PlaceholderOf(sp), Sep(escaped), tail, rest);
    Regroup(home, "/", Join(parts, "/"), Expanded(m, rest));
  }

  lemma Regroup(a: string, b: string, c: string, d: string)
    ensures a + b + c + d == a + ((b + c) + d) && a + b + c + d == a + (b + c) + d
  {
    assert a + b + c + d == a + ((b + c) + d);
  }

  // A placeholder with the rest of a path, once that is known.
  lemma Placed(m: Mapper, sp: Spelling, path: string, rest: string, tail: string)
    requires !m.windows && sp != Slash && PosixTail(path + rest, sp == WinEscaped) == (tail, |path|)
    ensures Expanded(m, PlaceholderOf(sp) + (path + rest)) == m.expand(sp) + tail + Expanded(m, rest)
  {
    hide Expanded, PosixTail, PlaceholderAt, PlaceholderOf;
    var text := PlaceholderOf(sp) + (path + rest);
    PlaceholderFound(sp, path + rest);
    ExpandedHere(m, text, sp);
    assert text[|PlaceholderOf(sp)|..] == path + rest && (path + rest)[|path|..] == rest;
  }
}
