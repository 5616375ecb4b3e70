// internal/homepath/homepath.go: which bytes a home directory is recognized
// by, and its spellings on Windows, byte by byte.
module HomeForms {
  import opened Options
  import opened HomePath
  import opened HomePosix
  import opened HomeTail
  import HomeWindows

  // ------------------------------------------------- where a home is found

  // A byte with which a file name can go on.
  predicate NameGoesOn(c: char) {
    || 'a' <= c <= 'z' || 'A' <= c <= 'Z' || '0' <= c <= '9' || c == '_' || c == '.' || c == '-'
    || c as int >= 128
  }

  // The text stands at i as a whole component.
  ghost predicate StandsAt(data: string, text: string, i: nat) {
    && i + |text| <= |data| && data[i..i + |text|] == text
    && (i == 0 || !NameGoesOn(data[i - 1])) && (i + |text| == |data| || !NameGoesOn(data[i + |text|]))
  }

  // Two bytes that are equal or the same ASCII letter in either case.
  predicate SameLetter(a: char, b: char) {
    || a == b
    || ('a' <= a <= 'z' && 'A' <= b <= 'Z' && a as int == b as int + 32)
    || ('A' <= a <= 'Z' && 'a' <= b <= 'z' && b as int == a as int + 32)
  }

  lemma ValidExactly(data: string, f: Form, i: nat)
    ensures ValidAt(data, f, i)
            <==> && i + |f.text| <= |data|
                 && (forall k :: 0 <= k < |f.text| ==>
                       if f.fold then SameLetter(data[i + k], f.text[k]) else data[i + k] == f.text[k])
                 && (i == 0 || !NameGoesOn(data[i - 1]))
                 && (i + |f.text| == |data| || !NameGoesOn(data[i + |f.text|]))
  {
  }

  lemma SliceIs(data: string, i: nat, text: string)
    requires i + |text| <= |data|
    ensures data[i..i + |text|] == text <==> forall k :: 0 <= k < |text| ==> data[i + k] == text[k]
  {
    var part := data[i..i + |text|];
    assert forall k :: 0 <= k < |text| ==> part[k] == data[i + k];
  }

  lemma PosixStands(data: string, home: string, i: nat)
    ensures ValidAt(data, PosixForm(home), i) <==> StandsAt(data, home, i)
  {
    ValidExactly(data, PosixForm(home), i);
    hide ValidAt;
    if i + |home| <= |data| { SliceIs(data, i, home); }
  }

  // Where a home stands for the first time it becomes the placeholder.
  lemma HomeIsReplaced(data: string, home: string, i: nat)
    requires home != "" && StandsAt(data, home, i) && forall k :: 0 <= k < i ==> !StandsAt(data, home, k)
    ensures Replaced(data, PosixForm(home), 0)
            == data[..i] + "__CODEAGENT_HOME__" + Replaced(data, PosixForm(home), i + |home|)
  {
    PosixStands(data, home, i);
    forall k | 0 <= k < i ensures !ValidAt(data, PosixForm(home), k) { PosixStands(data, home, k); }
    ReplacedAt(data, PosixForm(home), 0, i);
    assert data[0..i] == data[..i];
  }

  // A text in which it stands nowhere stays: /home/admin is not below /home/ad.
  lemma OtherTextStays(data: string, home: string)
    requires home != "" && forall k :: 0 <= k <= |data| ==> !StandsAt(data, home, k)
    ensures Replaced(data, PosixForm(home), 0) == data
  {
    forall k | 0 <= k < |data| ensures !ValidAt(data, PosixForm(home), k) { PosixStands(data, home, k); }
    CopiedTo(data, PosixForm(home), 0, |data|);
    ReplacedNothing(data, PosixForm(home));
    assert data[0..|data|] + "" == data;
  }

  // ------------------------------------------------- spellings on Windows

  ghost predicate Names(parts: seq<string>) {
    && parts != []
    && forall i :: 0 <= i < |parts| ==> parts[i] != "" && '/' !in parts[i] && '\\' !in parts[i]
  }

  lemma {:induction false} ReplaceNothing(s: string, c: char, sub: string)
    requires c !in s
    ensures ReplaceAll(s, c, sub) == s
  {
    if s != "" {
      assert s == [s[0]] + s[1..];
      ReplaceNothing(s[1..], c, sub);
    }
  }

  lemma ReplaceOne(c: char, sub: string)
    ensures ReplaceAll([c], c, sub) == sub
  {
    assert [c][1..] == "" && sub + "" == sub;
  }

  lemma {:induction false} ReplaceJoined(parts: seq<string>, c: char, sub: string)
    requires forall i :: 0 <= i < |parts| ==> c !in parts[i]
    ensures ReplaceAll(Join(parts, [c]), c, sub) == Join(parts, sub)
  {
    hide ReplaceAll;
    if parts == [] {
      ReplaceNothing("", c, sub);
    } else if |parts| == 1 {
      ReplaceNothing(parts[0], c, sub);
    } else {
      ReplaceJoined(parts[1..], c, sub);
      ReplaceNothing(parts[0], c, sub);
      ReplaceOne(c, sub);
      HomeWindows.ReplaceConcat(parts[0] + [c], Join(parts[1..], [c]), c, sub);
      HomeWindows.ReplaceConcat(parts[0], [c], c, sub);
    }
  }

  lemma {:induction false} JoinEnds(parts: seq<string>, sep: string)
    requires Names(parts)
    ensures Join(parts, sep) != "" && Join(parts, sep)[|Join(parts, sep)| - 1] != '\\'
    ensures '/' !in sep ==> '/' !in Join(parts, sep)
  {
    if |parts| > 1 { JoinEnds(parts[1..], sep); }
  }

  predicate LowerOf(low: char, l: char) {
    || ('A' <= l <= 'Z' && low as int == l as int + 32)
    || ('a' <= l <= 'z' && low == l)
  }

  // The home directory C:\Users\ad is recognized as C:\Users\ad,
  // C:\\Users\\ad, C:/Users/ad and /c/Users/ad, in any case, and placeholders
  // expand to the first three.
  lemma WindowsSpellings(l: char, low: char, parts: seq<string>)
    requires Names(parts) && LowerOf(low, l)
    ensures var home := [l] + ":" + "\\" + Join(parts, "\\");
            && WindowsForms(home)
               == [Form(home, true, Win),
                   Form([l] + ":" + "\\\\" + Join(parts, "\\\\"), true, WinEscaped),
                   Form([l] + ":" + "/" + Join(parts, "/"), true, Slash),
                   Form("/" + [low] + "/" + Join(parts, "/"), true, Slash)]
            && Expansion(home, true)(Win) == home
            && Expansion(home, true)(WinEscaped) == [l] + ":" + "\\\\" + Join(parts, "\\\\")
            && Expansion(home, true)(Slash) == [l] + ":" + "/" + Join(parts, "/")
  {
    hide ReplaceAll, TrimRight, Join;
    var tail := Join(parts, "\\");
    var home := [l] + ":" + "\\" + tail;
    JoinEnds(parts, "\\");
    ReplaceNothing(home, '/', "\\");
    NothingTrimmed(home, '\\');
    DriveReplaced(l, parts, "\\\\");
    DriveReplaced(l, parts, "/");
    assert "/" + [low] + ("/" + Join(parts, "/")) == "/" + [low] + "/" + Join(parts, "/");
    assert home[2..] == "\\" + tail && home[0] == l && home[1] == ':' && home[2] == '\\';
  }

  lemma NothingTrimmed(s: string, c: char)
    requires s != "" && s[|s| - 1] != c
    ensures TrimRight(s, c) == s
  {
  }

  // What is trimmed off a home directory are its trailing separators.
  lemma {:induction false} TrimmedOff(s: string, tail: string, c: char)
    requires (s != "" ==> s[|s| - 1] != c) && forall k :: 0 <= k < |tail| ==> tail[k] == c
    ensures TrimRight(s + tail, c) == s
  {
    if tail == "" {
      assert s + tail == s;
    } else {
      assert (s + tail)[..|s + tail| - 1] == s + tail[..|tail| - 1];
      TrimmedOff(s, tail[..|tail| - 1], c);
    }
  }

  lemma DriveReplaced(l: char, parts: seq<string>, sub: string)
    requires Names(parts) && l != '\\'
    ensures ReplaceAll("\\" + Join(parts, "\\"), '\\', sub) == sub + Join(parts, sub)
    ensures ReplaceAll([l] + ":" + "\\" + Join(parts, "\\"), '\\', sub) == [l] + ":" + sub + Join(parts, sub)
  {
    hide ReplaceAll, Join;
    ReplaceJoined(parts, '\\', sub);
    DriveOf(l, Join(parts, "\\"), '\\', sub);
  }

  lemma DriveOf(l: char, tail: string, c: char, sub: string)
    requires c != l && c != ':'
    ensures ReplaceAll([c] + tail, c, sub) == sub + ReplaceAll(tail, c, sub)
    ensures ReplaceAll([l] + ":" + [c] + tail, c, sub) == [l] + ":" + sub + ReplaceAll(tail, c, sub)
  {
    hide ReplaceAll;
    ReplaceOne(c, sub);
    HomeWindows.ReplaceConcat([c], tail, c, sub);
    ReplaceNothing([l] + ":", c, sub);
    HomeWindows.ReplaceConcat([l] + ":", [c] + tail, c, sub);
    assert [l] + ":" + [c] + tail == ([l] + ":") + ([c] + tail);
    assert ([l] + ":") + (sub + ReplaceAll(tail, c, sub)) == [l] + ":" + sub + ReplaceAll(tail, c, sub);
  }

  lemma {:induction false} OnlySeparators(tail: string)
    requires forall k :: 0 <= k < |tail| ==> tail[k] == '/' || tail[k] == '\\'
    ensures forall k :: 0 <= k < |ReplaceAll(tail, '/', "\\")| ==> ReplaceAll(tail, '/', "\\")[k] == '\\'
  {
    if tail != "" { OnlySeparators(tail[1..]); }
  }

  // The home directory may as well be given with forward slashes, or with
  // separators at its end.
  lemma SeparatorsDoNotMatter(l: char, low: char, parts: seq<string>, tail: string, sp: Spelling)
    requires Names(parts) && LowerOf(low, l)
    requires forall k :: 0 <= k < |tail| ==> tail[k] == '/' || tail[k] == '\\'
    ensures var home, raw := [l] + ":" + "/" + Join(parts, "/") + tail, [l] + ":" + "\\" + Join(parts, "\\");
            && WindowsForms(home) == WindowsForms(raw) && WindowsForms(raw + tail) == WindowsForms(raw)
            && Expansion(home, true)(sp) == Expansion(raw, true)(sp) == Expansion(raw + tail, true)(sp)
  {
    var raw := [l] + ":" + "\\" + Join(parts, "\\");
    RawIs([l] + ":" + "/" + Join(parts, "/"), tail, raw) by {
      hide ReplaceAll, Join;
      ReplaceJoined(parts, '/', "\\");
      DriveOf(l, Join(parts, "/"), '/', "\\");
      DriveEnds(l, parts);
    }
    RawIs(raw, tail, raw) by {
      DriveEnds(l, parts);
      ReplaceNothing(raw, '/', "\\");
    }
    RawIs(raw, "", raw) by {
      DriveEnds(l, parts);
      ReplaceNothing(raw, '/', "\\");
    }
    assert raw + "" == raw;
    hide ReplaceAll, Join, WindowsRaw;
  }

  lemma DriveEnds(l: char, parts: seq<string>)
    requires Names(parts) && l != '/'
    ensures var raw := [l] + ":" + "\\" + Join(parts, "\\"); raw[|raw| - 1] != '\\' && '/' !in raw
  {
    hide Join;
    JoinEnds(parts, "\\");
  }

  lemma RawIs(home: string, tail: string, raw: string)
    requires ReplaceAll(home, '/', "\\") == raw && raw != "" && raw[|raw| - 1] != '\\'
    requires forall k :: 0 <= k < |tail| ==> tail[k] == '/' || tail[k] == '\\'
    ensures WindowsRaw(home + tail) == raw
  {
    hide ReplaceAll, TrimRight;
    HomeWindows.ReplaceConcat(home, tail, '/', "\\");
    OnlySeparators(tail);
    TrimmedOff(raw, ReplaceAll(tail, '/', "\\"), '\\');
  }

  // Known are the spellings of the home directory and of every alias.
  lemma {:induction false} SpellingsOfAll(homes: seq<string>, windows: bool, f: Form)
    ensures f in AllForms(homes, windows) <==> exists i :: 0 <= i < |homes| && f in FormsOf(homes[i], windows)
  {
    hide FormsOf;
    if homes != [] {
      var n := |homes| - 1;
      SpellingsOfAll(homes[..n], windows, f);
      assert forall i :: 0 <= i < n ==> homes[..n][i] == homes[i];
      if f in AllForms(homes[..n], windows) {
        var i :| 0 <= i < n && f in FormsOf(homes[..n][i], windows);
        assert f in FormsOf(homes[i], windows);
      }
      if exists i :: 0 <= i < |homes| && f in FormsOf(homes[i], windows) {
        var i :| 0 <= i < |homes| && f in FormsOf(homes[i], windows);
        if i < n { assert f in FormsOf(homes[..n][i], windows); }
      }
    }
  }

  lemma KnownExactly(home: string, aliases: seq<string>, windows: bool, f: Form)
    ensures f in SortForms(AllForms([home] + aliases, windows))
            <==> f in FormsOf(home, windows) || exists i :: 0 <= i < |aliases| && f in FormsOf(aliases[i], windows)
  {
    hide FormsOf, AllForms, SortForms;
    var homes := [home] + aliases;
    SpellingsOfAll(homes, windows, f);
    SortedLongestFirst(AllForms(homes, windows));
    InBoth(SortForms(AllForms(homes, windows)), AllForms(homes, windows), f);
    assert homes[0] == home && forall i :: 0 <= i < |aliases| ==> homes[i + 1] == aliases[i];
  }

  lemma InBoth(a: seq<Form>, b: seq<Form>, f: Form)
    requires multiset(a) == multiset(b)
    ensures f in a <==> f in b
  {
    assert f in a <==> f in multiset(a);
    assert f in b <==> f in multiset(b);
  }

  // ------------------------------------------------- longest first

  ghost predicate LongestFirst(forms: seq<Form>) {
    forall i, j :: 0 <= i < j < |forms| ==> |forms[i].text| >= |forms[j].text|
  }

  lemma {:induction false} InsertedOnce(f: Form, sorted: seq<Form>)
    ensures multiset(Insert(f, sorted)) == multiset(sorted) + multiset{f}
  {
    if sorted != [] {
      var n := |sorted| - 1;
      assert sorted == sorted[..n] + [sorted[n]];
      if |f.text| > |sorted[n].text| { InsertedOnce(f, sorted[..n]); }
    }
  }

  lemma {:induction false} InsertedInOrder(f: Form, sorted: seq<Form>)
    requires LongestFirst(sorted)
    ensures LongestFirst(Insert(f, sorted))
    ensures forall g :: g in Insert(f, sorted) ==> g == f || g in sorted
  {
    if sorted != [] {
      var n := |sorted| - 1;
      if |f.text| > |sorted[n].text| {
        InsertedInOrder(f, sorted[..n]);
        var r := Insert(f, sorted[..n]);
        forall i | 0 <= i < |r| ensures |r[i].text| >= |sorted[n].text| { assert r[i] in r; }
        hide Insert;
      }
    }
  }

  // A longer spelling is looked for before a shorter one, and none is lost.
  lemma {:induction false} SortedLongestFirst(forms: seq<Form>)
    ensures LongestFirst(SortForms(forms)) && multiset(SortForms(forms)) == multiset(forms)
  {
    hide Insert, LongestFirst;
    if forms == [] {
      NoneSorted();
    } else {
      var n := |forms| - 1;
      assert forms == forms[..n] + [forms[n]];
      SortedLongestFirst(forms[..n]);
      InsertedInOrder(forms[n], SortForms(forms[..n]));
      InsertedOnce(forms[n], SortForms(forms[..n]));
    }
  }

  lemma NoneSorted()
    ensures LongestFirst([])
  {
  }
}
