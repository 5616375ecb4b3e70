// POSIX machines: content returns byte for byte from its portable form, and a
// second machine gives back the same portable form.
module HomePosix {
  import opened Options
  import opened HomePath

  ghost predicate Contains(s: string, t: string) {
    exists i :: 0 <= i <= |s| && t <= s[i..]
  }

  function PosixForm(home: string): Form {
    Form(home, false, Slash)
  }

  // A machine whose home is home, without aliases.
  ghost predicate PosixMapper(m: Mapper, home: string) {
    && !m.windows
    && m.forms == (if home == "" then [] else [PosixForm(home)])
    && forall sp :: m.expand(sp) == home
  }

  // What New builds for a POSIX home without aliases.
  lemma NewPosix(home: string)
    ensures PosixMapper(Mapper(false, SortForms(AllForms([home], false)), Expansion(home, false)), TrimRight(home, '/'))
  {
    hide TrimRight, ReplaceAll, WindowsForms, WindowsRaw;
    assert [home][..0] == [];
    var forms := FormsOf(home, false);
    assert AllForms([home], false) == [] + forms == forms;
    if forms != [] { assert forms[..0] == []; }
  }

  // A prefix unlike any of its own proper suffixes: it starts with two
  // underscores and nowhere else holds two, nor ends with one.
  ghost predicate Unbordered(p: string) {
    && |p| >= 2 && p[0] == '_' && p[1] == '_' && p[|p| - 1] != '_'
    && forall k, m :: 0 < k < |p| - 1 && m == k + 1 ==> p[k] != '_' || p[m] != '_'
  }

  lemma PrefixIsUnbordered()
    ensures Unbordered(PREFIX)
  {
    assert |PREFIX| == 16;
    assert PREFIX[1] == '_' && PREFIX[2] == 'C' && PREFIX[3] == 'O' && PREFIX[4] == 'D' && PREFIX[5] == 'E';
    assert PREFIX[6] == 'A' && PREFIX[7] == 'G' && PREFIX[8] == 'E' && PREFIX[9] == 'N' && PREFIX[10] == 'T';
    assert PREFIX[11] == '_' && PREFIX[12] == 'H' && PREFIX[13] == 'O' && PREFIX[14] == 'M' && PREFIX[15] == 'E';
  }

  // No proper suffix of such a prefix starts a text that starts with it.
  lemma SuffixIsNoStart(prefix: string, p: nat, text: string)
    requires Unbordered(prefix) && prefix <= text && 0 < p < |prefix|
    ensures !(prefix[p..] <= text)
  {
    assert text[0] == '_' && text[1] == '_' && prefix[p..][0] == prefix[p];
    if p + 1 < |prefix| {
      assert prefix[p..][1] == prefix[p + 1];
      assert prefix[p] != '_' || prefix[p + 1] != '_';
    }
  }

  lemma OneMoreByte(s: string, j: nat, p: nat, prefix: string)
    requires 0 < p < |prefix| && p <= j < |s| && s[j - p..j] == prefix[..p] && s[j] == prefix[p]
    ensures s[j - p..j + 1] == prefix[..p + 1]
  {
    assert s[j - p..j + 1] == s[j - p..j] + [s[j]];
  }

  // p bytes of the prefix are literal text right before j: if the rest of it
  // follows in the replaced text, the text held the whole prefix.
  lemma {:induction false} SpanningPrefix(s: string, f: Form, j: nat, p: nat, prefix: string)
    requires f.text != "" && Unbordered(prefix) && prefix <= PlaceholderOf(f.spelling)
    requires 0 < p <= |prefix| && p <= j <= |s| && s[j - p..j] == prefix[..p]
    ensures prefix[p..] <= Replaced(s, f, j) ==> Contains(s, prefix)
    decreases |prefix| - p
  {
    hide PlaceholderOf, ValidAt, Replaced, Unbordered, Contains;
    var r := Replaced(s, f, j);
    if p == |prefix| {
      HeldWhole(s, j - p, prefix);
    } else if j == |s| {
      ReplacedNothing(s, f);
    } else if ValidAt(s, f, j) {
      ReplacedHere(s, f, j);
      SuffixIsNoStart(prefix, p, r);
    } else if prefix[p..] <= r {
      ReplacedByte(s, f, j);
      FirstAndRest(prefix[p..], [s[j]], Replaced(s, f, j + 1));
      OneMoreByte(s, j, p, prefix);
      assert prefix[p..][1..] == prefix[p + 1..];
      SpanningPrefix(s, f, j + 1, p + 1, prefix);
    }
  }

  lemma HeldWhole(s: string, at: nat, p: string)
    requires at + |p| <= |s| && s[at..at + |p|] == p
    ensures Contains(s, p)
  {
    assert p <= s[at..];
  }

  lemma FirstAndRest(a: string, first: string, rest: string)
    requires a != "" && |first| == 1 && a <= first + rest
    ensures a[0] == first[0] && a[1..] <= rest
  {
    assert (first + rest)[1..] == rest;
  }

  lemma ReplacedHere(s: string, f: Form, j: nat)
    requires f.text != "" && j < |s| && ValidAt(s, f, j)
    ensures j + |f.text| <= |s|
    ensures Replaced(s, f, j) == PlaceholderOf(f.spelling) + Replaced(s, f, j + |f.text|)
  {
    hide PlaceholderOf;
  }

  // Expanding the replaced text gives the text back.
  lemma {:induction false} ExpandReplaced(s: string, m: Mapper, f: Form, j: nat)
    requires f.text != "" && f.spelling == Slash && !f.fold && m.expand(Slash) == f.text
    requires !Contains(s, PREFIX) && j <= |s|
    ensures Expanded(m, Replaced(s, f, j)) == s[j..]
    decreases |s| - j
  {
    hide PlaceholderAt, AfterHome, Replaced, Expanded, PlaceholderOf, Contains;
    var r := Replaced(s, f, j);
    if j == |s| {
      ReplacedNothing(s, f);
      ExpandedNothing(m, "");
    } else if ValidAt(s, f, j) {
      var rest := Replaced(s, f, j + |f.text|);
      SlashPlaceholder(rest);
      ExpandReplaced(s, m, f, j + |f.text|);
      ReplacedHere(s, f, j);
      SlashIs();
      assert r == PLACEHOLDER + rest && r[|PLACEHOLDER|..] == rest;
      ExpandedHere(m, r, Slash);
      AfterHomeIs(m, Slash, rest);
      assert rest[0..] == rest;
      assert s[j..j + |f.text|] == f.text;
      assert s[j..] == f.text + s[j + |f.text|..];
    } else {
      NotAPlaceholder(s, f, j);
      ExpandReplaced(s, m, f, j + 1);
      ReplacedByte(s, f, j);
      assert r[1..] == Replaced(s, f, j + 1);
      ExpandedByte(m, r);
      assert s[j..] == [s[j]] + s[j + 1..];
    }
  }

  lemma SlashIs()
    ensures PlaceholderOf(Slash) == PLACEHOLDER
  {
  }

  lemma ReplacedByte(s: string, f: Form, j: nat)
    requires f.text != "" && j < |s| && !ValidAt(s, f, j)
    ensures Replaced(s, f, j) == [s[j]] + Replaced(s, f, j + 1)
  {
  }

  lemma SlashPlaceholder(rest: string)
    ensures PlaceholderAt(PLACEHOLDER + rest) == Some(Slash)
  {
    var b := PLACEHOLDER + rest;
    assert b[17] == '_' && PLACEHOLDER_WIN[17] == 'W' && PLACEHOLDER_WIN_ESCAPED[17] == 'W';
  }

  lemma PrefixComesFromText(s: string, f: Form, j: nat, prefix: string)
    requires f.text != "" && Unbordered(prefix) && prefix <= PlaceholderOf(f.spelling)
    requires j < |s| && !ValidAt(s, f, j)
    ensures prefix <= Replaced(s, f, j) ==> Contains(s, prefix)
  {
    hide PlaceholderOf, ValidAt;
    var r := Replaced(s, f, j);
    if prefix <= r {
      assert r[1..] == Replaced(s, f, j + 1);
      assert s[j + 1 - 1..j + 1] == [s[j]] == prefix[..1];
      SpanningPrefix(s, f, j + 1, 1, prefix);
    }
  }

  lemma NotAPlaceholder(s: string, f: Form, j: nat)
    requires f.text != "" && !Contains(s, PREFIX) && j < |s| && !ValidAt(s, f, j)
    ensures PlaceholderAt(Replaced(s, f, j)).None?
  {
    hide PlaceholderAt, Replaced;
    PlaceholdersStartWithPrefix(Replaced(s, f, j));
    PrefixIsUnbordered();
    PrefixComesFromText(s, f, j, PREFIX);
  }

  // On the machine itself, whatever its home directory: content that does not
  // hold the placeholder prefix comes back byte for byte.
  lemma RoundTrip(s: string, m: Mapper, home: string)
    requires PosixMapper(m, home) && !Contains(s, PREFIX)
    ensures Expanded(m, Portable(s, m.forms)) == s
  {
    if home == "" {
      NothingToExpand(m, s);
    } else {
      var f := PosixForm(home);
      assert m.forms[1..] == [];
      assert Portable(s, m.forms) == Replaced(s, f, 0);
      ExpandReplaced(s, m, f, 0);
      assert s[0..] == s;
    }
  }

  lemma {:induction false} NothingToExpand(m: Mapper, s: string)
    requires !Contains(s, PREFIX)
    ensures Expanded(m, s) == s
    decreases |s|
  {
    if s != "" {
      hide PlaceholderAt;
      PlaceholdersStartWithPrefix(s);
      assert s[0..] == s;
      forall i | 0 <= i <= |s[1..]| ensures !(PREFIX <= s[1..][i..]) {
        assert s[1..][i..] == s[i + 1..];
      }
      NothingToExpand(m, s[1..]);
      assert s == [s[0]] + s[1..];
    }
  }
}
