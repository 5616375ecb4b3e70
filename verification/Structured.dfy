// internal/structured/structured.go: item-by-item three-way merge of the
// structured files (settings.json, .claude.json, config.toml, registry.yaml).
module Structured {
  import opened Options

  // One independently merged part of a file. `value` is canonical and decides
  // equality; `text` is the item as written.
  datatype Item = Item(name: string, value: string, text: string)

  function Names(items: seq<Item>): seq<string> {
    if items == [] then [] else Names(items[..|items| - 1]) + [items[|items| - 1].name]
  }

  ghost predicate Distinct(items: seq<Item>) {
    forall i, j :: 0 <= i < j < |items| ==> items[i].name != items[j].name
  }

  ghost predicate Has(items: seq<Item>, name: string) {
    exists i :: 0 <= i < |items| && items[i].name == name
  }

  // The index of items by name; a later item replaces an earlier one.
  function Index(items: seq<Item>): map<string, Item> {
    if items == [] then map[]
    else
      var last := items[|items| - 1];
      Index(items[..|items| - 1])[last.name := last]
  }

  method BuildIndex(items: seq<Item>) returns (m: map<string, Item>)
    ensures m == Index(items)
  {
    m := map[];
    for i := 0 to |items|
      invariant m == Index(items[..i])
    {
      assert items[..i + 1][..i] == items[..i];
      m := m[items[i].name := items[i]];
    }
    assert items[..|items|] == items;
  }

  // What a list of items says about a name.
  function ValueOf(items: seq<Item>, name: string): Option<string> {
    Value(Lookup(Index(items), name))
  }

  function Value(it: Option<Item>): Option<string> {
    if it.Some? then Some(it.value.value) else None
  }

  // Two lists that say the same about every name.
  ghost predicate SameValues(a: seq<Item>, b: seq<Item>) {
    forall n :: ValueOf(a, n) == ValueOf(b, n)
  }

  // What the fingerprint hashes: name and value of every item, whatever the
  // order. Hashing itself is taken to be free of collisions.
  function Fingerprint(items: seq<Item>): multiset<(string, string)> {
    if items == [] then multiset{}
    else
      var last := items[|items| - 1];
      Fingerprint(items[..|items| - 1]) + multiset{(last.name, last.value)}
  }

  function Same(a: Option<Item>, b: Option<Item>): bool {
    if a.None? || b.None? then a.None? && b.None? else a.value.value == b.value.value
  }

  // The outcome for one name: the item taken, and whether it is a conflict.
  function Resolve(b: Option<Item>, l: Option<Item>, r: Option<Item>, preferRemote: bool): (Option<Item>, bool) {
    if Same(l, r) then (l, false)
    else if Same(l, b) then (r, false)
    else if Same(r, b) then (l, false)
    else if preferRemote then (r, false)
    else (l, true)
  }

  datatype Sides = Sides(base: map<string, Item>, local: map<string, Item>, remote: map<string, Item>,
                         preferRemote: bool)
  {
    function Resolved(name: string): (Option<Item>, bool) {
      Resolve(Lookup(base, name), Lookup(local, name), Lookup(remote, name), preferRemote)
    }

    ghost predicate Named() {
      && (forall n :: n in local ==> local[n].name == n)
      && (forall n :: n in remote ==> remote[n].name == n)
    }
  }

  function SidesOf(base: seq<Item>, local: seq<Item>, remote: seq<Item>, preferRemote: bool): Sides {
    Sides(Index(base), Index(local), Index(remote), preferRemote)
  }

  function Append(items: seq<Item>, it: Option<Item>): seq<Item> {
    if it.Some? then items + [it.value] else items
  }

  function Taken(s: Sides, items: seq<Item>): seq<Item> {
    if items == [] then []
    else
      var init, it := Taken(s, items[..|items| - 1]), s.Resolved(items[|items| - 1].name).0;
      Append(init, it)
  }

  function Clashes(s: Sides, items: seq<Item>): seq<string> {
    if items == [] then []
    else
      var init, name := Clashes(s, items[..|items| - 1]), items[|items| - 1].name;
      if s.Resolved(name).1 then init + [name] else init
  }

  // The items of remote whose names the other side does not have.
  function Additions(remote: seq<Item>, local: map<string, Item>): seq<Item> {
    if remote == [] then []
    else
      var init, last := Additions(remote[..|remote| - 1], local), remote[|remote| - 1];
      if last.name in local then init else init + [last]
  }

  function Merged(base: seq<Item>, local: seq<Item>, remote: seq<Item>, preferRemote: bool): seq<Item> {
    var s := SidesOf(base, local, remote, preferRemote);
    Taken(s, local) + Taken(s, Additions(remote, s.local))
  }

  function Conflicts(base: seq<Item>, local: seq<Item>, remote: seq<Item>, preferRemote: bool): seq<string> {
    var s := SidesOf(base, local, remote, preferRemote);
    Clashes(s, local) + Clashes(s, Additions(remote, s.local))
  }

  lemma TakenSnoc(s: Sides, items: seq<Item>, i: nat)
    requires i < |items|
    ensures Taken(s, items[..i + 1])
            == Append(Taken(s, items[..i]), s.Resolved(items[i].name).0)
    ensures Clashes(s, items[..i + 1])
            == if s.Resolved(items[i].name).1 then Clashes(s, items[..i]) + [items[i].name] else Clashes(s, items[..i])
  {
    assert items[..i + 1][..i] == items[..i];
  }

  lemma AdditionsSnoc(s: Sides, remote: seq<Item>, i: nat)
    requires i < |remote|
    ensures var before, after := Additions(remote[..i], s.local), Additions(remote[..i + 1], s.local);
            && (remote[i].name in s.local ==> after == before)
            && (remote[i].name !in s.local ==>
                && Taken(s, after) == Append(Taken(s, before), s.Resolved(remote[i].name).0)
                && Clashes(s, after)
                   == if s.Resolved(remote[i].name).1 then Clashes(s, before) + [remote[i].name]
                      else Clashes(s, before))
  {
    assert remote[..i + 1][..i] == remote[..i];
    var before := Additions(remote[..i], s.local);
    if remote[i].name !in s.local {
      var after := before + [remote[i]];
      assert after[..|before|] == before && after[..|before| + 1] == after;
      TakenSnoc(s, after, |before|);
    }
  }

  lemma NothingTaken(s: Sides)
    ensures Taken(s, []) == [] && Clashes(s, []) == [] && Additions([], s.local) == []
  {
  }

  method Merge3(base: seq<Item>, local: seq<Item>, remote: seq<Item>, preferRemote: bool)
    returns (merged: seq<Item>, conflicts: seq<string>)
    ensures merged == Merged(base, local, remote, preferRemote)
    ensures conflicts == Conflicts(base, local, remote, preferRemote)
  {
    hide Index, Taken, Clashes, Additions, Resolve;
    var b := BuildIndex(base);
    var l := BuildIndex(local);
    var r := BuildIndex(remote);
    ghost var s := SidesOf(base, local, remote, preferRemote);
    merged, conflicts := [], [];
    NothingTaken(s);
    for i := 0 to |local|
      invariant merged == Taken(s, local[..i]) && conflicts == Clashes(s, local[..i])
    {
      TakenSnoc(s, local, i);
      var name := local[i].name;
      var outcome := Resolve(Lookup(b, name), Lookup(l, name), Lookup(r, name), preferRemote);
      assert outcome == s.Resolved(name);
      if outcome.1 { conflicts := conflicts + [name]; }
      merged := Append(merged, outcome.0);
    }
    assert local[..|local|] == local;
    for i := 0 to |remote|
      invariant merged == Taken(s, local) + Taken(s, Additions(remote[..i], l))
      invariant conflicts == Clashes(s, local) + Clashes(s, Additions(remote[..i], l))
    {
      AdditionsSnoc(s, remote, i);
      var name := remote[i].name;
      if name !in l {
        var outcome := Resolve(Lookup(b, name), Lookup(l, name), Lookup(r, name), preferRemote);
        assert outcome == s.Resolved(name);
        if outcome.1 { conflicts := conflicts + [name]; }
        merged := Append(merged, outcome.0);
      }
    }
    assert remote[..|remote|] == remote;
  }

  // ---------------------------------------------------------------- indexes

  lemma HasSnoc(items: seq<Item>, name: string)
    requires items != []
    ensures Has(items, name) <==> Has(items[..|items| - 1], name) || items[|items| - 1].name == name
  {
    var k := |items| - 1;
    if Has(items[..k], name) {
      var i :| 0 <= i < k && items[..k][i].name == name;
      assert items[i].name == name;
    }
    if Has(items, name) {
      var i :| 0 <= i < |items| && items[i].name == name;
      assert i < k ==> items[..k][i].name == name;
    }
  }

  lemma {:induction false} IndexHas(items: seq<Item>, name: string)
    ensures name in Index(items) <==> Has(items, name)
    ensures name in Index(items) ==> Index(items)[name].name == name && Index(items)[name] in items
  {
    if items != [] {
      var k := |items| - 1;
      IndexHas(items[..k], name);
      HasSnoc(items, name);
    }
  }

  // With distinct names the index finds exactly the item at each position.
  lemma {:induction false} IndexAt(items: seq<Item>, i: nat)
    requires Distinct(items) && i < |items|
    ensures items[i].name in Index(items) && Index(items)[items[i].name] == items[i]
  {
    var k := |items| - 1;
    if i < k { IndexAt(items[..k], i); }
  }

  // Of items with the same name the last one counts.
  lemma {:induction false} LastCounts(items: seq<Item>, i: nat)
    requires i < |items| && forall j :: i < j < |items| ==> items[j].name != items[i].name
    ensures ValueOf(items, items[i].name) == Some(items[i].value)
    ensures Lookup(Index(items), items[i].name) == Some(items[i])
  {
    var k := |items| - 1;
    if i < k { LastCounts(items[..k], i); }
  }

  lemma IndexSnoc(a: seq<Item>, it: Item)
    ensures Index(a + [it]) == Index(a)[it.name := it]
  {
    assert (a + [it])[..|a|] == a;
  }

  lemma {:induction false} IndexConcat(a: seq<Item>, b: seq<Item>)
    ensures Index(a + b) == Index(a) + Index(b)
  {
    if b == [] {
      assert a + b == a;
    } else {
      IndexConcat(a, b[..|b| - 1]);
      assert (a + b)[..|a + b| - 1] == a + b[..|b| - 1];
    }
  }

  lemma {:induction false} AdditionsAre(remote: seq<Item>, local: map<string, Item>)
    ensures forall it :: it in Additions(remote, local) <==> it in remote && it.name !in local
    ensures Distinct(remote) ==> Distinct(Additions(remote, local))
  {
    if remote != [] {
      var k := |remote| - 1;
      AdditionsAre(remote[..k], local);
      assert remote == remote[..k] + [remote[k]];
      var init := Additions(remote[..k], local);
      if Distinct(remote) {
        forall i | 0 <= i < |init| ensures init[i].name != remote[k].name {
          assert init[i] in remote[..k];
        }
      }
    }
  }

  // ------------------------------------------------- what a merge says

  lemma TakenLast(s: Sides, items: seq<Item>, name: string)
    requires s.Named() && items != []
    ensures var k := |items| - 1;
            var r := s.Resolved(items[k].name).0;
            Lookup(Index(Taken(s, items)), name)
            == if items[k].name == name && r.Some? then r else Lookup(Index(Taken(s, items[..k])), name)
  {
    var k := |items| - 1;
    var init, it := Taken(s, items[..k]), s.Resolved(items[k].name).0;
    if it.Some? {
      IndexSnoc(init, it.value);
      assert it.value.name == items[k].name;
    }
  }

  // The list taken from distinct items says, for their names, what was
  // resolved, and nothing about other names.
  lemma {:induction false} TakenSays(s: Sides, items: seq<Item>, name: string)
    requires s.Named() && Distinct(items)
    ensures Lookup(Index(Taken(s, items)), name) == if Has(items, name) then s.Resolved(name).0 else None
  {
    if items != [] {
      var k := |items| - 1;
      TakenSays(s, items[..k], name);
      TakenLast(s, items, name);
      HasSnoc(items, name);
      if items[k].name == name {
        assert forall i :: 0 <= i < k ==> items[..k][i] == items[i];
        assert !Has(items[..k], name);
      }
    }
  }

  lemma {:induction false} TakenDistinct(s: Sides, items: seq<Item>)
    requires Distinct(items)
    requires s.Named()
    ensures Distinct(Taken(s, items))
    ensures forall it :: it in Taken(s, items) ==> Has(items, it.name)
  {
    if items != [] {
      var k := |items| - 1;
      TakenDistinct(s, items[..k]);
      var init := Taken(s, items[..k]);
      forall it | it in init ensures Has(items, it.name) && it.name != items[k].name {
        var i :| 0 <= i < k && items[..k][i].name == it.name;
        assert items[i].name == it.name;
      }
      forall i | 0 <= i < |init| ensures init[i].name != items[k].name { assert init[i] in init; }
    }
  }

  lemma SidesNamed(base: seq<Item>, local: seq<Item>, remote: seq<Item>, p: bool)
    ensures SidesOf(base, local, remote, p).Named()
  {
    forall n | n in Index(local) { IndexHas(local, n); }
    forall n | n in Index(remote) { IndexHas(remote, n); }
  }

  // The value a three-way merge owes to one name.
  function Pick(b: Option<string>, l: Option<string>, r: Option<string>, preferRemote: bool): Option<string> {
    if l == r || r == b then l else if l == b || preferRemote then r else l
  }

  ghost predicate PairwiseDifferent(b: Option<string>, l: Option<string>, r: Option<string>) {
    l != r && l != b && r != b
  }

  // Every name, on whatever side, ends with the value of the one side that
  // changed it; the result names nothing twice.
  lemma MergeIsThreeWay(base: seq<Item>, local: seq<Item>, remote: seq<Item>, p: bool)
    requires Distinct(local) && Distinct(remote)
    ensures Distinct(Merged(base, local, remote, p))
    ensures forall n :: ValueOf(Merged(base, local, remote, p), n)
                        == Pick(ValueOf(base, n), ValueOf(local, n), ValueOf(remote, n), p)
  {
    var s := SidesOf(base, local, remote, p);
    SidesNamed(base, local, remote, p);
    var adds := Additions(remote, s.local);
    AdditionsAre(remote, s.local);
    TakenDistinct(s, local);
    TakenDistinct(s, adds);
    var t0, t1 := Taken(s, local), Taken(s, adds);
    forall i, j | 0 <= i < |t0| && 0 <= j < |t1| ensures t0[i].name != t1[j].name {
      assert t0[i] in t0 && t1[j] in t1;
      var x :| 0 <= x < |adds| && adds[x].name == t1[j].name;
      assert adds[x] in adds;
      IndexHas(local, t0[i].name);
    }
    forall n { MergedSays(base, local, remote, p, n); }
  }

  lemma MergedItem(base: seq<Item>, local: seq<Item>, remote: seq<Item>, p: bool, n: string)
    requires Distinct(local) && Distinct(remote)
    ensures Lookup(Index(Merged(base, local, remote, p)), n) == SidesOf(base, local, remote, p).Resolved(n).0
  {
    var s := SidesOf(base, local, remote, p);
    SidesNamed(base, local, remote, p);
    var adds := Additions(remote, s.local);
    AdditionsAre(remote, s.local);
    var t0, t1 := Taken(s, local), Taken(s, adds);
    LookupConcat(t0, t1, n);
    assert Lookup(Index(t0), n) == if Has(local, n) then s.Resolved(n).0 else None by { TakenSays(s, local, n); }
    assert Lookup(Index(t1), n) == if Has(adds, n) then s.Resolved(n).0 else None by { TakenSays(s, adds, n); }
    AdditionsHave(remote, s.local, n);
    IndexHas(local, n);
    IndexHas(remote, n);
  }

  lemma MergedSays(base: seq<Item>, local: seq<Item>, remote: seq<Item>, p: bool, n: string)
    requires Distinct(local) && Distinct(remote)
    ensures ValueOf(Merged(base, local, remote, p), n)
            == Pick(ValueOf(base, n), ValueOf(local, n), ValueOf(remote, n), p)
  {
    MergedItem(base, local, remote, p, n);
  }

  // Every item of a merge is one side's item as written: this machine's
  // wherever it says the same.
  lemma MergedAsWritten(base: seq<Item>, local: seq<Item>, remote: seq<Item>, p: bool, it: Item)
    requires Distinct(local) && Distinct(remote)
    ensures it in Merged(base, local, remote, p)
            ==> it in local || (it in remote && forall mine :: mine in local && mine.name == it.name ==>
                                                                 mine.value != it.value)
  {
    var m := Merged(base, local, remote, p);
    if it in m {
      MergeIsThreeWay(base, local, remote, p);
      MergedItem(base, local, remote, p, it.name);
      var i :| 0 <= i < |m| && m[i] == it;
      IndexAt(m, i);
      IndexHas(local, it.name);
      IndexHas(remote, it.name);
      forall mine | mine in local && mine.name == it.name ensures Index(local)[it.name] == mine {
        var j :| 0 <= j < |local| && local[j] == mine;
        IndexAt(local, j);
      }
    }
  }

  lemma LookupConcat(a: seq<Item>, b: seq<Item>, n: string)
    ensures Lookup(Index(a + b), n)
            == if Lookup(Index(b), n).Some? then Lookup(Index(b), n) else Lookup(Index(a), n)
  {
    IndexConcat(a, b);
  }

  lemma AdditionsHave(remote: seq<Item>, local: map<string, Item>, n: string)
    ensures Has(Additions(remote, local), n) <==> Has(remote, n) && n !in local
  {
    AdditionsAre(remote, local);
    var adds := Additions(remote, local);
    if Has(adds, n) {
      var i :| 0 <= i < |adds| && adds[i].name == n;
      assert adds[i] in adds;
      var j :| 0 <= j < |remote| && remote[j] == adds[i];
    }
    if Has(remote, n) && n !in local {
      var i :| 0 <= i < |remote| && remote[i].name == n;
      assert remote[i] in adds;
      var j :| 0 <= j < |adds| && adds[j] == remote[i];
    }
  }

  lemma {:induction false} ClashesAre(s: Sides, items: seq<Item>, n: string)
    ensures n in Clashes(s, items) <==> Has(items, n) && s.Resolved(n).1
  {
    if items != [] {
      var k := |items| - 1;
      ClashesAre(s, items[..k], n);
      HasSnoc(items, n);
    }
  }

  // A conflict is reported exactly for the names on which base, this machine
  // and the remote differ pairwise, unless the remote is preferred.
  lemma ConflictsExactly(base: seq<Item>, local: seq<Item>, remote: seq<Item>, p: bool, n: string)
    ensures n in Conflicts(base, local, remote, p)
            <==> !p && PairwiseDifferent(ValueOf(base, n), ValueOf(local, n), ValueOf(remote, n))
  {
    hide Index, Clashes, Additions, Has, Resolve;
    var s := SidesOf(base, local, remote, p);
    ClashesAre(s, local, n);
    ClashesAre(s, Additions(remote, s.local), n);
    AdditionsHave(remote, s.local, n);
    IndexHas(local, n);
    IndexHas(remote, n);
    ResolveSays(Lookup(s.base, n), Lookup(s.local, n), Lookup(s.remote, n), p);
  }

  lemma ResolveSays(b: Option<Item>, l: Option<Item>, r: Option<Item>, p: bool)
    ensures Resolve(b, l, r, p).1 <==> !p && PairwiseDifferent(Value(b), Value(l), Value(r))
    ensures Resolve(b, l, r, p).1 ==> l.Some? || r.Some?
  {
  }

  lemma NoConflictsMeans(base: seq<Item>, local: seq<Item>, remote: seq<Item>, p: bool)
    ensures Conflicts(base, local, remote, p) == []
            <==> forall n :: p || !PairwiseDifferent(ValueOf(base, n), ValueOf(local, n), ValueOf(remote, n))
  {
    var cs := Conflicts(base, local, remote, p);
    forall n { ConflictsExactly(base, local, remote, p, n); }
    if cs != [] { assert cs[0] in cs; }
  }

  // No name is reported twice.
  lemma ConflictsOnce(base: seq<Item>, local: seq<Item>, remote: seq<Item>, p: bool)
    requires Distinct(local) && Distinct(remote)
    ensures var cs := Conflicts(base, local, remote, p); forall i, j :: 0 <= i < j < |cs| ==> cs[i] != cs[j]
  {
    hide Index, Additions, Clashes, Has;
    var s := SidesOf(base, local, remote, p);
    var adds := Additions(remote, s.local);
    AdditionsAre(remote, s.local);
    ClashesOnce(s, local);
    ClashesOnce(s, adds);
    forall n | n in Clashes(s, local) ensures n !in Clashes(s, adds) {
      ClashesAre(s, local, n);
      ClashesAre(s, adds, n);
      AdditionsHave(remote, s.local, n);
      IndexHas(local, n);
    }
    NoneTwice(Clashes(s, local), Clashes(s, adds));
  }

  lemma NoneTwice(a: seq<string>, b: seq<string>)
    requires forall i, j :: 0 <= i < j < |a| ==> a[i] != a[j]
    requires forall i, j :: 0 <= i < j < |b| ==> b[i] != b[j]
    requires forall n :: n in a ==> n !in b
    ensures forall i, j :: 0 <= i < j < |a + b| ==> (a + b)[i] != (a + b)[j]
  {
    forall i, j | 0 <= i < j < |a + b| ensures (a + b)[i] != (a + b)[j] {
      if i < |a| <= j { assert a[i] in a && b[j - |a|] in b; }
    }
  }

  lemma {:induction false} ClashesOnce(s: Sides, items: seq<Item>)
    requires Distinct(items)
    ensures forall i, j :: 0 <= i < j < |Clashes(s, items)| ==> Clashes(s, items)[i] != Clashes(s, items)[j]
  {
    if items != [] {
      var k := |items| - 1;
      ClashesOnce(s, items[..k]);
      ClashesAre(s, items[..k], items[k].name);
      hide Sides.Resolved;
    }
  }

  // Which machine runs the merge does not matter.
  lemma MergeIsSymmetric(base: seq<Item>, local: seq<Item>, remote: seq<Item>)
    requires Distinct(local) && Distinct(remote)
    ensures Conflicts(base, local, remote, false) == [] <==> Conflicts(base, remote, local, false) == []
    ensures Conflicts(base, local, remote, false) == []
            ==> SameValues(Merged(base, local, remote, false), Merged(base, remote, local, false))
  {
    NoConflictsMeans(base, local, remote, false);
    NoConflictsMeans(base, remote, local, false);
    MergeIsThreeWay(base, local, remote, false);
    MergeIsThreeWay(base, remote, local, false);
  }

  // Merging the result again, with either side or as either side, changes
  // nothing and reports nothing.
  lemma MergeIsAFixedPoint(base: seq<Item>, local: seq<Item>, remote: seq<Item>)
    requires Distinct(local) && Distinct(remote)
    requires Conflicts(base, local, remote, false) == []
    ensures var m := Merged(base, local, remote, false);
            && Conflicts(base, m, remote, false) == [] && SameValues(Merged(base, m, remote, false), m)
            && Conflicts(base, local, m, false) == [] && SameValues(Merged(base, local, m, false), m)
            && Conflicts(remote, m, remote, false) == [] && SameValues(Merged(remote, m, remote, false), m)
  {
    var m := Merged(base, local, remote, false);
    MergeIsThreeWay(base, local, remote, false);
    NoConflictsMeans(base, local, remote, false);
    NoConflictsMeans(base, m, remote, false);
    NoConflictsMeans(base, local, m, false);
    NoConflictsMeans(remote, m, remote, false);
    MergeIsThreeWay(base, m, remote, false);
    MergeIsThreeWay(base, local, m, false);
    MergeIsThreeWay(remote, m, remote, false);
  }

  // ------------------------------------------------------------ item order

  function Surviving(names: seq<string>, kept: map<string, Item>): seq<string> {
    if names == [] then []
    else
      var init, last := Surviving(names[..|names| - 1], kept), names[|names| - 1];
      if last in kept then init + [last] else init
  }

  function Foreign(names: seq<string>, local: map<string, Item>): seq<string> {
    if names == [] then []
    else
      var init, last := Foreign(names[..|names| - 1], local), names[|names| - 1];
      if last in local then init else init + [last]
  }

  lemma NamesSnoc(a: seq<Item>, it: Item)
    ensures Names(a + [it]) == Names(a) + [it.name]
  {
    assert (a + [it])[..|a|] == a;
  }

  lemma {:induction false} NamesConcat(a: seq<Item>, b: seq<Item>)
    ensures Names(a + b) == Names(a) + Names(b)
  {
    if b == [] {
      assert a + b == a;
    } else {
      NamesConcat(a, b[..|b| - 1]);
      assert (a + b)[..|a + b| - 1] == a + b[..|b| - 1];
    }
  }

  lemma {:induction false} TakenOrder(s: Sides, items: seq<Item>, merged: map<string, Item>)
    requires s.Named()
    requires forall n :: Has(items, n) ==> (n in merged <==> s.Resolved(n).0.Some?)
    ensures Names(Taken(s, items)) == Surviving(Names(items), merged)
  {
    if items != [] {
      var k := |items| - 1;
      forall n | Has(items[..k], n) ensures Has(items, n) { HasSnoc(items, n); }
      TakenOrder(s, items[..k], merged);
      HasSnoc(items, items[k].name);
      var init, it, ns := Taken(s, items[..k]), s.Resolved(items[k].name).0, Names(items[..k]);
      assert Names(items) == ns + [items[k].name];
      assert Names(items)[..|ns|] == ns;
      if it.Some? {
        assert it.value.name == items[k].name;
        NamesSnoc(init, it.value);
      }
    }
  }

  lemma {:induction false} AdditionsOrder(remote: seq<Item>, local: map<string, Item>)
    ensures Names(Additions(remote, local)) == Foreign(Names(remote), local)
  {
    if remote != [] {
      var k := |remote| - 1;
      AdditionsOrder(remote[..k], local);
      var ns := Names(remote[..k]);
      assert Names(remote) == ns + [remote[k].name];
      assert Names(remote)[..|ns|] == ns;
      NamesSnoc(Additions(remote[..k], local), remote[k]);
    }
  }

  // This machine's order first, what only the remote has after it, each in
  // the order of its own side; only dropped names are missing.
  lemma MergeKeepsOrder(base: seq<Item>, local: seq<Item>, remote: seq<Item>, p: bool)
    requires Distinct(local) && Distinct(remote)
    ensures var kept := Index(Merged(base, local, remote, p));
            Names(Merged(base, local, remote, p))
            == Surviving(Names(local), kept) + Surviving(Foreign(Names(remote), Index(local)), kept)
  {
    var s := SidesOf(base, local, remote, p);
    SidesNamed(base, local, remote, p);
    var adds := Additions(remote, s.local);
    AdditionsAre(remote, s.local);
    AdditionsOrder(remote, s.local);
    var m := Merged(base, local, remote, p);
    var kept := Index(m);
    NamesConcat(Taken(s, local), Taken(s, adds));
    IndexConcat(Taken(s, local), Taken(s, adds));
    forall n ensures Has(local, n) ==> (n in kept <==> s.Resolved(n).0.Some?)
             ensures Has(adds, n) ==> (n in kept <==> s.Resolved(n).0.Some?)
    {
      TakenSays(s, local, n);
      TakenSays(s, adds, n);
      AdditionsHave(remote, s.local, n);
      IndexHas(local, n);
    }
    TakenOrder(s, local, kept);
    TakenOrder(s, adds, kept);
  }

  // ------------------------------------------------- a retried merge

  // r2 still holds what the first merge had taken over from r1.
  ghost predicate KeepsWhatWasTaken(base: seq<Item>, local: seq<Item>, r1: seq<Item>, r2: seq<Item>) {
    forall n :: ValueOf(local, n) == ValueOf(base, n) && ValueOf(r1, n) != ValueOf(base, n)
                ==> ValueOf(r2, n) == ValueOf(r1, n)
  }

  // A merge is written to disk before it is uploaded. If the upload loses a
  // race against r2, the next round merges the merge. That is the merge of
  // the original file with r2 (same values, same conflicts) exactly when r2
  // kept what the first merge had taken from r1.
  lemma RetriedMergeIsDirect(base: seq<Item>, local: seq<Item>, r1: seq<Item>, r2: seq<Item>)
    requires Distinct(local) && Distinct(r1) && Distinct(r2)
    requires Conflicts(base, local, r1, false) == []
    ensures var m1 := Merged(base, local, r1, false);
            KeepsWhatWasTaken(base, local, r1, r2)
            <==>
            (SameValues(Merged(base, m1, r2, false), Merged(base, local, r2, false))
             && forall n :: n in Conflicts(base, m1, r2, false) <==> n in Conflicts(base, local, r2, false))
  {
    var m1 := Merged(base, local, r1, false);
    NoConflictsMeans(base, local, r1, false);
    MergeIsThreeWay(base, local, r1, false);
    MergeIsThreeWay(base, m1, r2, false);
    MergeIsThreeWay(base, local, r2, false);
    forall n
      ensures n in Conflicts(base, m1, r2, false)
              <==> PairwiseDifferent(ValueOf(base, n), ValueOf(m1, n), ValueOf(r2, n))
      ensures n in Conflicts(base, local, r2, false)
              <==> PairwiseDifferent(ValueOf(base, n), ValueOf(local, n), ValueOf(r2, n))
    {
      ConflictsExactly(base, m1, r2, false, n);
      ConflictsExactly(base, local, r2, false, n);
    }
    if !KeepsWhatWasTaken(base, local, r1, r2) {
      var n :| ValueOf(local, n) == ValueOf(base, n) && ValueOf(r1, n) != ValueOf(base, n)
               && ValueOf(r2, n) != ValueOf(r1, n);
      assert ValueOf(Merged(base, m1, r2, false), n) == ValueOf(r1, n);
      assert ValueOf(Merged(base, local, r2, false), n) == ValueOf(r2, n);
    }
  }

  // --------------------------------------------------------- fingerprints

  lemma {:induction false} FingerprintCounts(items: seq<Item>, name: string, value: string)
    requires Distinct(items)
    ensures Fingerprint(items)[(name, value)] == if ValueOf(items, name) == Some(value) then 1 else 0
  {
    if items != [] {
      var k := |items| - 1;
      FingerprintCounts(items[..k], name, value);
      IndexHas(items[..k], name);
      assert Has(items[..k], name) ==> items[k].name != name;
    }
  }

  // Equal fingerprints mean the same value for every name, and conversely.
  lemma FingerprintIdentifies(a: seq<Item>, b: seq<Item>)
    requires Distinct(a) && Distinct(b)
    ensures Fingerprint(a) == Fingerprint(b) <==> SameValues(a, b)
  {
    forall n, v: string
      ensures Fingerprint(a)[(n, v)] == if ValueOf(a, n) == Some(v) then 1 else 0
      ensures Fingerprint(b)[(n, v)] == if ValueOf(b, n) == Some(v) then 1 else 0
    {
      FingerprintCounts(a, n, v);
      FingerprintCounts(b, n, v);
    }
    if Fingerprint(a) == Fingerprint(b) {
      forall n, v: string ensures ValueOf(a, n) == Some(v) <==> ValueOf(b, n) == Some(v) {
        assert Fingerprint(a)[(n, v)] == Fingerprint(b)[(n, v)];
      }
      forall n ensures ValueOf(a, n) == ValueOf(b, n) {
        var va, vb := ValueOf(a, n), ValueOf(b, n);
        assert va.Some? ==> vb == Some(va.value);
        assert vb.Some? ==> va == Some(vb.value);
      }
    }
    if SameValues(a, b) {
      forall p: (string, string) ensures Fingerprint(a)[p] == Fingerprint(b)[p] {
        assert p == (p.0, p.1);
      }
    }
  }
}
