// internal/structured/json.go: writing synced items into settings.json and
// .claude.json, member by member. A member is an item: its key, its canonical
// value and its text as written.
module Json {
  import opened Options
  import opened Structured

  function NamesOf(items: seq<Item>): set<string> {
    set i | 0 <= i < |items| :: items[i].name
  }

  // One member of the file: kept for this machine, gone, unchanged, or new.
  function MemberAfter(m: Item, synced: Option<Item>, kept: bool, indent: string -> string): Option<Item> {
    if kept then Some(m)
    else if synced.None? then None
    else if m.value == synced.value.value then Some(m)
    else Some(Item(m.name, synced.value.value, indent(synced.value.value)))
  }

  function KeptMembers(local: seq<Item>, synced: map<string, Item>, keep: set<string>,
                       indent: string -> string): seq<Item> {
    if local == [] then []
    else
      var m := local[|local| - 1];
      var init := KeptMembers(local[..|local| - 1], synced, keep, indent);
      Append(init, MemberAfter(m, Lookup(synced, m.name), m.name in keep, indent))
  }

  function NewMembers(synced: seq<Item>, seen: set<string>, keep: set<string>, indent: string -> string): seq<Item> {
    if synced == [] then []
    else
      var it := synced[|synced| - 1];
      var init := NewMembers(synced[..|synced| - 1], seen, keep, indent);
      if it.name !in seen && it.name !in keep then init + [Item(it.name, it.value, indent(it.value))] else init
  }

  function MergedMembers(local: seq<Item>, synced: seq<Item>, keep: set<string>, indent: string -> string): seq<Item> {
    KeptMembers(local, Index(synced), keep, indent) + NewMembers(synced, NamesOf(local), keep, indent)
  }

  lemma NamesOfSnoc(items: seq<Item>, it: Item)
    ensures NamesOf(items + [it]) == NamesOf(items) + {it.name}
  {
    var all := items + [it];
    forall n ensures n in NamesOf(all) <==> n in NamesOf(items) + {it.name} {
      if n in NamesOf(items) {
        var i :| 0 <= i < |items| && items[i].name == n;
        assert all[i].name == n;
      }
      assert all[|items|].name == it.name;
    }
  }

  method MergeMembers(local: seq<Item>, synced: seq<Item>, keep: set<string>, indent: string -> string)
    returns (out: seq<Item>)
    ensures out == MergedMembers(local, synced, keep, indent)
  {
    hide Index, NamesOf;
    var byName := BuildIndex(synced);
    var seen: set<string> := {};
    out := [];
    assert NamesOf([]) == {} by { NoNames(); }
    for i := 0 to |local|
      invariant out == KeptMembers(local[..i], Index(synced), keep, indent) && seen == NamesOf(local[..i])
    {
      assert local[..i + 1][..i] == local[..i];
      NamesOfSnoc(local[..i], local[i]);
      assert local[..i] + [local[i]] == local[..i + 1];
      var m := local[i];
      seen := seen + {m.name};
      if m.name in keep {
        out := out + [m];
      } else if m.name !in byName {
        // deleted on another machine
      } else if m.value == byName[m.name].value {
        out := out + [m];
      } else {
        out := out + [Item(m.name, byName[m.name].value, indent(byName[m.name].value))];
      }
    }
    assert local[..|local|] == local;
    ghost var kept := out;
    for i := 0 to |synced|
      invariant out == kept + NewMembers(synced[..i], NamesOf(local), keep, indent)
    {
      assert synced[..i + 1][..i] == synced[..i];
      var it := synced[i];
      if it.name !in seen && it.name !in keep {
        out := out + [Item(it.name, it.value, indent(it.value))];
      }
    }
    assert synced[..|synced|] == synced;
  }

  lemma NoNames()
    ensures NamesOf([]) == {}
  {
  }

  // -------------------------------------------------------------- the lens

  lemma InNames(items: seq<Item>, n: string)
    ensures n in NamesOf(items) <==> Has(items, n)
  {
  }

  lemma AppendSays(items: seq<Item>, it: Option<Item>, n: string)
    ensures ValueOf(Append(items, it), n)
            == if it.Some? && it.value.name == n then Some(it.value.value) else ValueOf(items, n)
  {
    if it.Some? { IndexSnoc(items, it.value); }
  }

  lemma {:induction false} KeptSays(local: seq<Item>, synced: seq<Item>, keep: set<string>, indent: string -> string,
                                    n: string)
    requires Distinct(local)
    ensures ValueOf(KeptMembers(local, Index(synced), keep, indent), n)
            == if !Has(local, n) then None else if n in keep then ValueOf(local, n) else ValueOf(synced, n)
  {
    hide Index, Append;
    if local == [] {
      NothingSaid(n);
    } else {
      var k := |local| - 1;
      var init, m := local[..k], local[k];
      assert local == init + [m];
      KeptSays(init, synced, keep, indent, n);
      HasSnoc(local, n);
      IndexHas(synced, n);
      IndexSnoc(init, m);
      LookupSnoc(init, m, n);
      var it := MemberAfter(m, Lookup(Index(synced), m.name), m.name in keep, indent);
      AppendSays(KeptMembers(init, Index(synced), keep, indent), it, n);
      assert m.name == n ==> !Has(init, n);
    }
  }

  lemma LookupSnoc(items: seq<Item>, it: Item, n: string)
    ensures Lookup(Index(items + [it]), n) == if it.name == n then Some(it) else Lookup(Index(items), n)
  {
    IndexSnoc(items, it);
  }

  lemma NothingSaid(n: string)
    ensures ValueOf([], n) == None
  {
  }

  lemma {:induction false} NewSays(synced: seq<Item>, seen: set<string>, keep: set<string>, indent: string -> string,
                                   n: string)
    ensures ValueOf(NewMembers(synced, seen, keep, indent), n)
            == if n in seen || n in keep then None else ValueOf(synced, n)
  {
    hide Index;
    if synced == [] {
      NothingSaid(n);
    } else {
      var k := |synced| - 1;
      var it := synced[k];
      var init := NewMembers(synced[..k], seen, keep, indent);
      NewSays(synced[..k], seen, keep, indent, n);
      assert synced == synced[..k] + [it];
      LookupSnoc(synced[..k], it, n);
      LookupSnoc(init, Item(it.name, it.value, indent(it.value)), n);
    }
  }

  // Reading back what was written: the file's own value for every name kept,
  // the synced one for every other.
  lemma PutGet(local: seq<Item>, synced: seq<Item>, keep: set<string>, indent: string -> string, n: string)
    requires Distinct(local)
    ensures ValueOf(MergedMembers(local, synced, keep, indent), n)
            == if n in keep then ValueOf(local, n) else ValueOf(synced, n)
  {
    hide Index, Distinct, NamesOf;
    var kept := KeptMembers(local, Index(synced), keep, indent);
    var fresh_ := NewMembers(synced, NamesOf(local), keep, indent);
    KeptSays(local, synced, keep, indent, n);
    NewSays(synced, NamesOf(local), keep, indent, n);
    InNames(local, n);
    IndexHas(local, n);
    LookupConcat(kept, fresh_, n);
  }

  // Writing what was read changes nothing, not even the formatting.
  lemma GetPut(local: seq<Item>, keep: set<string>, indent: string -> string)
    requires Distinct(local)
    ensures MergedMembers(local, local, keep, indent) == local
  {
    OwnStay(local, local, keep, indent);
    NothingNew(local, local, keep, indent);
  }

  lemma {:induction false} OwnStay(items: seq<Item>, synced: seq<Item>, keep: set<string>, indent: string -> string)
    requires Distinct(synced) && items <= synced
    ensures KeptMembers(items, Index(synced), keep, indent) == items
  {
    hide Index;
    if items != [] {
      var k := |items| - 1;
      OwnStay(items[..k], synced, keep, indent);
      IndexAt(synced, k);
      assert items == items[..k] + [items[k]];
    }
  }

  lemma {:induction false} NothingNew(items: seq<Item>, local: seq<Item>, keep: set<string>, indent: string -> string)
    requires items <= local
    ensures NewMembers(items, NamesOf(local), keep, indent) == []
  {
    if items != [] {
      NothingNew(items[..|items| - 1], local, keep, indent);
      assert items[|items| - 1] == local[|items| - 1];
    }
  }

  // A member stays as written where this machine keeps its own or the synced
  // value is the same.
  lemma {:induction false} UnchangedStay(local: seq<Item>, synced: seq<Item>, keep: set<string>,
                                         indent: string -> string,
                                         i: nat)
    requires i < |local| && (local[i].name in keep || ValueOf(synced, local[i].name) == Some(local[i].value))
    ensures local[i] in KeptMembers(local, Index(synced), keep, indent)
  {
    hide Index;
    var k := |local| - 1;
    if i < k { UnchangedStay(local[..k], synced, keep, indent, i); }
  }

  // A member as it stands in the file, for one the machine keeps or whose
  // value is the synced one ...
  ghost predicate AsItWas(it: Item, local: seq<Item>, synced: seq<Item>, keep: set<string>) {
    && it in local
    && (it.name in keep || exists s :: s in synced && s.name == it.name && s.value == it.value)
  }

  // ... or written anew, with the synced value and its text.
  ghost predicate WrittenAnew(it: Item, synced: seq<Item>, keep: set<string>, indent: string -> string) {
    && it.name !in keep && it.text == indent(it.value)
    && exists s :: s in synced && s.name == it.name && s.value == it.value
  }

  lemma MemberTexts(m: Item, local: seq<Item>, synced: seq<Item>, keep: set<string>, indent: string -> string)
    requires m in local
    ensures var it := MemberAfter(m, Lookup(Index(synced), m.name), m.name in keep, indent);
            it.Some? ==>
              it.value.name == m.name
              && (AsItWas(it.value, local, synced, keep)
                  || (WrittenAnew(it.value, synced, keep, indent) && it.value.value != m.value))
  {
    hide Index;
    IndexHas(synced, m.name);
  }

  // Every member written is one or the other.
  lemma {:induction false} TextsFollowValues(local: seq<Item>, synced: seq<Item>, keep: set<string>,
                                             indent: string -> string)
    ensures forall it :: it in MergedMembers(local, synced, keep, indent) ==>
              AsItWas(it, local, synced, keep) || WrittenAnew(it, synced, keep, indent)
  {
    KeptTexts(local, |local|, synced, keep, indent);
    NewTexts(synced, |synced|, NamesOf(local), keep, indent);
    assert local[..|local|] == local && synced[..|synced|] == synced;
    hide AsItWas, WrittenAnew, KeptMembers, NewMembers, NamesOf;
  }

  lemma {:induction false} KeptTexts(local: seq<Item>, n: nat, synced: seq<Item>, keep: set<string>,
                                     indent: string -> string)
    requires n <= |local|
    ensures forall it :: it in KeptMembers(local[..n], Index(synced), keep, indent) ==>
              AsItWas(it, local, synced, keep) || WrittenAnew(it, synced, keep, indent)
  {
    hide AsItWas, WrittenAnew, Index, MemberAfter;
    if n > 0 {
      KeptTexts(local, n - 1, synced, keep, indent);
      assert local[..n][..n - 1] == local[..n - 1];
      MemberTexts(local[n - 1], local, synced, keep, indent);
    }
  }

  lemma {:induction false} NewTexts(synced: seq<Item>, n: nat, seen: set<string>, keep: set<string>,
                                    indent: string -> string)
    requires n <= |synced|
    ensures forall it :: it in NewMembers(synced[..n], seen, keep, indent) ==> WrittenAnew(it, synced, keep, indent)
  {
    if n > 0 {
      NewTexts(synced, n - 1, seen, keep, indent);
      assert synced[..n][..n - 1] == synced[..n - 1] && synced[n - 1] in synced;
    }
  }

  // So the text written says the values: where the file's texts say theirs,
  // reading the text of every member gives its value.
  lemma TextsSayValues(local: seq<Item>, synced: seq<Item>, keep: set<string>, indent: string -> string,
                       read: string -> Option<string>)
    requires forall m :: m in local ==> read(m.text) == Some(m.value)
    requires forall v :: read(indent(v)) == Some(v)
    ensures forall it :: it in MergedMembers(local, synced, keep, indent) ==> read(it.text) == Some(it.value)
  {
    TextsFollowValues(local, synced, keep, indent);
  }

  // The names that pass, in order.
  function Passing(names: seq<string>, pass: string -> bool): seq<string> {
    if names == [] then []
    else
      var init, last := Passing(names[..|names| - 1], pass), names[|names| - 1];
      if pass(last) then init + [last] else init
  }

  lemma {:induction false} KeptOrder(local: seq<Item>, synced: seq<Item>, keep: set<string>, indent: string -> string)
    ensures Names(KeptMembers(local, Index(synced), keep, indent))
            == Passing(Names(local), n => n in keep || n in Index(synced))
  {
    hide Index;
    if local != [] {
      var k := |local| - 1;
      var m := local[k];
      KeptOrder(local[..k], synced, keep, indent);
      IndexHas(synced, m.name);
      var init := KeptMembers(local[..k], Index(synced), keep, indent);
      var it := MemberAfter(m, Lookup(Index(synced), m.name), m.name in keep, indent);
      if it.Some? { NamesSnoc(init, it.value); }
    }
  }

  lemma {:induction false} NewOrder(synced: seq<Item>, seen: set<string>, keep: set<string>, indent: string -> string)
    ensures Names(NewMembers(synced, seen, keep, indent)) == Passing(Names(synced), n => n !in seen && n !in keep)
  {
    if synced != [] {
      var k := |synced| - 1;
      var it := synced[k];
      NewOrder(synced[..k], seen, keep, indent);
      NamesSnoc(NewMembers(synced[..k], seen, keep, indent), Item(it.name, it.value, indent(it.value)));
    }
  }

  // The file's order first, then what is new here in the synced order.
  lemma MembersKeepOrder(local: seq<Item>, synced: seq<Item>, keep: set<string>, indent: string -> string)
    ensures Names(MergedMembers(local, synced, keep, indent))
            == Passing(Names(local), n => n in keep || n in Index(synced))
               + Passing(Names(synced), n => n !in NamesOf(local) && n !in keep)
  {
    KeptOrder(local, synced, keep, indent);
    NewOrder(synced, NamesOf(local), keep, indent);
    NamesConcat(KeptMembers(local, Index(synced), keep, indent), NewMembers(synced, NamesOf(local), keep, indent));
  }

  // ------------------------------------------------------------ .claude.json

  // A top-level member: mcpServers with its members (None is a value that is
  // no object), or another as written.
  datatype Field = Other(key: string, text: string) | Servers(members: Option<seq<Item>>)

  datatype Failure = NotAnObject

  function ServersAt(file: seq<Field>): (i: nat)
    ensures i <= |file| && (i < |file| ==> file[i].Servers?)
    ensures forall k :: 0 <= k < i ==> file[k].Other?
  {
    if file == [] then 0 else if file[0].Servers? then 0 else ServersAt(file[1..]) + 1
  }

  function Projected(file: seq<Field>): Result<seq<Item>, Failure> {
    var i := ServersAt(file);
    if i == |file| then Ok([])
    else if file[i].members.None? then Err(NotAnObject)
    else Ok(file[i].members.value)
  }

  // Member names are distinct: one mcpServers at most, and no server twice.
  ghost predicate OneServers(file: seq<Field>) {
    && (forall i, j :: 0 <= i < j < |file| ==> !(file[i].Servers? && file[j].Servers?))
    && (Projected(file).Ok? ==> Distinct(Projected(file).value))
  }

  // The last one, or -1: applying replaces that one.
  function LastServers(file: seq<Field>): (i: int)
    ensures -1 <= i < |file| && (i >= 0 ==> file[i].Servers?)
    ensures forall k :: i < k < |file| ==> file[k].Other?
  {
    if file == [] then -1
    else if file[|file| - 1].Servers? then |file| - 1
    else LastServers(file[..|file| - 1])
  }

  predicate Readable(file: seq<Field>) {
    forall k :: 0 <= k < |file| ==> file[k] != Servers(None)
  }

  function AppliedTo(file: seq<Field>, synced: seq<Item>, keep: set<string>,
                     indent: string -> string): Result<seq<Field>, Failure> {
    var i := LastServers(file);
    if !Readable(file) then Err(NotAnObject)
    else if i >= 0 then Ok(file[i := Servers(Some(MergedMembers(file[i].members.value, synced, keep, indent)))])
    else Ok(file + [Servers(Some(MergedMembers([], synced, keep, indent)))])
  }

  method Project(file: seq<Field>) returns (r: Result<seq<Item>, Failure>)
    ensures r == Projected(file)
  {
    for i := 0 to |file|
      invariant i <= ServersAt(file)
    {
      if file[i].Servers? {
        if file[i].members.None? { return Err(NotAnObject); }
        return Ok(file[i].members.value);
      }
    }
    return Ok([]);
  }

  method Apply(file: seq<Field>, synced: seq<Item>, keep: set<string>, indent: string -> string)
    returns (r: Result<seq<Field>, Failure>)
    ensures r == AppliedTo(file, synced, keep, indent)
  {
    hide MergedMembers;
    var servers: seq<Item> := [];
    var at := -1;
    for i := 0 to |file|
      invariant Readable(file[..i]) && at == LastServers(file[..i])
      invariant servers == if at >= 0 then file[at].members.value else []
    {
      assert file[..i + 1][..i] == file[..i];
      if file[i].Servers? {
        at := i;
        if file[i].members.None? { return Err(NotAnObject); }
        servers := file[i].members.value;
      }
    }
    assert file[..|file|] == file;
    var merged := MergeMembers(servers, synced, keep, indent);
    var value := Servers(Some(merged));
    return Ok(if at >= 0 then file[at := value] else file + [value]);
  }

  // Both fail exactly on a value of mcpServers that is no object: reading on
  // that of the first, writing on that of any.
  lemma FailsExactly(file: seq<Field>, synced: seq<Item>, keep: set<string>, indent: string -> string)
    ensures AppliedTo(file, synced, keep, indent).Err? <==> exists k :: 0 <= k < |file| && file[k] == Servers(None)
    ensures Projected(file).Err? <==>
              exists k :: 0 <= k < |file| && file[k] == Servers(None) && forall j :: 0 <= j < k ==> file[j].Other?
  {
    hide MergedMembers;
  }

  lemma ServersAtIs(file: seq<Field>, i: nat)
    requires i < |file| && file[i].Servers? && forall k :: 0 <= k < i ==> file[k].Other?
    ensures ServersAt(file) == i
  {
  }

  // With one mcpServers at most, what is read is what is written.
  lemma OneIsFirstAndLast(file: seq<Field>)
    requires OneServers(file)
    ensures LastServers(file) == if ServersAt(file) == |file| then -1 else ServersAt(file)
    ensures Readable(file) <==> Projected(file).Ok?
  {
    var i := ServersAt(file);
    if i < |file| {
      forall k | 0 <= k < |file| && k != i ensures file[k].Other? {}
    }
  }

  // Everything else in the file stays, and stays where it is.
  lemma OthersStay(file: seq<Field>, synced: seq<Item>, keep: set<string>, indent: string -> string)
    requires AppliedTo(file, synced, keep, indent).Ok?
    ensures var r := AppliedTo(file, synced, keep, indent).value;
            && |file| <= |r| <= |file| + 1 && (|r| > |file| <==> forall f :: f in file ==> f.Other?)
            && (forall k :: 0 <= k < |file| && k != LastServers(file) ==> r[k] == file[k])
            && (forall k :: 0 <= k < |file| && file[k].Other? ==> r[k] == file[k])
  {
    hide MergedMembers;
    var i := LastServers(file);
    if i >= 0 { assert file[i] in file; }
  }

  lemma ServersPutGet(file: seq<Field>, synced: seq<Item>, keep: set<string>, indent: string -> string, n: string)
    requires OneServers(file) && Projected(file).Ok?
    ensures AppliedTo(file, synced, keep, indent).Ok?
    ensures var back := Projected(AppliedTo(file, synced, keep, indent).value);
            && back.Ok?
            && ValueOf(back.value, n) == if n in keep then ValueOf(Projected(file).value, n) else ValueOf(synced, n)
  {
    hide MergedMembers, Index, Distinct;
    OneIsFirstAndLast(file);
    var r := AppliedTo(file, synced, keep, indent).value;
    ServersAtIs(r, ServersAt(file));
    PutGet(Projected(file).value, synced, keep, indent, n);
  }

  // Writing a file's own projection back changes nothing, exactly when the
  // file has servers to begin with: else an empty mcpServers is added.
  lemma ServersGetPut(file: seq<Field>, keep: set<string>, indent: string -> string)
    requires OneServers(file) && Projected(file).Ok?
    ensures AppliedTo(file, Projected(file).value, keep, indent) == Ok(file) <==> exists f :: f in file && f.Servers?
  {
    hide MergedMembers;
    OneIsFirstAndLast(file);
    var own := Projected(file).value;
    GetPut(own, keep, indent);
    var i := ServersAt(file);
    if i < |file| {
      assert file[i] in file && file[i] == Servers(Some(own));
      assert file[i := Servers(Some(own))] == file;
    } else {
      assert |AppliedTo(file, own, keep, indent).value| == |file| + 1;
    }
  }
}
