// Items a machine keeps to itself: those held back because it cannot use
// them, and those a rule hides (internal/structured/structured.go, HeldNames;
// internal/structured/hidden.go; internal/engine/structured.go).
module Private {
  import opened Options
  import opened Structured
  import Json

  // ------------------------------------------------------------ held items

  // The name itself or an item nested below it.
  predicate Under(n: string, outer: string) {
    n == outer || outer + "." <= n
  }

  // Why an item cannot be used here, if it cannot.
  type Holding = Item -> Option<string>

  // Held are the items that cannot be used here and those below one.
  ghost predicate HeldIn(n: string, items: seq<Item>, hold: Holding) {
    && Has(items, n)
    && exists i :: 0 <= i < |items| && hold(items[i]).Some? && Under(n, items[i].name)
  }

  // Nested items are named with a dot.
  lemma HeldInIs(n: string, items: seq<Item>, hold: Holding)
    ensures HeldIn(n, items, hold) <==>
              && Has(items, n)
              && exists i :: 0 <= i < |items| && hold(items[i]).Some?
                             && (n == items[i].name || items[i].name + "." <= n)
  {
  }

  ghost predicate ReasonFor(n: string, reason: string, items: seq<Item>, hold: Holding) {
    exists i :: 0 <= i < |items| && hold(items[i]) == Some(reason) && Under(n, items[i].name)
  }

  // Names held so far; the reasons may be overwritten by those of outer items.
  ghost predicate HeldSoFar(held: map<string, string>, items: seq<Item>, k: nat, hold: Holding) {
    && (forall i :: 0 <= i < |items| && hold(items[i]).Some? ==> items[i].name in held)
    && (forall n :: n in held ==> Has(items, n) && ReasonFor(n, held[n], items, hold))
    && (forall i :: 0 <= i < k && i < |items| && HeldIn(items[i].name, items, hold) ==> items[i].name in held)
  }

  method HeldNames(items: seq<Item>, hold: Holding) returns (held: map<string, string>)
    ensures forall n :: n in held <==>
              && Has(items, n)
              && exists i :: 0 <= i < |items| && hold(items[i]).Some?
                             && (n == items[i].name || items[i].name + "." <= n)
    ensures forall n :: n in held ==>
              exists i :: 0 <= i < |items| && hold(items[i]) == Some(held[n])
                          && (n == items[i].name || items[i].name + "." <= n)
  {
    held := map[];
    for i := 0 to |items|
      invariant forall k :: 0 <= k < i && hold(items[k]).Some? ==> items[k].name in held
      invariant forall n :: n in held ==> Has(items, n) && ReasonFor(n, held[n], items, hold)
    {
      var reason := hold(items[i]);
      if reason.Some? {
        assert Under(items[i].name, items[i].name) && Has(items, items[i].name);
        assert ReasonFor(items[i].name, reason.value, items, hold);
        held := held[items[i].name := reason.value];
      }
    }
    for i := 0 to |items|
      invariant HeldSoFar(held, items, i, hold)
    {
      held := HoldBelow(items, i, held, hold);
    }
    forall n | HeldIn(n, items, hold) ensures n in held {
      var i :| 0 <= i < |items| && items[i].name == n;
    }
  }

  lemma UnderTransitive(a: string, b: string, c: string)
    requires Under(a, b) && Under(b, c)
    ensures Under(a, c)
  {
    if a != b && b != c {
      assert a[..|c| + 1] == b[..|c| + 1] == c + ".";
    }
  }

  lemma ReasonBelow(n: string, outer: string, reason: string, items: seq<Item>, hold: Holding)
    requires Under(n, outer) && ReasonFor(outer, reason, items, hold)
    ensures ReasonFor(n, reason, items, hold)
  {
    var i :| 0 <= i < |items| && hold(items[i]) == Some(reason) && Under(outer, items[i].name);
    UnderTransitive(n, outer, items[i].name);
  }

  // The held names are met in any order.
  method HoldBelow(items: seq<Item>, i: nat, held0: map<string, string>, hold: Holding)
    returns (held: map<string, string>)
    requires i < |items| && HeldSoFar(held0, items, i, hold)
    ensures HeldSoFar(held, items, i + 1, hold)
  {
    hide Under, HeldIn, ReasonFor;
    held := held0;
    var rest := held0.Keys;
    var it := items[i];
    while rest != {}
      invariant rest <= held0.Keys
      invariant forall n :: n in held <==> n in held0 || (n == it.name && n in held)
      invariant forall n :: n in held ==> Has(items, n) && ReasonFor(n, held[n], items, hold)
      invariant forall n :: n in held0 && n !in rest && Under(it.name, n) ==> it.name in held
      decreases |rest|
    {
      var name :| name in rest;
      UnderIs(it.name, name);
      if name + "." <= it.name {
        var reason := held0[name];
        ReasonBelow(it.name, name, reason, items, hold);
        assert Has(items, it.name);
        held := held[it.name := reason];
      }
      rest := rest - {name};
    }
    HeldByOuter(items, it.name, held0, i, hold);
  }

  lemma UnderIs(n: string, outer: string)
    ensures Under(n, outer) <==> n == outer || outer + "." <= n
  {
  }

  lemma HeldByOuter(items: seq<Item>, n: string, held: map<string, string>, k: nat, hold: Holding)
    requires HeldSoFar(held, items, k, hold)
    ensures HeldIn(n, items, hold) ==> exists outer :: outer in held && Under(n, outer)
  {
  }

  // ---------------------------------------------------- what a scan shows

  type Hidden = string -> bool

  function Filter(items: seq<Item>, pass: Hidden): seq<Item> {
    if items == [] then []
    else
      var init := Filter(items[..|items| - 1], pass);
      if pass(items[|items| - 1].name) then init + [items[|items| - 1]] else init
  }

  // The hidden items as last synced, the others as they are here.
  function Pinned(local: seq<Item>, base: seq<Item>, hidden: Hidden): seq<Item> {
    Filter(local, n => !hidden(n)) + Filter(base, hidden)
  }

  method Pin(local: seq<Item>, base: seq<Item>, hidden: Hidden) returns (out: seq<Item>)
    ensures out == Pinned(local, base, hidden)
  {
    out := [];
    for i := 0 to |local|
      invariant out == Filter(local[..i], n => !hidden(n))
    {
      assert local[..i + 1][..i] == local[..i];
      if !hidden(local[i].name) { out := out + [local[i]]; }
    }
    assert local[..|local|] == local;
    ghost var mine := out;
    for i := 0 to |base|
      invariant out == mine + Filter(base[..i], hidden)
    {
      assert base[..i + 1][..i] == base[..i];
      if hidden(base[i].name) { out := out + [base[i]]; }
    }
    assert base[..|base|] == base;
  }

  function HeldBack(held: seq<string>, base: seq<Item>, have: set<string>): seq<Item> {
    if held == [] then []
    else
      var name := held[|held| - 1];
      HeldBack(held[..|held| - 1], base, have) + Filter(base, n => n == name && n !in have)
  }

  // The held items are absent from the file on purpose: the scan shows them
  // as last synced.
  function WithHeldItems(items: seq<Item>, base: seq<Item>, held: seq<string>): seq<Item> {
    items + HeldBack(held, base, Json.NamesOf(items))
  }

  method WithHeld(items: seq<Item>, base: seq<Item>, held: seq<string>) returns (out: seq<Item>)
    ensures out == WithHeldItems(items, base, held)
  {
    hide Json.NamesOf;
    out := items;
    if |held| == 0 { return; }
    var have := Json.NamesOf(items);
    for i := 0 to |held|
      invariant out == items + HeldBack(held[..i], base, have)
    {
      assert held[..i + 1][..i] == held[..i];
      ghost var was := out;
      for k := 0 to |base|
        invariant out == was + Filter(base[..k], n => n == held[i] && n !in have)
      {
        assert base[..k + 1][..k] == base[..k];
        if base[k].name == held[i] && held[i] !in have { out := out + [base[k]]; }
      }
      assert base[..|base|] == base;
    }
    assert held[..|held|] == held;
  }

  function Scan(file: seq<Item>, base: seq<Item>, held: seq<string>, hidden: Hidden): seq<Item> {
    Pinned(WithHeldItems(file, base, held), base, hidden)
  }

  lemma {:induction false} FilterSays(items: seq<Item>, pass: Hidden, n: string)
    ensures ValueOf(Filter(items, pass), n) == if pass(n) then ValueOf(items, n) else None
  {
    hide Index;
    if items == [] {
      Json.NothingSaid(n);
    } else {
      var k := |items| - 1;
      FilterSays(items[..k], pass, n);
      assert items == items[..k] + [items[k]];
      Json.LookupSnoc(items[..k], items[k], n);
      Json.LookupSnoc(Filter(items[..k], pass), items[k], n);
    }
  }

  lemma {:induction false} FilterDistinct(items: seq<Item>, pass: Hidden)
    ensures forall it :: it in Filter(items, pass) <==> it in items && pass(it.name)
    ensures Distinct(items) ==> Distinct(Filter(items, pass))
  {
    if items != [] {
      var k := |items| - 1;
      var init := Filter(items[..k], pass);
      assert items == items[..k] + [items[k]];
      FilterDistinct(items[..k], pass);
      if Distinct(items) {
        forall i | 0 <= i < |init| ensures init[i].name != items[k].name { assert init[i] in items[..k]; }
      }
    }
  }

  lemma {:induction false} HeldBackSays(held: seq<string>, base: seq<Item>, have: set<string>, n: string)
    ensures ValueOf(HeldBack(held, base, have), n) == if n in held && n !in have then ValueOf(base, n) else None
  {
    hide Index;
    if held == [] {
      Json.NothingSaid(n);
    } else {
      var k := |held| - 1;
      assert held == held[..k] + [held[k]];
      HeldBackSays(held[..k], base, have, n);
      FilterSays(base, m => m == held[k] && m !in have, n);
      LookupConcat(HeldBack(held[..k], base, have), Filter(base, m => m == held[k] && m !in have), n);
    }
  }

  ghost predicate NoTwice(held: seq<string>) {
    forall i, j :: 0 <= i < j < |held| ==> held[i] != held[j]
  }

  lemma DistinctConcat(a: seq<Item>, b: seq<Item>)
    requires Distinct(a) && Distinct(b) && forall n :: !(Has(a, n) && Has(b, n))
    ensures Distinct(a + b)
  {
    forall i, j | 0 <= i < j < |a + b| ensures (a + b)[i].name != (a + b)[j].name {
      if i < |a| <= j {
        assert Has(a, a[i].name);
        assert b[j - |a|].name == (a + b)[j].name;
        assert Has(b, b[j - |a|].name);
      }
    }
  }

  lemma HasOne(items: seq<Item>, n: string)
    ensures Has(items, n) ==> exists it :: it in items && it.name == n
  {
  }

  lemma {:induction false} HeldBackDistinct(held: seq<string>, base: seq<Item>, have: set<string>)
    requires Distinct(base)
    ensures forall it :: it in HeldBack(held, base, have) <==> it in base && it.name in held && it.name !in have
    ensures NoTwice(held) ==> Distinct(HeldBack(held, base, have))
  {
    if held != [] {
      var k := |held| - 1;
      var init, last := HeldBack(held[..k], base, have), Filter(base, n => n == held[k] && n !in have);
      assert held == held[..k] + [held[k]];
      HeldBackDistinct(held[..k], base, have);
      FilterDistinct(base, n => n == held[k] && n !in have);
      if NoTwice(held) {
        forall n ensures !(Has(init, n) && Has(last, n)) {
          HasOne(init, n);
          HasOne(last, n);
        }
        DistinctConcat(init, last);
      }
    }
  }

  // What a scan says about a name.
  lemma ScanSays(file: seq<Item>, base: seq<Item>, held: seq<string>, hidden: Hidden, n: string)
    ensures ValueOf(Scan(file, base, held, hidden), n)
            == if hidden(n) then ValueOf(base, n)
               else if Has(file, n) then ValueOf(file, n)
               else if n in held then ValueOf(base, n) else None
  {
    hide Index, Json.NamesOf;
    var all := WithHeldItems(file, base, held);
    Json.InNames(file, n);
    IndexHas(file, n);
    HeldBackSays(held, base, Json.NamesOf(file), n);
    LookupConcat(file, HeldBack(held, base, Json.NamesOf(file)), n);
    FilterSays(all, m => !hidden(m), n);
    FilterSays(base, hidden, n);
    LookupConcat(Filter(all, m => !hidden(m)), Filter(base, hidden), n);
  }

  lemma ScanDistinct(file: seq<Item>, base: seq<Item>, held: seq<string>, hidden: Hidden)
    requires Distinct(file) && Distinct(base) && NoTwice(held)
    ensures Distinct(Scan(file, base, held, hidden))
  {
    hide Json.NamesOf;
    var have := Json.NamesOf(file);
    var back := HeldBack(held, base, have);
    HeldBackDistinct(held, base, have);
    forall n ensures !(Has(file, n) && Has(back, n)) {
      HasOne(back, n);
      Json.InNames(file, n);
    }
    DistinctConcat(file, back);
    var a, b := Filter(file + back, m => !hidden(m)), Filter(base, hidden);
    FilterDistinct(file + back, m => !hidden(m));
    FilterDistinct(base, hidden);
    forall n ensures !(Has(a, n) && Has(b, n)) {
      HasOne(a, n);
      HasOne(b, n);
    }
    DistinctConcat(a, b);
  }

  // ---------------------------------------------- writing a synced form here

  // The names whose version in the file stays: held ones, and hidden ones on
  // either side.
  function StayNames(file: seq<Item>, synced: seq<Item>, held: set<string>, hidden: Hidden): set<string> {
    held + (set n | n in Json.NamesOf(file) + Json.NamesOf(synced) && hidden(n))
  }

  function WrittenFile(file: seq<Item>, synced: seq<Item>, held: set<string>, hidden: Hidden,
                       indent: string -> string): seq<Item> {
    Json.MergedMembers(file, synced, StayNames(file, synced, held, hidden), indent)
  }

  // The items the state remembers: what was written, and what was held back.
  function RecordedItems(written: seq<Item>, synced: seq<Item>, held: set<string>): seq<Item> {
    written + Filter(synced, n => n in held && n !in Json.NamesOf(written))
  }

  function HeldList(synced: seq<Item>, held: set<string>): seq<string> {
    Names(Filter(synced, n => n in held))
  }

  ghost function HeldSet(items: seq<Item>, hold: Holding): set<string> {
    set n | n in Json.NamesOf(items) && HeldIn(n, items, hold)
  }

  lemma HeldSetIs(items: seq<Item>, hold: Holding, held: set<string>)
    requires forall n :: n in held <==> HeldIn(n, items, hold)
    ensures held == HeldSet(items, hold)
  {
    hide Json.NamesOf;
    forall n | HeldIn(n, items, hold) ensures n in Json.NamesOf(items) { Json.InNames(items, n); }
  }

  method WriteStructured(file: seq<Item>, synced: seq<Item>, hold: Holding, hidden: Hidden, indent: string -> string)
    returns (written: seq<Item>, recorded: seq<Item>, heldList: seq<string>)
    ensures written == WrittenFile(file, synced, HeldSet(synced, hold), hidden, indent)
    ensures recorded == RecordedItems(written, synced, HeldSet(synced, hold))
    ensures heldList == HeldList(synced, HeldSet(synced, hold))
  {
    hide Json.NamesOf, Json.MergedMembers, HeldIn, HeldSet;
    var reasons := HeldNames(synced, hold);
    var keep := reasons.Keys;
    forall n ensures n in keep <==> HeldIn(n, synced, hold) { HeldInIs(n, synced, hold); }
    HeldSetIs(synced, hold, keep);
    var all := keep + (set n | n in Json.NamesOf(file) + Json.NamesOf(synced) && hidden(n));
    written := Json.MergeMembers(file, synced, all, indent);
    var have := Json.NamesOf(written);
    recorded, heldList := written, [];
    NoFilter(synced, n => n in keep);
    for i := 0 to |synced|
      invariant recorded == written + Filter(synced[..i], n => n in keep && n !in have)
      invariant heldList == Names(Filter(synced[..i], n => n in keep))
    {
      assert synced[..i + 1][..i] == synced[..i];
      if synced[i].name in keep && synced[i].name !in have { recorded := recorded + [synced[i]]; }
      if synced[i].name in keep {
        NamesSnoc(Filter(synced[..i], n => n in keep), synced[i]);
        heldList := heldList + [synced[i].name];
      }
    }
    assert synced[..|synced|] == synced;
  }

  lemma NoFilter(items: seq<Item>, pass: Hidden)
    ensures Filter(items[..0], pass) == [] && Names([]) == []
  {
  }

  // Writing leaves this machine's hidden values alone; held items keep the
  // file's version or stay away.
  lemma WrittenSays(file: seq<Item>, synced: seq<Item>, held: set<string>, hidden: Hidden, indent: string -> string,
                    n: string)
    requires Distinct(file)
    ensures ValueOf(WrittenFile(file, synced, held, hidden, indent), n)
            == if hidden(n) || n in held then ValueOf(file, n) else ValueOf(synced, n)
  {
    hide Index, Json.MergedMembers, Json.NamesOf;
    Json.PutGet(file, synced, StayNames(file, synced, held, hidden), indent, n);
    Json.InNames(file, n);
    Json.InNames(synced, n);
    IndexHas(file, n);
    IndexHas(synced, n);
  }

  lemma WrittenDistinct(file: seq<Item>, synced: seq<Item>, held: set<string>, hidden: Hidden, indent: string -> string)
    requires Distinct(file) && Distinct(synced)
    ensures Distinct(WrittenFile(file, synced, held, hidden, indent))
  {
    MergedDistinct(file, synced, StayNames(file, synced, held, hidden), indent);
  }

  lemma {:induction false} KeptNames(local: seq<Item>, synced: map<string, Item>, keep: set<string>,
                                     indent: string -> string)
    ensures forall n :: Has(Json.KeptMembers(local, synced, keep, indent), n) ==> Has(local, n)
    ensures Distinct(local) ==> Distinct(Json.KeptMembers(local, synced, keep, indent))
  {
    if local != [] {
      var k := |local| - 1;
      KeptNames(local[..k], synced, keep, indent);
      var init := Json.KeptMembers(local[..k], synced, keep, indent);
      var all := Json.KeptMembers(local, synced, keep, indent);
      forall n | Has(all, n) ensures Has(local, n) {
        HasSnoc(local, n);
        if all != init { HasSnoc(all, n); assert all[..|all| - 1] == init; }
      }
      if Distinct(local) {
        forall i | 0 <= i < |init| ensures init[i].name != local[k].name {
          assert Has(init, init[i].name);
          var j :| 0 <= j < k && local[..k][j].name == init[i].name;
        }
      }
    }
  }

  lemma {:induction false} NewNames(synced: seq<Item>, seen: set<string>, keep: set<string>, indent: string -> string)
    ensures forall n :: Has(Json.NewMembers(synced, seen, keep, indent), n) ==> Has(synced, n) && n !in seen
    ensures Distinct(synced) ==> Distinct(Json.NewMembers(synced, seen, keep, indent))
  {
    if synced != [] {
      var k := |synced| - 1;
      NewNames(synced[..k], seen, keep, indent);
      var init := Json.NewMembers(synced[..k], seen, keep, indent);
      var all := Json.NewMembers(synced, seen, keep, indent);
      forall n | Has(all, n) ensures Has(synced, n) && n !in seen {
        HasSnoc(synced, n);
        if all != init { HasSnoc(all, n); assert all[..|all| - 1] == init; }
      }
      if Distinct(synced) {
        forall i | 0 <= i < |init| ensures init[i].name != synced[k].name {
          assert Has(init, init[i].name);
          var j :| 0 <= j < k && synced[..k][j].name == init[i].name;
        }
      }
    }
  }

  lemma MergedDistinct(local: seq<Item>, synced: seq<Item>, keep: set<string>, indent: string -> string)
    requires Distinct(local) && Distinct(synced)
    ensures Distinct(Json.MergedMembers(local, synced, keep, indent))
  {
    hide Json.NamesOf;
    KeptNames(local, Index(synced), keep, indent);
    NewNames(synced, Json.NamesOf(local), keep, indent);
    forall n ensures !(Has(Json.KeptMembers(local, Index(synced), keep, indent), n)
                       && Has(Json.NewMembers(synced, Json.NamesOf(local), keep, indent), n)) {
      Json.InNames(local, n);
    }
    DistinctConcat(Json.KeptMembers(local, Index(synced), keep, indent),
                   Json.NewMembers(synced, Json.NamesOf(local), keep, indent));
  }

  // --------------------------------- the next scan sees what was recorded

  lemma RecordedSays(written: seq<Item>, synced: seq<Item>, held: set<string>, n: string)
    ensures ValueOf(RecordedItems(written, synced, held), n)
            == if Has(written, n) then ValueOf(written, n) else if n in held then ValueOf(synced, n) else None
  {
    hide Index, Json.NamesOf;
    Json.InNames(written, n);
    IndexHas(written, n);
    var back := Filter(synced, m => m in held && m !in Json.NamesOf(written));
    FilterSays(synced, m => m in held && m !in Json.NamesOf(written), n);
    LookupConcat(written, back, n);
  }

  lemma RecordedDistinct(written: seq<Item>, synced: seq<Item>, held: set<string>)
    requires Distinct(written) && Distinct(synced)
    ensures Distinct(RecordedItems(written, synced, held))
  {
    hide Json.NamesOf;
    var pass := m => m in held && m !in Json.NamesOf(written);
    FilterDistinct(synced, pass);
    forall n ensures !(Has(written, n) && Has(Filter(synced, pass), n)) {
      Json.InNames(written, n);
      HasOne(Filter(synced, pass), n);
    }
    DistinctConcat(written, Filter(synced, pass));
  }

  lemma {:induction false} NamesAre(items: seq<Item>)
    ensures |Names(items)| == |items| && forall i :: 0 <= i < |items| ==> Names(items)[i] == items[i].name
  {
    if items != [] { NamesAre(items[..|items| - 1]); }
  }

  lemma HeldListIs(synced: seq<Item>, held: set<string>)
    ensures forall n :: n in HeldList(synced, held) <==> n in held && Has(synced, n)
    ensures Distinct(synced) ==> NoTwice(HeldList(synced, held))
  {
    var kept := Filter(synced, n => n in held);
    FilterDistinct(synced, n => n in held);
    NamesAre(kept);
    forall n ensures n in Names(kept) <==> n in held && Has(synced, n) {
      if n in Names(kept) {
        var i :| 0 <= i < |kept| && Names(kept)[i] == n;
        assert kept[i] in kept;
        var j :| 0 <= j < |synced| && synced[j] == kept[i];
      }
      if n in held && Has(synced, n) {
        var j :| 0 <= j < |synced| && synced[j].name == n;
        assert synced[j] in kept;
        var i :| 0 <= i < |kept| && kept[i] == synced[j];
        assert Names(kept)[i] == n;
      }
    }
  }

  // A hidden name whose own version differs from the synced one, unless the
  // item is held back here and absent.
  ghost predicate OwnDiffers(file: seq<Item>, synced: seq<Item>, held: set<string>, hidden: Hidden, n: string) {
    && hidden(n) && ValueOf(file, n) != ValueOf(synced, n) && !(n in held && !Has(file, n))
  }

  lemma ScanOfWritten(file: seq<Item>, synced: seq<Item>, held: set<string>, hidden: Hidden,
                      indent: string -> string, n: string)
    requires Distinct(file) && Distinct(synced)
    ensures var written := WrittenFile(file, synced, held, hidden, indent);
            ValueOf(Scan(written, synced, HeldList(synced, held), hidden), n)
            == ValueOf(RecordedItems(written, synced, held), n)
            <==> !OwnDiffers(file, synced, held, hidden, n)
  {
    hide Index, Json.NamesOf, WrittenFile, Scan, RecordedItems, HeldList;
    var written := WrittenFile(file, synced, held, hidden, indent);
    WrittenSays(file, synced, held, hidden, indent, n);
    ScanSays(written, synced, HeldList(synced, held), hidden, n);
    RecordedSays(written, synced, held, n);
    HeldListIs(synced, held);
    IndexHas(written, n);
    IndexHas(file, n);
    IndexHas(synced, n);
  }

  // After a download the next scan gives the fingerprint the state recorded,
  // held items included, exactly when this machine's hidden items are as
  // synced; so without hidden items, always.
  lemma HeldNeverLookDeleted(file: seq<Item>, synced: seq<Item>, held: set<string>, hidden: Hidden,
                             indent: string -> string)
    requires Distinct(file) && Distinct(synced)
    ensures var written := WrittenFile(file, synced, held, hidden, indent);
            Fingerprint(Scan(written, synced, HeldList(synced, held), hidden))
            == Fingerprint(RecordedItems(written, synced, held))
            <==> forall n :: !OwnDiffers(file, synced, held, hidden, n)
  {
    hide WrittenFile, Scan, RecordedItems, HeldList, OwnDiffers, Fingerprint, ValueOf;
    var written := WrittenFile(file, synced, held, hidden, indent);
    var list := HeldList(synced, held);
    WrittenDistinct(file, synced, held, hidden, indent);
    HeldListIs(synced, held);
    ScanDistinct(written, synced, list, hidden);
    RecordedDistinct(written, synced, held);
    FingerprintIdentifies(Scan(written, synced, list, hidden), RecordedItems(written, synced, held));
    forall n ensures ValueOf(Scan(written, synced, list, hidden), n) == ValueOf(RecordedItems(written, synced, held), n)
                     <==> !OwnDiffers(file, synced, held, hidden, n)
    {
      ScanOfWritten(file, synced, held, hidden, indent, n);
    }
  }
}
