// internal/hooks/hooks.go: adding codeagent-sync's hooks to a settings file
// and taking them out again, on parsed members.
module Hooks {
  import opened Options

  // A handler as written, and whether it runs codeagent-sync's hook command.
  datatype Handler = Handler(ours: bool, text: string)

  // A member of a JSON object: the one called hooks, or another as written.
  datatype Member<T> = Setting(key: string, text: string) | HooksMember(value: T)

  datatype Group = Group(fields: seq<Member<seq<Handler>>>)

  // The groups of an event; None is a value that is no list of groups.
  datatype Event = Event(key: string, groups: Option<seq<Group>>)

  // A settings file; None is a hooks member that is no object.
  type File = seq<Member<Option<seq<Event>>>>

  datatype Failure = BadEvent(key: string) | BadHooks

  // The first hooks member, or the end.
  function HooksAt<T>(ms: seq<Member<T>>): (i: nat)
    ensures i <= |ms| && (i < |ms| ==> ms[i].HooksMember?)
    ensures forall k :: 0 <= k < i ==> !ms[k].HooksMember?
  {
    if ms == [] then 0 else if ms[0].HooksMember? then 0 else HooksAt(ms[1..]) + 1
  }

  function HandlersOf(g: Group): seq<Handler> {
    var i := HooksAt(g.fields);
    if i < |g.fields| then g.fields[i].value else []
  }

  function CountOurs(hs: seq<Handler>): (n: nat)
    ensures n <= |hs|
    ensures n == 0 <==> forall h :: h in hs ==> !h.ours
  {
    if hs == [] then 0
    else
      assert hs == hs[..|hs| - 1] + [hs[|hs| - 1]];
      CountOurs(hs[..|hs| - 1]) + if hs[|hs| - 1].ours then 1 else 0
  }

  function Foreign(hs: seq<Handler>): seq<Handler> {
    if hs == [] then []
    else
      var init := Foreign(hs[..|hs| - 1]);
      if hs[|hs| - 1].ours then init else init + [hs[|hs| - 1]]
  }

  // A group without our handlers; a group that held nothing else goes.
  function GroupWithout(g: Group): Option<Group> {
    var hs := HandlersOf(g);
    if CountOurs(hs) == 0 then Some(g)
    else if CountOurs(hs) == |hs| then None
    else Some(Group(g.fields[HooksAt(g.fields) := HooksMember(Foreign(hs))]))
  }

  predicate HasOurs(g: Group) {
    CountOurs(HandlersOf(g)) != 0
  }

  function GroupsWithout(gs: seq<Group>): seq<Group> {
    if gs == [] then []
    else
      var init := GroupsWithout(gs[..|gs| - 1]);
      match GroupWithout(gs[|gs| - 1])
      case None => init
      case Some(g) => init + [g]
  }

  predicate AnyOurs(gs: seq<Group>) {
    exists g :: g in gs && HasOurs(g)
  }

  function EventWithout(ev: Event): Option<Event>
    requires ev.groups.Some?
  {
    if !AnyOurs(ev.groups.value) then Some(ev)
    else if GroupsWithout(ev.groups.value) == [] then None
    else Some(Event(ev.key, Some(GroupsWithout(ev.groups.value))))
  }

  predicate Decoded(events: seq<Event>) {
    forall i :: 0 <= i < |events| ==> events[i].groups.Some?
  }

  function Without(events: seq<Event>): (r: seq<Event>)
    requires Decoded(events)
    ensures Decoded(r)
  {
    if events == [] then []
    else
      var init := Without(events[..|events| - 1]);
      match EventWithout(events[|events| - 1])
      case None => init
      case Some(ev) => init + [ev]
  }

  // ------------------------------------------------------------ installing

  datatype OurHook = OurHook(event: string, group: Group)

  function OurGroup(matcher: string, handler: string): Group {
    var hooks := HooksMember([Handler(true, handler)]);
    Group(if matcher == "" then [hooks] else [Setting("matcher", matcher), hooks])
  }

  // The handlers as a tool writes them, for where codeagent-sync lies.
  datatype Handlers = Handlers(start: string, stop: string, prompt: string)

  function Ours(t: Handlers): seq<OurHook> {
    [OurHook("SessionStart", OurGroup("startup|resume", t.start)),
     OurHook("Stop", OurGroup("", t.stop)),
     OurHook("UserPromptSubmit", OurGroup("", t.prompt))]
  }

  function EventAt(events: seq<Event>, key: string): (i: nat)
    ensures i <= |events| && (i < |events| ==> events[i].key == key)
    ensures forall k :: 0 <= k < i ==> events[k].key != key
  {
    if events == [] then 0 else if events[0].key == key then 0 else EventAt(events[1..], key) + 1
  }

  function Added(events: seq<Event>, h: OurHook): (r: seq<Event>)
    requires Decoded(events)
    ensures Decoded(r)
  {
    var i := EventAt(events, h.event);
    if i == |events| then events + [Event(h.event, Some([h.group]))]
    else events[i := Event(h.event, Some(events[i].groups.value + [h.group]))]
  }

  function AddedAll(events: seq<Event>, hs: seq<OurHook>): (r: seq<Event>)
    requires Decoded(events)
    ensures Decoded(r)
  {
    if hs == [] then events else Added(AddedAll(events, hs[..|hs| - 1]), hs[|hs| - 1])
  }

  // --------------------------------------------------------------- the file

  // The events of a file, or why they cannot be read.
  function EventsOf(top: File): Result<seq<Event>, Failure> {
    var i := HooksAt(top);
    if i == |top| then Ok([])
    else if top[i].value.None? then Err(BadHooks)
    else
      var events := top[i].value.value;
      var k := FirstBad(events);
      if k < |events| then Err(BadEvent(events[k].key)) else Ok(events)
  }

  function FirstBad(events: seq<Event>): (i: nat)
    ensures i <= |events| && (i < |events| ==> events[i].groups.None?)
    ensures forall k :: 0 <= k < i ==> events[k].groups.Some?
  {
    if events == [] then 0 else if events[0].groups.None? then 0 else FirstBad(events[1..]) + 1
  }

  // The file with these events: an empty hooks object is not kept.
  function Put(top: File, events: seq<Event>): File {
    var i := HooksAt(top);
    if events == [] then if i < |top| then top[..i] + top[i + 1..] else top
    else if i < |top| then top[i := HooksMember(Some(events))]
    else top + [HooksMember(Some(events))]
  }

  function Removed(top: File): Result<File, Failure> {
    match EventsOf(top)
    case Err(e) => Err(e)
    case Ok(events) => Ok(Put(top, Without(events)))
  }

  function Installed(top: File, hs: seq<OurHook>): Result<File, Failure> {
    match EventsOf(top)
    case Err(e) => Err(e)
    case Ok(events) => Ok(Put(top, AddedAll(Without(events), hs)))
  }

  // -------------------------------------------------------------- the loops

  method ForeignHandlers(hs: seq<Handler>) returns (rest: seq<Handler>)
    ensures rest == Foreign(hs)
  {
    rest := [];
    for k := 0 to |hs|
      invariant rest == Foreign(hs[..k])
    {
      assert hs[..k + 1][..k] == hs[..k];
      if !hs[k].ours { rest := rest + [hs[k]]; }
    }
    assert hs[..|hs|] == hs;
  }

  lemma NoneOurs()
    ensures !AnyOurs([])
  {
  }

  lemma AnyOursSnoc(gs: seq<Group>, g: Group)
    ensures AnyOurs(gs + [g]) <==> AnyOurs(gs) || HasOurs(g)
  {
    hide HasOurs;
    assert g in gs + [g];
  }

  method WithoutGroups(gs: seq<Group>) returns (kept: seq<Group>, changed: bool)
    ensures kept == GroupsWithout(gs) && changed == AnyOurs(gs)
  {
    hide AnyOurs, CountOurs, Foreign, HooksAt;
    kept, changed := [], false;
    NoneOurs();
    for i := 0 to |gs|
      invariant kept == GroupsWithout(gs[..i]) && changed == AnyOurs(gs[..i])
    {
      assert gs[..i + 1][..i] == gs[..i] && gs[..i + 1] == gs[..i] + [gs[i]];
      AnyOursSnoc(gs[..i], gs[i]);
      var hs := HandlersOf(gs[i]);
      var ours := CountOurs(hs);
      if ours == 0 {
        kept := kept + [gs[i]];
        continue;
      }
      changed := true;
      if ours == |hs| { continue; }
      var rest := ForeignHandlers(hs);
      kept := kept + [Group(gs[i].fields[HooksAt(gs[i].fields) := HooksMember(rest)])];
    }
    assert gs[..|gs|] == gs;
  }

  method WithoutEvents(events: seq<Event>) returns (r: Result<seq<Event>, Failure>)
    ensures r == if FirstBad(events) < |events| then Err(BadEvent(events[FirstBad(events)].key))
                 else Ok(Without(events))
  {
    hide EventWithout, GroupsWithout, AnyOurs;
    var out: seq<Event> := [];
    for i := 0 to |events|
      invariant Decoded(events[..i]) && out == Without(events[..i]) && i <= FirstBad(events)
    {
      assert events[..i + 1][..i] == events[..i];
      if events[i].groups.None? { return Err(BadEvent(events[i].key)); }
      var kept, changed := WithoutGroups(events[i].groups.value);
      OneEvent(events[i], kept, changed);
      if !changed {
        out := out + [events[i]];
      } else if |kept| > 0 {
        out := out + [Event(events[i].key, Some(kept))];
      }
    }
    assert events[..|events|] == events;
    return Ok(out);
  }

  lemma OneEvent(ev: Event, kept: seq<Group>, changed: bool)
    requires ev.groups.Some? && kept == GroupsWithout(ev.groups.value) && changed == AnyOurs(ev.groups.value)
    ensures EventWithout(ev)
            == if !changed then Some(ev) else if kept == [] then None else Some(Event(ev.key, Some(kept)))
  {
  }

  method FindEvent(events: seq<Event>, key: string) returns (i: int)
    ensures i == if EventAt(events, key) == |events| then -1 else EventAt(events, key)
  {
    for k := 0 to |events|
      invariant k <= EventAt(events, key)
    {
      if events[k].key == key { return k; }
    }
    return -1;
  }

  // The group goes to the end of its event, or of an empty list where there
  // is none.
  lemma AddedThere(events: seq<Event>, h: OurHook)
    requires Decoded(events)
    ensures var i := EventAt(events, h.event);
            var more := if i == |events| then events + [Event(h.event, Some([]))] else events;
            Added(events, h) == more[i := Event(h.event, Some(more[i].groups.value + [h.group]))]
  {
    assert [] + [h.group] == [h.group];
  }

  method AddHooks(kept: seq<Event>, hs: seq<OurHook>) returns (out: seq<Event>)
    requires Decoded(kept)
    ensures out == AddedAll(kept, hs)
  {
    hide Added, EventAt;
    out := kept;
    for n := 0 to |hs|
      invariant Decoded(out) && out == AddedAll(kept, hs[..n])
    {
      assert hs[..n + 1][..n] == hs[..n];
      var h := hs[n];
      var k := FindEvent(out, h.event);
      AddedThere(out, h);
      if k < 0 {
        out := out + [Event(h.event, Some([]))];
        k := |out| - 1;
      }
      out := out[k := Event(h.event, Some(out[k].groups.value + [h.group]))];
    }
    assert hs[..|hs|] == hs;
  }

  method Install(top: File, hs: seq<OurHook>) returns (r: Result<File, Failure>)
    ensures r == Installed(top, hs)
  {
    var i := HooksAt(top);
    var events: seq<Event> := [];
    if i < |top| {
      if top[i].value.None? { return Err(BadHooks); }
      events := top[i].value.value;
    }
    var kept := WithoutEvents(events);
    if kept.Err? { return Err(kept.error); }
    var out := AddHooks(kept.value, hs);
    return Ok(Put(top, out));
  }

  method Remove(top: File) returns (r: Result<File, Failure>)
    ensures r == Removed(top)
  {
    var i := HooksAt(top);
    var events: seq<Event> := [];
    if i < |top| {
      if top[i].value.None? { return Err(BadHooks); }
      events := top[i].value.value;
    }
    var kept := WithoutEvents(events);
    if kept.Err? { return Err(kept.error); }
    return Ok(Put(top, kept.value));
  }

  // ------------------------------------------------------ foreign content

  lemma {:induction false} ForeignIsForeign(hs: seq<Handler>)
    ensures CountOurs(Foreign(hs)) == 0 && |Foreign(hs)| == |hs| - CountOurs(hs)
  {
    if hs != [] {
      ForeignIsForeign(hs[..|hs| - 1]);
    }
  }

  lemma HooksAtIsFirst<T>(ms: seq<Member<T>>, i: nat)
    requires i < |ms| && ms[i].HooksMember? && forall k :: 0 <= k < i ==> !ms[k].HooksMember?
    ensures HooksAt(ms) == i
  {
  }

  // What is left of a group holds no handler of ours, and stays as it is.
  lemma GroupIsClean(g: Group)
    requires GroupWithout(g).Some?
    ensures !HasOurs(GroupWithout(g).value) && GroupWithout(GroupWithout(g).value) == GroupWithout(g)
  {
    var hs, i := HandlersOf(g), HooksAt(g.fields);
    if CountOurs(hs) != 0 {
      var left := g.fields[i := HooksMember(Foreign(hs))];
      HooksAtIsFirst(left, i);
      ForeignIsForeign(hs);
      assert HandlersOf(Group(left)) == Foreign(hs);
    }
  }

  lemma {:induction false} GroupsAreClean(gs: seq<Group>)
    ensures !AnyOurs(GroupsWithout(gs))
    ensures GroupsWithout(GroupsWithout(gs)) == GroupsWithout(gs)
    ensures !AnyOurs(gs) ==> GroupsWithout(gs) == gs
  {
    hide GroupWithout, HasOurs;
    if gs != [] {
      var init, g := gs[..|gs| - 1], gs[|gs| - 1];
      assert gs == init + [g];
      GroupsAreClean(init);
      var left := GroupsWithout(init);
      match GroupWithout(g)
      case None =>
        NoOursStays(g);
        assert g in gs;
      case Some(x) =>
        GroupIsClean(g);
        NoOursStays(g);
        assert (left + [x])[..|left|] == left;
        assert g in gs;
        assert !AnyOurs(gs) ==> !AnyOurs(init);
    }
  }

  lemma NoOursStays(g: Group)
    ensures !HasOurs(g) ==> GroupWithout(g) == Some(g)
  {
  }

  // A list of events in two parts.
  lemma {:induction false} WithoutAppend(a: seq<Event>, b: seq<Event>)
    requires Decoded(a) && Decoded(b)
    ensures Decoded(a + b) && Without(a + b) == Without(a) + Without(b)
  {
    hide EventWithout, Without;
    if b == [] {
      NothingWithout();
      assert a + b == a;
    } else {
      var init := b[..|b| - 1];
      WithoutAppend(a, init);
      assert (a + b)[..|a + b| - 1] == a + init;
      WithoutLast(b);
      WithoutLast(a + b);
    }
  }

  lemma NothingWithout()
    ensures Without([]) == []
  {
  }

  lemma WithoutLast(events: seq<Event>)
    requires Decoded(events) && events != []
    ensures Without(events) == match EventWithout(events[|events| - 1])
                               case None => Without(events[..|events| - 1])
                               case Some(ev) => Without(events[..|events| - 1]) + [ev]
  {
    hide EventWithout;
  }

  lemma WithoutOne(ev: Event)
    requires ev.groups.Some?
    ensures Without([ev]) == match EventWithout(ev) case None => [] case Some(x) => [x]
  {
    assert [ev][..0] == [];
    assert Without([]) == [];
  }

  lemma EventIsClean(ev: Event)
    requires ev.groups.Some? && EventWithout(ev).Some?
    ensures var x := EventWithout(ev).value;
            x.key == ev.key && x.groups.Some? && !AnyOurs(x.groups.value) && EventWithout(x) == Some(x)
  {
    GroupsAreClean(ev.groups.value);
  }

  ghost predicate Clean(events: seq<Event>) {
    Decoded(events) && forall i :: 0 <= i < |events| ==> !AnyOurs(events[i].groups.value)
  }

  // Nothing of ours is left, and a file without our hooks stays as it is.
  lemma RemovedIsClean(events: seq<Event>)
    requires Decoded(events)
    ensures Clean(Without(events)) && Without(Without(events)) == Without(events)
    ensures Clean(events) ==> Without(events) == events
  {
    hide Without, Clean;
    WithoutCleans(events);
    CleanStays(Without(events));
    if Clean(events) { CleanStays(events); }
  }

  lemma {:induction false} WithoutCleans(events: seq<Event>)
    requires Decoded(events)
    ensures Clean(Without(events))
  {
    hide AnyOurs, EventWithout;
    if events != [] {
      var ev := events[|events| - 1];
      WithoutCleans(events[..|events| - 1]);
      if EventWithout(ev).Some? { EventIsClean(ev); }
    }
  }

  lemma {:induction false} CleanStays(events: seq<Event>)
    requires Clean(events)
    ensures Without(events) == events
  {
    hide AnyOurs;
    if events != [] {
      CleanStays(events[..|events| - 1]);
      assert events == events[..|events| - 1] + [events[|events| - 1]];
    }
  }

  // ----------------------------------------------- removal undoes installing

  ghost predicate AllOurs(g: Group) {
    HasOurs(g) && CountOurs(HandlersOf(g)) == |HandlersOf(g)|
  }

  // One hook an event, holding nothing but ours.
  ghost predicate OurHooks(hs: seq<OurHook>) {
    && (forall i :: 0 <= i < |hs| ==> AllOurs(hs[i].group))
    && (forall i, j :: 0 <= i < j < |hs| ==> hs[i].event != hs[j].event)
  }

  lemma OursAreOurs(t: Handlers)
    ensures OurHooks(Ours(t))
  {
    var a, b := OurGroup("startup|resume", t.start), OurGroup("", t.stop);
    assert a.fields[1] == HooksMember([Handler(true, t.start)]);
    OneHandler(a, 1);
    OneHandler(b, 0);
    OneHandler(OurGroup("", t.prompt), 0);
    hide AllOurs, OurGroup;
  }

  lemma OneHandler(g: Group, i: nat)
    requires i < |g.fields| && g.fields[i].HooksMember? && |g.fields[i].value| == 1 && g.fields[i].value[0].ours
    requires forall k :: 0 <= k < i ==> !g.fields[k].HooksMember?
    ensures AllOurs(g)
  {
    HooksAtIsFirst(g.fields, i);
    var hs := g.fields[i].value;
    assert hs[..0] == [] && CountOurs([]) == 0;
    assert CountOurs(hs) == 1;
  }

  // The first event of this name holds an empty list.
  ghost predicate EmptyAt(events: seq<Event>, key: string) {
    var i := EventAt(events, key);
    i < |events| && events[i].groups == Some([])
  }

  lemma GroupsWithoutSnoc(gs: seq<Group>, g: Group)
    requires AllOurs(g)
    ensures GroupsWithout(gs + [g]) == GroupsWithout(gs) && AnyOurs(gs + [g])
  {
    assert (gs + [g])[..|gs|] == gs;
    assert g in gs + [g];
  }

  // An event with a group of ours added: without ours it is what it was, but
  // an empty list is not kept.
  lemma EventWithoutAdded(ev: Event, g: Group)
    requires ev.groups.Some? && AllOurs(g)
    ensures var x := Event(ev.key, Some(ev.groups.value + [g]));
            EventWithout(x) == if ev.groups.value == [] then None else EventWithout(ev)
  {
    GroupsWithoutSnoc(ev.groups.value, g);
    GroupsAreClean(ev.groups.value);
  }

  // Adding one hook and taking ours out again.
  lemma {:induction false} WithoutAdded(events: seq<Event>, h: OurHook)
    requires Decoded(events) && AllOurs(h.group)
    ensures !EmptyAt(events, h.event) ==> Without(Added(events, h)) == Without(events)
    ensures EmptyAt(events, h.event) ==> |Without(Added(events, h))| < |Without(events)|
  {
    hide EventWithout, AllOurs, Without, EventAt;
    var i := EventAt(events, h.event);
    if i == |events| {
      var ev := Event(h.event, Some([]));
      assert [] + [h.group] == [h.group];
      EventWithoutAdded(ev, h.group);
      WithoutAppend(events, [Event(h.event, Some([h.group]))]);
      WithoutOne(Event(h.event, Some([h.group])));
    } else {
      var a, b, ev := events[..i], events[i + 1..], events[i];
      var x := Event(h.event, Some(ev.groups.value + [h.group]));
      assert events == a + [ev] + b && Added(events, h) == a + [x] + b;
      EventWithoutAdded(ev, h.group);
      WithoutMiddle(a, ev, b);
      WithoutMiddle(a, x, b);
      EmptyEvent(ev);
    }
  }

  lemma {:induction false} WithoutMiddle(a: seq<Event>, ev: Event, b: seq<Event>)
    requires Decoded(a) && Decoded(b) && ev.groups.Some?
    ensures Decoded(a + [ev] + b)
    ensures Without(a + [ev] + b)
            == Without(a) + (match EventWithout(ev) case None => [] case Some(x) => [x]) + Without(b)
  {
    hide EventWithout, Without;
    WithoutAppend(a, [ev]);
    WithoutAppend(a + [ev], b);
    WithoutOne(ev);
  }

  lemma EmptyEvent(ev: Event)
    requires ev.groups.Some?
    ensures ev.groups.value == [] ==> EventWithout(ev) == Some(ev)
  {
  }

  // Adding a hook leaves the events of other names as they are.
  lemma OthersStay(events: seq<Event>, h: OurHook, key: string)
    requires Decoded(events) && key != h.event
    ensures EmptyAt(Added(events, h), key) <==> EmptyAt(events, key)
  {
    EventAtIs(events, Added(events, h), key);
  }

  lemma EventAtIs(events: seq<Event>, more: seq<Event>, key: string)
    requires |events| <= |more|
    requires forall i :: 0 <= i < |events| ==> (events[i].key == key <==> more[i].key == key)
    requires forall i :: 0 <= i < |events| && events[i].key == key ==> more[i] == events[i]
    requires forall i :: |events| <= i < |more| ==> more[i].key != key
    ensures EmptyAt(more, key) <==> EmptyAt(events, key)
  {
    var i, j := EventAt(events, key), EventAt(more, key);
    assert i < |events| ==> j == i;
    assert i == |events| ==> j == |more|;
  }

  lemma {:induction false} OthersStayAll(events: seq<Event>, hs: seq<OurHook>, key: string)
    requires Decoded(events) && forall i :: 0 <= i < |hs| ==> hs[i].event != key
    ensures EmptyAt(AddedAll(events, hs), key) <==> EmptyAt(events, key)
  {
    hide EmptyAt;
    if hs != [] {
      OthersStayAll(events, hs[..|hs| - 1], key);
      OthersStay(AddedAll(events, hs[..|hs| - 1]), hs[|hs| - 1], key);
    }
  }

  ghost predicate SomeEmpty(events: seq<Event>, hs: seq<OurHook>) {
    exists i :: 0 <= i < |hs| && EmptyAt(events, hs[i].event)
  }

  lemma {:induction false} WithoutAddedAll(events: seq<Event>, hs: seq<OurHook>)
    requires Decoded(events) && OurHooks(hs)
    ensures !SomeEmpty(events, hs) ==> Without(AddedAll(events, hs)) == Without(events)
    ensures SomeEmpty(events, hs) ==> |Without(AddedAll(events, hs))| < |Without(events)|
  {
    hide EmptyAt, AllOurs, Without, Added, SomeEmpty;
    NoneEmpty(events);
    if hs != [] {
      var n := |hs| - 1;
      WithoutAddedAll(events, hs[..n]);
      OthersStayAll(events, hs[..n], hs[n].event);
      WithoutAdded(AddedAll(events, hs[..n]), hs[n]);
      SomeEmptySnoc(events, hs[..n], hs[n]);
      assert hs == hs[..n] + [hs[n]];
    }
  }

  lemma NoneEmpty(events: seq<Event>)
    ensures !SomeEmpty(events, [])
  {
  }

  lemma SomeEmptySnoc(events: seq<Event>, hs: seq<OurHook>, h: OurHook)
    ensures SomeEmpty(events, hs + [h]) <==> SomeEmpty(events, hs) || EmptyAt(events, h.event)
  {
    hide EmptyAt;
    var all := hs + [h];
    if SomeEmpty(events, hs) {
      var i :| 0 <= i < |hs| && EmptyAt(events, hs[i].event);
      assert all[i] == hs[i];
    }
    if EmptyAt(events, h.event) { assert all[|hs|] == h; }
  }

  // Taking our hooks out after installing them gives what taking them out
  // before does, exactly when no event of ours was left with an empty list.
  lemma RemoveUndoesInstall(events: seq<Event>, hs: seq<OurHook>)
    requires Decoded(events) && OurHooks(hs)
    ensures Without(AddedAll(Without(events), hs)) == Without(events) <==> !SomeEmpty(Without(events), hs)
  {
    RemovedIsClean(events);
    WithoutAddedAll(Without(events), hs);
  }

  // Installing again changes nothing then, whatever the names.
  lemma InstallTwice(events: seq<Event>, hs: seq<OurHook>)
    requires Decoded(events) && OurHooks(hs) && !SomeEmpty(Without(events), hs)
    ensures AddedAll(Without(AddedAll(Without(events), hs)), hs) == AddedAll(Without(events), hs)
  {
    RemoveUndoesInstall(events, hs);
  }

  lemma NothingOurs()
    ensures !AnyOurs([])
  {
  }

  lemma NothingToRemove(ev: Event)
    requires ev.groups.Some? && !AnyOurs(ev.groups.value)
    ensures EventWithout(ev) == Some(ev)
  {
  }

  // With an empty list, it can move that event to the end.
  lemma {:induction false} InstallTwiceMoves(h: OurHook, other: Event)
    requires AllOurs(h.group) && other.key != h.event && other.groups.Some? && !AnyOurs(other.groups.value)
    ensures var events := [Event(h.event, Some([])), other];
            var once := AddedAll(Without(events), [h]);
            |once| == 2 && once[0].key == h.event && AddedAll(Without(once), [h]) == [once[1], once[0]]
  {
    hide AllOurs, AnyOurs, EventWithout, GroupsWithout;
    var events := [Event(h.event, Some([])), other];
    NothingOurs();
    CleanStays(events);
    NothingToRemove(other);
    assert [h][..0] == [] && [] + [h.group] == [h.group];
    var x := Event(h.event, Some([h.group]));
    assert Added(events, h) == [x, other];
    EventWithoutAdded(events[0], h.group);
    WithoutAppend([x], [other]);
    WithoutOne(x);
    WithoutOne(other);
    assert [x] + [other] == [x, other] && [] + [other] == [other];
    assert EventAt([other], h.event) == 1;
    assert Added([other], h) == [other, x];
  }

  // ------------------------------------------------ when installing settles

  ghost predicate DistinctEvents(events: seq<Event>) {
    forall i, j :: 0 <= i < j < |events| ==> events[i].key != events[j].key
  }

  // The hook of an event, if it is one of ours.
  function HookFor(hs: seq<OurHook>, key: string): Option<OurHook> {
    if hs == [] then None
    else if hs[|hs| - 1].event == key then Some(hs[|hs| - 1])
    else HookFor(hs[..|hs| - 1], key)
  }

  function GrownEvent(ev: Event, hs: seq<OurHook>): Event
    requires ev.groups.Some?
  {
    match HookFor(hs, ev.key)
    case None => ev
    case Some(h) => Event(ev.key, Some(ev.groups.value + [h.group]))
  }

  function Grown(events: seq<Event>, hs: seq<OurHook>): seq<Event>
    requires Decoded(events)
  {
    seq(|events|, i requires 0 <= i < |events| => GrownEvent(events[i], hs))
  }

  // The hooks whose event the file does not have.
  function Missing(events: seq<Event>, hs: seq<OurHook>): seq<OurHook> {
    if hs == [] then []
    else
      var init := Missing(events, hs[..|hs| - 1]);
      if EventAt(events, hs[|hs| - 1].event) == |events| then init + [hs[|hs| - 1]] else init
  }

  function NewEvent(h: OurHook): Event {
    Event(h.event, Some([h.group]))
  }

  function NewEvents(hs: seq<OurHook>): seq<Event> {
    seq(|hs|, i requires 0 <= i < |hs| => NewEvent(hs[i]))
  }

  // An event of ours whose list is empty.
  predicate LeftEmpty(ev: Event, hs: seq<OurHook>) {
    HookFor(hs, ev.key).Some? && ev.groups == Some([])
  }

  function NotLeftEmpty(events: seq<Event>, hs: seq<OurHook>): seq<Event> {
    if events == [] then []
    else
      var init := NotLeftEmpty(events[..|events| - 1], hs);
      if LeftEmpty(events[|events| - 1], hs) then init else init + [events[|events| - 1]]
  }

  // The events left with an empty list come last, in the order of the hooks,
  // and before every hook that has no event at all.
  ghost predicate EmptyOnesLast(events: seq<Event>, hs: seq<OurHook>) {
    var kept := NotLeftEmpty(events, hs);
    var n, due := |kept|, Missing(kept, hs);
    && n <= |events| <= n + |due| && events[..n] == kept
    && forall i :: n <= i < |events| ==> events[i].key == due[i - n].event
  }

  lemma {:induction false} HookForIs(hs: seq<OurHook>, key: string)
    ensures HookFor(hs, key).None? <==> forall i :: 0 <= i < |hs| ==> hs[i].event != key
    ensures HookFor(hs, key).Some? ==> HookFor(hs, key).value in hs && HookFor(hs, key).value.event == key
  {
    if hs != [] { HookForIs(hs[..|hs| - 1], key); }
  }

  lemma HookForMember(hs: seq<OurHook>, i: nat)
    requires OurHooks(hs) && i < |hs|
    ensures HookFor(hs, hs[i].event) == Some(hs[i])
  {
    HookForIs(hs, hs[i].event);
  }

  lemma {:induction false} MissingAre(events: seq<Event>, hs: seq<OurHook>)
    ensures forall h :: h in Missing(events, hs) <==> h in hs && EventAt(events, h.event) == |events|
    ensures OurHooks(hs) ==> OurHooks(Missing(events, hs))
  {
    hide AllOurs, EventAt;
    if hs != [] {
      var init, h := hs[..|hs| - 1], hs[|hs| - 1];
      assert hs == init + [h];
      MissingAre(events, init);
      MissingSnoc(events, init, h);
      hide Missing;
      if OurHooks(hs) { OneHookMore(Missing(events, init), init, h); }
    }
  }

  lemma OneHookMore(ms: seq<OurHook>, init: seq<OurHook>, h: OurHook)
    requires OurHooks(init + [h]) && OurHooks(ms) && forall m :: m in ms ==> m in init
    ensures OurHooks(ms + [h])
  {
    hide AllOurs;
    assert (init + [h])[|init|] == h;
    forall i | 0 <= i < |ms| ensures ms[i].event != h.event {
      assert ms[i] in init;
      var k :| 0 <= k < |init| && init[k] == ms[i];
      assert (init + [h])[k] == ms[i];
    }
  }

  lemma HasEvent(events: seq<Event>, key: string)
    ensures EventAt(events, key) == |events| <==> forall i :: 0 <= i < |events| ==> events[i].key != key
  {
  }

  // Adding one more hook to a list that has got those before it.
  lemma AddedNext(events: seq<Event>, hs: seq<OurHook>, h: OurHook)
    requires Decoded(events) && DistinctEvents(events) && OurHooks(hs + [h])
    ensures Decoded(Grown(events, hs) + NewEvents(Missing(events, hs)))
    ensures Added(Grown(events, hs) + NewEvents(Missing(events, hs)), h)
            == Grown(events, hs + [h]) + NewEvents(Missing(events, hs + [h]))
  {
    hide AllOurs, EventAt, Missing, HookFor;
    var ms, more := Missing(events, hs), Missing(events, hs + [h]);
    var all := Grown(events, hs) + NewEvents(ms);
    MissingSnoc(events, hs, h);
    NewHookIsNew(events, hs, h);
    forall i | 0 <= i < |events|
      ensures HookFor(hs + [h], events[i].key)
              == if events[i].key == h.event then Some(h) else HookFor(hs, events[i].key)
    {
      HookForSnoc(hs, h, events[i].key);
    }
    var at := EventAt(events, h.event);
    if at < |events| {
      EventAtFirst(all, h.event, at);
      assert Grown(events, hs)[at] == events[at];
      assert Added(all, h) == Grown(events, hs + [h]) + NewEvents(more);
    } else {
      HasEvent(all, h.event);
      HasEvent(events, h.event);
      assert NewEvents(more) == NewEvents(ms) + [NewEvent(h)];
      assert Grown(events, hs + [h]) == Grown(events, hs);
      assert all + [NewEvent(h)] == Grown(events, hs) + (NewEvents(ms) + [NewEvent(h)]);
    }
  }

  lemma MissingSnoc(events: seq<Event>, hs: seq<OurHook>, h: OurHook)
    ensures Missing(events, hs + [h])
            == if EventAt(events, h.event) == |events| then Missing(events, hs) + [h] else Missing(events, hs)
  {
    assert (hs + [h])[..|hs|] == hs;
  }

  lemma HookForSnoc(hs: seq<OurHook>, h: OurHook, key: string)
    ensures HookFor(hs + [h], key) == if h.event == key then Some(h) else HookFor(hs, key)
  {
    assert (hs + [h])[..|hs|] == hs;
  }

  lemma NewHookIsNew(events: seq<Event>, hs: seq<OurHook>, h: OurHook)
    requires OurHooks(hs + [h])
    ensures HookFor(hs, h.event).None?
    ensures forall i :: 0 <= i < |Missing(events, hs)| ==> Missing(events, hs)[i].event != h.event
  {
    hide AllOurs, EventAt;
    var all := hs + [h];
    forall i | 0 <= i < |hs| ensures hs[i].event != h.event { assert all[i] == hs[i] && all[|hs|] == h; }
    HookForIs(hs, h.event);
    MissingAre(events, hs);
    forall i | 0 <= i < |Missing(events, hs)| ensures Missing(events, hs)[i].event != h.event {
      assert Missing(events, hs)[i] in hs;
    }
  }

  lemma EventAtFirst(events: seq<Event>, key: string, i: nat)
    requires i < |events| && events[i].key == key && forall k :: 0 <= k < i ==> events[k].key != key
    ensures EventAt(events, key) == i
  {
  }

  // An installation adds to the events there are and then appends the rest.
  lemma {:induction false} AddedAllIs(events: seq<Event>, hs: seq<OurHook>)
    requires Decoded(events) && DistinctEvents(events) && OurHooks(hs)
    ensures AddedAll(events, hs) == Grown(events, hs) + NewEvents(Missing(events, hs))
  {
    if hs == [] {
      assert Grown(events, []) == events;
    } else {
      hide Added, AllOurs, Grown, Missing, NewEvents;
      var init, h := hs[..|hs| - 1], hs[|hs| - 1];
      assert hs == init + [h];
      AddedAllIs(events, init);
      AddedNext(events, init, h);
    }
  }

  lemma NewEventGoes(h: OurHook)
    requires AllOurs(h.group)
    ensures EventWithout(NewEvent(h)) == None
  {
    hide AllOurs, EventWithout;
    assert [] + [h.group] == [h.group];
    EventWithoutAdded(Event(h.event, Some([])), h.group);
  }

  lemma {:induction false} NewEventsGo(hs: seq<OurHook>)
    requires forall i :: 0 <= i < |hs| ==> AllOurs(hs[i].group)
    ensures Without(NewEvents(hs)) == []
  {
    hide AllOurs, EventWithout;
    if hs != [] {
      NewEventsGo(hs[..|hs| - 1]);
      assert NewEvents(hs)[..|hs| - 1] == NewEvents(hs[..|hs| - 1]);
      NewEventGoes(hs[|hs| - 1]);
    }
  }

  lemma GrownEventWithout(ev: Event, hs: seq<OurHook>)
    requires ev.groups.Some? && !AnyOurs(ev.groups.value) && OurHooks(hs)
    ensures EventWithout(GrownEvent(ev, hs)) == if LeftEmpty(ev, hs) then None else Some(ev)
  {
    hide AllOurs, EventWithout, AnyOurs, HookFor;
    HookForIs(hs, ev.key);
    NothingToRemove(ev);
    if HookFor(hs, ev.key).Some? {
      var h := HookFor(hs, ev.key).value;
      var i :| 0 <= i < |hs| && hs[i] == h;
      EventWithoutAdded(ev, h.group);
    }
  }

  lemma {:induction false} GrownWithout(events: seq<Event>, hs: seq<OurHook>)
    requires Clean(events) && OurHooks(hs)
    ensures Without(Grown(events, hs)) == NotLeftEmpty(events, hs)
  {
    hide AllOurs, EventWithout, AnyOurs, HookFor, LeftEmpty, GrownEvent;
    if events != [] {
      var init := events[..|events| - 1];
      GrownWithout(init, hs);
      assert Grown(events, hs)[..|init|] == Grown(init, hs);
      GrownEventWithout(events[|init|], hs);
    }
  }

  // Taking our hooks out again leaves everything but the empty lists.
  lemma InstalledWithout(events: seq<Event>, hs: seq<OurHook>)
    requires Clean(events) && DistinctEvents(events) && OurHooks(hs)
    ensures Without(AddedAll(events, hs)) == NotLeftEmpty(events, hs)
  {
    hide Without, Grown, Missing, NewEvents, AllOurs, AnyOurs;
    AddedAllIs(events, hs);
    GrownIsDecoded(events, hs);
    MissingAre(events, hs);
    WithoutAppend(Grown(events, hs), NewEvents(Missing(events, hs)));
    GrownWithout(events, hs);
    NewEventsGo(Missing(events, hs));
  }

  lemma GrownIsDecoded(events: seq<Event>, hs: seq<OurHook>)
    requires Decoded(events)
    ensures Decoded(Grown(events, hs)) && Decoded(NewEvents(Missing(events, hs)))
  {
  }

  lemma {:induction false} KeptAre(events: seq<Event>, hs: seq<OurHook>)
    ensures forall ev :: ev in NotLeftEmpty(events, hs) <==> ev in events && !LeftEmpty(ev, hs)
    ensures |NotLeftEmpty(events, hs)| <= |events|
    ensures Decoded(events) ==> Decoded(NotLeftEmpty(events, hs))
    ensures DistinctEvents(events) ==> DistinctEvents(NotLeftEmpty(events, hs))
  {
    hide LeftEmpty;
    if events != [] {
      var init, ev := events[..|events| - 1], events[|events| - 1];
      assert events == init + [ev];
      KeptAre(init, hs);
      var ks := NotLeftEmpty(init, hs);
      if DistinctEvents(events) {
        forall i | 0 <= i < |ks| ensures ks[i].key != ev.key { assert ks[i] in init; }
      }
    }
  }

  lemma SameEvent(events: seq<Event>, ev: Event, i: nat)
    requires DistinctEvents(events) && i < |events| && ev in events && ev.key == events[i].key
    ensures ev == events[i]
  {
    var j :| 0 <= j < |events| && events[j] == ev;
    assert i == j;
  }

  // If a second installation changes nothing, the names show where the empty
  // lists stood.
  lemma UnchangedMeansLast(events: seq<Event>, hs: seq<OurHook>)
    requires Clean(events) && DistinctEvents(events) && OurHooks(hs)
    requires Decoded(NotLeftEmpty(events, hs))
    requires AddedAll(NotLeftEmpty(events, hs), hs) == AddedAll(events, hs)
    ensures EmptyOnesLast(events, hs)
  {
    hide AllOurs, AnyOurs, Missing, NotLeftEmpty, AddedAll, HookFor;
    var kept := NotLeftEmpty(events, hs);
    var n, due := |kept|, Missing(kept, hs);
    KeptAre(events, hs);
    AddedAllIs(events, hs);
    AddedAllIs(kept, hs);
    var once := Grown(events, hs) + NewEvents(Missing(events, hs));
    assert once == Grown(kept, hs) + NewEvents(due);
    forall i | 0 <= i < n ensures kept[i] == events[i] {
      assert once[i].key == kept[i].key && once[i].key == events[i].key;
      SameEvent(events, kept[i], i);
    }
    forall i | n <= i < |events| ensures i - n < |due| && events[i].key == due[i - n].event {
      assert once[i].key == events[i].key && once[i] == NewEvents(due)[i - n];
    }
  }

  lemma {:induction false} MissingTwice(kept: seq<Event>, events: seq<Event>, hs: seq<OurHook>)
    requires forall ev :: ev in kept ==> ev in events
    ensures Missing(events, Missing(kept, hs)) == Missing(events, hs)
  {
    hide EventAt;
    if hs != [] {
      var init, h := hs[..|hs| - 1], hs[|hs| - 1];
      MissingTwice(kept, events, init);
      MissingSnoc(events, Missing(kept, init), h);
      HasEvent(kept, h.event);
      HasEvent(events, h.event);
      if i :| 0 <= i < |kept| && kept[i].key == h.event {
        assert kept[i] in events;
      }
    }
  }

  lemma {:induction false} MissingSplit(events: seq<Event>, a: seq<OurHook>, b: seq<OurHook>)
    requires forall i :: 0 <= i < |a| ==> EventAt(events, a[i].event) < |events|
    requires forall i :: 0 <= i < |b| ==> EventAt(events, b[i].event) == |events|
    ensures Missing(events, a + b) == b
  {
    hide EventAt;
    if b != [] {
      MissingSplit(events, a, b[..|b| - 1]);
      assert (a + b)[..|a + b| - 1] == a + b[..|b| - 1];
    } else if a != [] {
      MissingSplit(events, a[..|a| - 1], []);
      assert a + [] == a && a[..|a| - 1] + [] == a[..|a| - 1];
    } else {
      assert a + b == [];
    }
  }

  // Where the empty lists come last, they are the first of the hooks that
  // are due.
  lemma LastAreDue(events: seq<Event>, hs: seq<OurHook>, i: nat)
    requires DistinctEvents(events) && OurHooks(hs) && EmptyOnesLast(events, hs)
    requires |NotLeftEmpty(events, hs)| <= i < |events| && Decoded(events)
    ensures GrownEvent(events[i], hs) == NewEvent(Missing(NotLeftEmpty(events, hs), hs)[i - |NotLeftEmpty(events, hs)|])
  {
    hide AllOurs, Missing, NotLeftEmpty, EventAt, HookFor;
    var kept := NotLeftEmpty(events, hs);
    var n, due := |kept|, Missing(kept, hs);
    KeptAre(events, hs);
    forall j | 0 <= j < n ensures kept[j] != events[i] { assert kept[j] == events[..n][j] == events[j]; }
    assert events[i] !in kept && LeftEmpty(events[i], hs);
    MissingAre(kept, hs);
    assert due[i - n] in due;
    var k :| 0 <= k < |hs| && hs[k] == due[i - n];
    HookForMember(hs, k);
    assert [] + [due[i - n].group] == [due[i - n].group];
  }

  lemma DueAfter(events: seq<Event>, hs: seq<OurHook>)
    requires DistinctEvents(events) && OurHooks(hs) && EmptyOnesLast(events, hs)
    ensures var kept := NotLeftEmpty(events, hs);
            var due := Missing(kept, hs);
            Missing(events, hs) == due[|events| - |kept|..]
  {
    hide AllOurs, Missing, NotLeftEmpty, EventAt;
    var kept := NotLeftEmpty(events, hs);
    var n, due := |kept|, Missing(kept, hs);
    var b := |events| - n;
    KeptAre(events, hs);
    MissingTwice(kept, events, hs);
    MissingAre(kept, hs);
    forall i | 0 <= i < b ensures EventAt(events, due[..b][i].event) < |events| {
      assert events[n + i].key == due[i].event;
      HasEvent(events, due[i].event);
    }
    forall i | 0 <= i < |due[b..]| ensures EventAt(events, due[b..][i].event) == |events| {
      HasEvent(events, due[b + i].event);
      HasEvent(kept, due[b + i].event);
      assert due[b + i] in due;
      forall k | 0 <= k < |events| ensures events[k].key != due[b + i].event {
        if k < n { assert events[..n][k] == kept[k]; } else { assert due[k - n].event != due[b + i].event; }
      }
    }
    MissingSplit(events, due[..b], due[b..]);
    assert due[..b] + due[b..] == due;
  }

  lemma LastMeansUnchanged(events: seq<Event>, hs: seq<OurHook>)
    requires Clean(events) && DistinctEvents(events) && OurHooks(hs) && EmptyOnesLast(events, hs)
    ensures Decoded(NotLeftEmpty(events, hs)) && AddedAll(NotLeftEmpty(events, hs), hs) == AddedAll(events, hs)
  {
    hide AllOurs, AnyOurs, Missing, NotLeftEmpty, AddedAll, GrownEvent, Grown, NewEvents, HookFor;
    var kept := NotLeftEmpty(events, hs);
    var n, due := |kept|, Missing(kept, hs);
    KeptAre(events, hs);
    AddedAllIs(events, hs);
    AddedAllIs(kept, hs);
    DueAfter(events, hs);
    forall i | n <= i < |events| ensures GrownEvent(events[i], hs) == NewEvent(due[i - n]) {
      LastAreDue(events, hs, i);
    }
    forall i | 0 <= i < n ensures events[i] == kept[i] { assert events[..n][i] == events[i]; }
    GrownEndsNew(events, kept, due, hs);
    var b := |events| - n;
    assert Grown(kept, hs) + (NewEvents(due[..b]) + NewEvents(due[b..]))
           == (Grown(kept, hs) + NewEvents(due[..b])) + NewEvents(due[b..]);
  }

  // Events that grow from nothing at the end are new ones.
  lemma {:induction false} GrownEndsNew(events: seq<Event>, kept: seq<Event>, due: seq<OurHook>, hs: seq<OurHook>)
    requires Decoded(events) && Decoded(kept) && |kept| <= |events| <= |kept| + |due|
    requires forall i :: 0 <= i < |kept| ==> events[i] == kept[i]
    requires forall i :: |kept| <= i < |events| ==> GrownEvent(events[i], hs) == NewEvent(due[i - |kept|])
    ensures var b := |events| - |kept|;
            && Grown(events, hs) == Grown(kept, hs) + NewEvents(due[..b])
            && NewEvents(due) == NewEvents(due[..b]) + NewEvents(due[b..])
  {
    hide GrownEvent;
  }

  // Installing twice is installing once exactly when the events left with an
  // empty list come last, in the order of the hooks.
  lemma InstallTwiceExactly(events: seq<Event>, hs: seq<OurHook>)
    requires Decoded(events) && OurHooks(hs) && DistinctEvents(Without(events))
    ensures AddedAll(Without(AddedAll(Without(events), hs)), hs) == AddedAll(Without(events), hs)
            <==> EmptyOnesLast(Without(events), hs)
  {
    hide Without, AddedAll, EmptyOnesLast, NotLeftEmpty;
    var left := Without(events);
    RemovedIsClean(events);
    InstalledWithout(left, hs);
    KeptAre(left, hs);
    if EmptyOnesLast(left, hs) { LastMeansUnchanged(left, hs); }
    if AddedAll(NotLeftEmpty(left, hs), hs) == AddedAll(left, hs) { UnchangedMeansLast(left, hs); }
  }

  // Event names are distinct (section 4 of RFC 8259), and removal keeps them so.
  lemma {:induction false} RemovalKeepsDistinct(events: seq<Event>)
    requires Decoded(events) && DistinctEvents(events)
    ensures DistinctEvents(Without(events))
    ensures forall ev :: ev in Without(events) ==> exists was :: was in events && was.key == ev.key
  {
    hide EventWithout;
    if events != [] {
      var init, ev := events[..|events| - 1], events[|events| - 1];
      assert events == init + [ev];
      RemovalKeepsDistinct(init);
      if EventWithout(ev).Some? {
        EventIsClean(ev);
        var left := Without(init);
        forall i | 0 <= i < |left| ensures left[i].key != ev.key {
          var was :| was in init && was.key == left[i].key;
          var j :| 0 <= j < |init| && init[j] == was;
          assert events[j].key != events[|init|].key;
        }
      }
    }
  }

  // The same of whole files.
  lemma RemoveUndoesInstallInFiles(top: File, hs: seq<OurHook>)
    requires EventsOf(top).Ok? && OurHooks(hs) && hs != []
    ensures Installed(top, hs).Ok?
    ensures Removed(Installed(top, hs).value) == Removed(top) <==> !SomeEmpty(Without(EventsOf(top).value), hs)
    ensures !SomeEmpty(Without(EventsOf(top).value), hs) ==>
              Installed(Installed(top, hs).value, hs) == Installed(top, hs)
  {
    hide Without, SomeEmpty, EventAt, Added;
    var events := EventsOf(top).value;
    var left := Without(events);
    var all := AddedAll(left, hs);
    AddedIsNotEmpty(left, hs);
    RemoveUndoesInstall(events, hs);
    PutRead(top, all);
    PutTwice(top, all, Without(all));
    PutTwice(top, all, all);
    PutTells(top, left, Without(all));
  }

  lemma AddedIsNotEmpty(events: seq<Event>, hs: seq<OurHook>)
    requires Decoded(events) && hs != []
    ensures AddedAll(events, hs) != []
  {
  }

  lemma PutRead(top: File, events: seq<Event>)
    requires EventsOf(top).Ok? && Decoded(events) && events != []
    ensures EventsOf(Put(top, events)) == Ok(events)
  {
    var i := HooksAt(top);
    HooksAtIsFirst(Put(top, events), i);
  }

  lemma PutTwice(top: File, first: seq<Event>, then_: seq<Event>)
    requires first != []
    ensures Put(Put(top, first), then_) == Put(top, then_)
  {
    var i := HooksAt(top);
    HooksAtIsFirst(Put(top, first), i);
    if then_ == [] && i == |top| {
      assert Put(top, first)[..i] + Put(top, first)[i + 1..] == top;
    }
  }

  // Different events make different files.
  lemma PutTells(top: File, a: seq<Event>, b: seq<Event>)
    ensures Put(top, a) == Put(top, b) <==> a == b
  {
    var i := HooksAt(top);
    if a != [] && b != [] && Put(top, a) == Put(top, b) {
      assert Put(top, a)[i] == HooksMember(Some(a)) && Put(top, b)[i] == HooksMember(Some(b));
    }
    if (a == []) != (b == []) {
      assert |Put(top, a)| != |Put(top, b)|;
    }
  }

  // ------------------------------------------- what is not ours stays, in order

  // The handlers that are not ours, in order.
  function NotOurs(hs: seq<Handler>): seq<Handler> {
    if hs == [] then [] else if hs[0].ours then NotOurs(hs[1..]) else [hs[0]] + NotOurs(hs[1..])
  }

  // What others have in a group: its members before and after the hooks,
  // whether it has hooks, and their handlers.
  datatype Share = Share(event: string, before: seq<Member<seq<Handler>>>, hooks: bool, handlers: seq<Handler>,
                         after: seq<Member<seq<Handler>>>)

  function ShareOf(event: string, g: Group): Share {
    var i := HooksAt(g.fields);
    Share(event, g.fields[..i], i < |g.fields|, NotOurs(HandlersOf(g)),
          if i < |g.fields| then g.fields[i + 1..] else [])
  }

  // A group belongs to others if it has a handler that is not ours, or none
  // that is.
  predicate IsOthers(g: Group) {
    (exists h :: h in HandlersOf(g) && !h.ours) || (forall h :: h in HandlersOf(g) ==> !h.ours)
  }

  function SharesIn(event: string, gs: seq<Group>): seq<Share> {
    if gs == [] then []
    else
      var init := SharesIn(event, gs[..|gs| - 1]);
      if IsOthers(gs[|gs| - 1]) then init + [ShareOf(event, gs[|gs| - 1])] else init
  }

  // All that others have, event by event and group by group.
  function Shares(events: seq<Event>): seq<Share>
    requires Decoded(events)
  {
    if events == [] then []
    else Shares(events[..|events| - 1]) + SharesIn(events[|events| - 1].key, events[|events| - 1].groups.value)
  }

  function SettingsOf<T>(ms: seq<Member<T>>): seq<Member<T>> {
    if ms == [] then []
    else
      var init := SettingsOf(ms[..|ms| - 1]);
      if ms[|ms| - 1].Setting? then init + [ms[|ms| - 1]] else init
  }

  lemma {:induction false} NotOursSnoc(hs: seq<Handler>, h: Handler)
    ensures NotOurs(hs + [h]) == if h.ours then NotOurs(hs) else NotOurs(hs) + [h]
  {
    if hs == [] {
      assert [] + [h] == [h] && [h][1..] == [];
    } else {
      NotOursSnoc(hs[1..], h);
      assert (hs + [h])[1..] == hs[1..] + [h];
    }
  }

  // The loop's filter keeps exactly those, and once kept they stay.
  lemma {:induction false} ForeignAreNotOurs(hs: seq<Handler>)
    ensures Foreign(hs) == NotOurs(hs)
  {
    if hs != [] {
      var init, h := hs[..|hs| - 1], hs[|hs| - 1];
      assert hs == init + [h];
      hide NotOurs;
      ForeignAreNotOurs(init);
      NotOursSnoc(init, h);
    }
  }

  lemma {:induction false} NoneIsOurs(hs: seq<Handler>)
    requires forall h :: h in hs ==> !h.ours
    ensures NotOurs(hs) == hs
  {
    if hs != [] {
      assert hs[0] in hs && forall h :: h in hs[1..] ==> h in hs;
      NoneIsOurs(hs[1..]);
    }
  }

  lemma {:induction false} AllAreCounted(hs: seq<Handler>)
    ensures CountOurs(hs) == |hs| <==> forall h :: h in hs ==> h.ours
  {
    if hs != [] {
      var init := hs[..|hs| - 1];
      assert hs == init + [hs[|hs| - 1]];
      AllAreCounted(init);
    }
  }

  // A group of others stays and keeps all they have in it; a group that is
  // ours alone goes.
  lemma GroupKeepsOthers(event: string, g: Group)
    ensures GroupWithout(g).Some? <==> IsOthers(g)
    ensures GroupWithout(g).Some? ==>
              IsOthers(GroupWithout(g).value) && ShareOf(event, GroupWithout(g).value) == ShareOf(event, g)
  {
    var hs := HandlersOf(g);
    AllAreCounted(hs);
    hide NotOurs, HandlersOf, HooksAt, ShareOf, Foreign, CountOurs;
    if CountOurs(hs) != 0 && CountOurs(hs) != |hs| { MixedGroupKeeps(event, g); }
  }

  // A group with handlers of both.
  lemma MixedGroupKeeps(event: string, g: Group)
    requires CountOurs(HandlersOf(g)) != 0 && CountOurs(HandlersOf(g)) != |HandlersOf(g)|
    ensures GroupWithout(g).Some? && IsOthers(GroupWithout(g).value)
    ensures ShareOf(event, GroupWithout(g).value) == ShareOf(event, g)
  {
    var hs, i := HandlersOf(g), HooksAt(g.fields);
    var left := g.fields[i := HooksMember(Foreign(hs))];
    HooksAtIsFirst(left, i);
    assert HandlersOf(Group(left)) == Foreign(hs);
    hide NotOurs, HandlersOf, HooksAt, Foreign, CountOurs;
    ForeignAreNotOurs(hs);
    NotOursAreNot(hs);
    NoneIsOurs(Foreign(hs));
    assert left[..i] == g.fields[..i] && left[i + 1..] == g.fields[i + 1..];
  }

  lemma {:induction false} NotOursAreNot(hs: seq<Handler>)
    ensures forall h :: h in NotOurs(hs) ==> !h.ours
  {
    if hs != [] { NotOursAreNot(hs[1..]); }
  }

  lemma {:induction false} GroupsKeepOthers(event: string, gs: seq<Group>)
    ensures SharesIn(event, GroupsWithout(gs)) == SharesIn(event, gs)
  {
    hide IsOthers, GroupWithout, ShareOf;
    if gs != [] {
      var init, g := gs[..|gs| - 1], gs[|gs| - 1];
      GroupsKeepOthers(event, init);
      GroupKeepsOthers(event, g);
      if GroupWithout(g).Some? {
        var left := GroupsWithout(init);
        assert (left + [GroupWithout(g).value])[..|left|] == left;
      }
    }
  }

  lemma {:induction false} SharesAppend(a: seq<Event>, b: seq<Event>)
    requires Decoded(a) && Decoded(b)
    ensures Decoded(a + b) && Shares(a + b) == Shares(a) + Shares(b)
  {
    hide SharesIn;
    if b == [] {
      assert a + b == a;
    } else {
      SharesAppend(a, b[..|b| - 1]);
      assert (a + b)[..|a + b| - 1] == a + b[..|b| - 1];
    }
  }

  lemma SharesOne(ev: Event)
    requires ev.groups.Some?
    ensures Shares([ev]) == SharesIn(ev.key, ev.groups.value)
  {
    assert [ev][..0] == [] && Shares([]) == [];
  }

  lemma NoShares(event: string)
    ensures SharesIn(event, []) == []
  {
  }

  // Foreign handlers, groups and their settings keep content and order when
  // ours are taken out ...
  lemma {:induction false} RemoveKeepsOthers(events: seq<Event>)
    requires Decoded(events)
    ensures Shares(Without(events)) == Shares(events)
  {
    hide GroupsWithout, SharesIn, AnyOurs;
    if events != [] {
      var init, ev := events[..|events| - 1], events[|events| - 1];
      RemoveKeepsOthers(init);
      GroupsKeepOthers(ev.key, ev.groups.value);
      NoShares(ev.key);
      if EventWithout(ev).Some? {
        SharesAppend(Without(init), [EventWithout(ev).value]);
        SharesOne(EventWithout(ev).value);
      }
    }
  }

  // ... and an event that holds nothing of ours stays as it is, empty or not.
  lemma {:induction false} ForeignEventsStay(events: seq<Event>, ev: Event)
    requires Decoded(events) && ev in events && !AnyOurs(ev.groups.value)
    ensures ev in Without(events)
  {
    hide AnyOurs, GroupsWithout;
    var init, last := events[..|events| - 1], events[|events| - 1];
    assert events == init + [last];
    if ev != last { ForeignEventsStay(init, ev); }
  }

  lemma OursHaveNoShare(event: string, gs: seq<Group>, g: Group)
    requires AllOurs(g)
    ensures SharesIn(event, gs + [g]) == SharesIn(event, gs)
  {
    hide ShareOf;
    assert (gs + [g])[..|gs|] == gs;
    AllAreCounted(HandlersOf(g));
  }

  // ... and when they are put in.
  lemma {:induction false} AddKeepsOthers(events: seq<Event>, h: OurHook)
    requires Decoded(events) && AllOurs(h.group)
    ensures Shares(Added(events, h)) == Shares(events)
  {
    hide SharesIn, Shares, AllOurs, EventAt;
    var i := EventAt(events, h.event);
    if i == |events| {
      var x := Event(h.event, Some([h.group]));
      assert [] + [h.group] == [h.group];
      OursHaveNoShare(h.event, [], h.group);
      NoShares(h.event);
      SharesAppend(events, [x]);
      SharesOne(x);
    } else {
      var a, b, ev := events[..i], events[i + 1..], events[i];
      var x := Event(h.event, Some(ev.groups.value + [h.group]));
      assert events == a + [ev] + b && Added(events, h) == a + [x] + b;
      OursHaveNoShare(h.event, ev.groups.value, h.group);
      SharesMiddle(a, ev, b);
      SharesMiddle(a, x, b);
    }
  }

  lemma SharesMiddle(a: seq<Event>, ev: Event, b: seq<Event>)
    requires Decoded(a) && Decoded(b) && ev.groups.Some?
    ensures Decoded(a + [ev] + b)
    ensures Shares(a + [ev] + b) == Shares(a) + SharesIn(ev.key, ev.groups.value) + Shares(b)
  {
    hide Shares, SharesIn;
    SharesAppend(a, [ev]);
    SharesAppend(a + [ev], b);
    SharesOne(ev);
  }

  lemma {:induction false} AddAllKeepsOthers(events: seq<Event>, hs: seq<OurHook>)
    requires Decoded(events) && OurHooks(hs)
    ensures Shares(AddedAll(events, hs)) == Shares(events)
  {
    hide Shares, Added, AllOurs;
    if hs != [] {
      AddAllKeepsOthers(events, hs[..|hs| - 1]);
      AddKeepsOthers(AddedAll(events, hs[..|hs| - 1]), hs[|hs| - 1]);
    }
  }

  lemma InstallKeepsOthers(top: File, hs: seq<OurHook>)
    requires EventsOf(top).Ok? && OurHooks(hs) && hs != []
    ensures var r := Installed(top, hs).value;
            && EventsOf(r).Ok? && Shares(EventsOf(r).value) == Shares(EventsOf(top).value)
            && SettingsOf(r) == SettingsOf(top)
  {
    hide Without, AddedAll, Shares;
    var events := EventsOf(top).value;
    var all := AddedAll(Without(events), hs);
    AddedIsNotEmpty(Without(events), hs);
    AddAllKeepsOthers(Without(events), hs);
    RemoveKeepsOthers(events);
    PutRead(top, all);
    PutKeepsSettings(top, all);
  }

  lemma {:induction false} SettingsAppend<T>(a: seq<Member<T>>, b: seq<Member<T>>)
    ensures SettingsOf(a + b) == SettingsOf(a) + SettingsOf(b)
  {
    if b == [] {
      assert a + b == a;
    } else {
      SettingsAppend(a, b[..|b| - 1]);
      assert (a + b)[..|a + b| - 1] == a + b[..|b| - 1];
    }
  }

  lemma PutKeepsSettings(top: File, events: seq<Event>)
    ensures SettingsOf(Put(top, events)) == SettingsOf(top)
  {
    var i := HooksAt(top);
    var x: Member<Option<seq<Event>>> := HooksMember(Some(events));
    HooksAreNoSetting(x);
    if i < |top| {
      HooksAreNoSetting(top[i]);
      assert top == top[..i] + [top[i]] + top[i + 1..];
      assert top[i := x] == top[..i] + [x] + top[i + 1..];
      SettingsAppend(top[..i], [top[i]]);
      SettingsAppend(top[..i] + [top[i]], top[i + 1..]);
      SettingsAppend(top[..i], [x]);
      SettingsAppend(top[..i] + [x], top[i + 1..]);
      SettingsAppend(top[..i], top[i + 1..]);
    } else {
      SettingsAppend(top, [x]);
    }
  }

  lemma HooksAreNoSetting<T>(m: Member<T>)
    requires m.HooksMember?
    ensures SettingsOf([m]) == []
  {
    assert [m][..0] == [];
  }

  // ---------------------------------------------------- what is installed

  // Installed reports an event when one of its groups holds a handler of ours.
  ghost predicate Reports(events: seq<Event>, key: string)
    requires Decoded(events)
  {
    exists i :: 0 <= i < |events| && events[i].key == key && AnyOurs(events[i].groups.value)
  }

  // Where the hook was added, and that it was added nowhere else.
  lemma {:induction false} AddedHas(events: seq<Event>, h: OurHook)
    requires Decoded(events) && AllOurs(h.group)
    ensures var i, more := EventAt(events, h.event), Added(events, h);
            && |events| <= |more| && i < |more| <= |events| + 1 && (|more| == |events| + 1 ==> i == |events|)
            && more[i].key == h.event && AnyOurs(more[i].groups.value)
            && forall k :: 0 <= k < |events| && k != i ==> more[k] == events[k]
  {
    hide AllOurs, AnyOurs, EventAt;
    var i := EventAt(events, h.event);
    assert [] + [h.group] == [h.group];
    if i < |events| { OursIsIn(events[i].groups.value, h.group); } else { OursIsIn([], h.group); }
  }

  lemma OursIsIn(gs: seq<Group>, g: Group)
    requires AllOurs(g)
    ensures AnyOurs(gs + [g])
  {
    assert g in gs + [g];
  }

  lemma {:induction false} ReportsAdded(events: seq<Event>, h: OurHook, key: string)
    requires Decoded(events) && AllOurs(h.group)
    ensures Reports(Added(events, h), key) <==> Reports(events, key) || key == h.event
  {
    AddedHas(events, h);
    hide AllOurs, AnyOurs, EventAt, Added;
    var i := EventAt(events, h.event);
    var more := Added(events, h);
    if Reports(events, key) {
      var k :| 0 <= k < |events| && events[k].key == key && AnyOurs(events[k].groups.value);
      assert more[k].key == key && (k != i ==> more[k] == events[k]);
    }
    if Reports(more, key) && key != h.event {
      var k :| 0 <= k < |more| && more[k].key == key && AnyOurs(more[k].groups.value);
      assert k < |events| && events[k] == more[k];
    }
  }

  // After an installation exactly the events of ours are reported, whatever
  // was there; after a removal none.
  lemma {:induction false} InstalledAre(events: seq<Event>, hs: seq<OurHook>, key: string)
    requires Decoded(events) && OurHooks(hs)
    ensures Reports(AddedAll(Without(events), hs), key) <==> exists i :: 0 <= i < |hs| && hs[i].event == key
  {
    hide AllOurs, AnyOurs, Added;
    if hs == [] {
      RemovedIsClean(events);
    } else {
      var n := |hs| - 1;
      InstalledAre(events, hs[..n], key);
      ReportsAdded(AddedAll(Without(events), hs[..n]), hs[n], key);
      if exists i :: 0 <= i < n && hs[..n][i].event == key {
        var i :| 0 <= i < n && hs[..n][i].event == key;
        assert hs[i].event == key;
      }
      if i :| 0 <= i < |hs| && hs[i].event == key && i < n { assert hs[..n][i].event == key; }
    }
  }

  // ---------------------------------------------------------- in plain words

  // The three hooks, as they are written.
  lemma OursWritten(t: Handlers)
    ensures Ours(t)
            == [OurHook("SessionStart", Group([Setting("matcher", "startup|resume"),
                                               HooksMember([Handler(true, t.start)])])),
                OurHook("Stop", Group([HooksMember([Handler(true, t.stop)])])),
                OurHook("UserPromptSubmit", Group([HooksMember([Handler(true, t.prompt)])]))]
  {
    assert "startup|resume"[0] == 's';
  }

  // No handler of ours is left anywhere.
  lemma NothingOfOursLeft(events: seq<Event>)
    requires Decoded(events)
    ensures var left := Without(events);
            forall i, g, h :: 0 <= i < |left| && g in left[i].groups.value && h in HandlersOf(g) ==> !h.ours
  {
    RemovedIsClean(events);
    hide Without;
  }

  ghost predicate EndsIn(ev: Event, key: string, g: Group) {
    && ev.key == key && ev.groups.Some? && ev.groups.value != []
    && ev.groups.value[|ev.groups.value| - 1] == g
  }

  lemma AddedComesLast(events: seq<Event>, h: OurHook)
    requires Decoded(events)
    ensures exists k :: 0 <= k < |Added(events, h)| && EndsIn(Added(events, h)[k], h.event, h.group)
  {
    var at := EventAt(events, h.event);
    assert EndsIn(Added(events, h)[at], h.event, h.group);
  }

  lemma LastStays(events: seq<Event>, h: OurHook, k: nat, key: string, g: Group)
    requires Decoded(events) && k < |events| && EndsIn(events[k], key, g) && key != h.event
    ensures k < |Added(events, h)| && EndsIn(Added(events, h)[k], key, g)
  {
    assert EventAt(events, h.event) != k;
    assert Added(events, h)[k] == events[k];
  }

  // After an installation the last group of its event is each of ours.
  lemma {:induction false} OursComeLast(events: seq<Event>, hs: seq<OurHook>, i: nat)
    requires Decoded(events) && OurHooks(hs) && i < |hs|
    ensures var r := AddedAll(events, hs);
            exists k :: 0 <= k < |r| && EndsIn(r[k], hs[i].event, hs[i].group)
  {
    hide AllOurs, EndsIn, Added;
    var n := |hs| - 1;
    var before, h := AddedAll(events, hs[..n]), hs[n];
    assert AddedAll(events, hs) == Added(before, h);
    if i == n {
      AddedComesLast(before, h);
    } else {
      OursComeLast(events, hs[..n], i);
      assert hs[..n][i] == hs[i];
      var k :| 0 <= k < |before| && EndsIn(before[k], hs[i].event, hs[i].group);
      LastStays(before, h, k, hs[i].event, hs[i].group);
    }
  }

  // A file cannot be changed exactly when its hooks are no object or hold an
  // event that is no list.
  lemma FailsExactly(top: File, hs: seq<OurHook>)
    ensures Removed(top).Err? <==> Installed(top, hs).Err?
    ensures Removed(top).Err?
            <==> exists i :: 0 <= i < |top| && top[i].HooksMember? && (forall j :: 0 <= j < i ==> top[j].Setting?)
                             && (top[i].value.None? || exists k :: 0 <= k < |top[i].value.value|
                                                                   && top[i].value.value[k].groups.None?)
  {
    hide Without, AddedAll, Put;
    var i := HooksAt(top);
    if i < |top| && top[i].value.Some? {
      var events := top[i].value.value;
      var k := FirstBad(events);
      if k < |events| { assert events[k].groups.None?; }
    }
  }

  lemma PutLeaves(top: File, left: seq<Event>)
    requires forall i, j :: 0 <= i < j < |top| ==> !(top[i].HooksMember? && top[j].HooksMember?)
    requires HooksAt(top) < |top| || left == []
    ensures var r := Put(top, left);
            && (left == [] <==> forall i :: 0 <= i < |r| ==> r[i].Setting?)
            && forall i :: 0 <= i < |r| && r[i].HooksMember? ==>
                 r[i].value == Some(left) && i < |top| && top[i].HooksMember?
  {
    var i, r := HooksAt(top), Put(top, left);
    forall k | 0 <= k < |top| && k != i ensures top[k].Setting? { }
    hide HooksAt;
    if left == [] {
      forall k | 0 <= k < |r| ensures r[k].Setting? { assert r[k] == top[if k < i then k else k + 1]; }
    } else {
      assert r[i] == HooksMember(Some(left));
    }
  }

  // What is left of the hooks stands where they stood; without any left the
  // member goes.
  lemma RemovedFileHas(top: File)
    requires Removed(top).Ok? && forall i, j :: 0 <= i < j < |top| ==> !(top[i].HooksMember? && top[j].HooksMember?)
    ensures var r, left := Removed(top).value, Without(EventsOf(top).value);
            && (left == [] <==> forall i :: 0 <= i < |r| ==> r[i].Setting?)
            && forall i :: 0 <= i < |r| && r[i].HooksMember? ==>
                 r[i].value == Some(left) && i < |top| && top[i].HooksMember?
  {
    NothingWithout();
    hide Without, Put, HooksAt;
    PutLeaves(top, Without(EventsOf(top).value));
  }
}
