// A machine that keeps items of a structured file to itself, over whole runs:
// its plans, the writes of other machines and of the user, and its uploads
// in any interleaving. The key holds files, as the structured formats do.
module PrivateRuns {
  import opened Options
  import opened Structured
  import opened Plan
  import opened Round
  import opened Private
  import Json

  // The items of the file on disk, the state with its held names, the base.
  datatype Local = Local(file: Option<seq<Item>>, st: Option<EntryState>, held: seq<string>, base: Option<seq<Item>>)

  // An upload on its way: the action, what the state will say once it is
  // stored, and the held names that were absent from the file.
  datatype InFlight = InFlight(a: Action, hash: Print, held: seq<string>, absent: set<string>)

  datatype Sys = Sys(m: Local, obj: Option<Obj>, past: map<ETag, Body>, upload: Option<InFlight>)

  // What does not change during a run: the hiding rules and the formatter.
  datatype Rules = Rules(hidden: Hidden, indent: string -> string)

  function FileItems(m: Local): seq<Item> {
    if m.file.Some? then m.file.value else []
  }

  function BaseOr(m: Local): seq<Item> {
    if m.base.Some? then m.base.value else []
  }

  // The scanned entry: held items shown as last synced, hidden ones pinned.
  function Shown(m: Local, hidden: Hidden): Option<Entry> {
    if m.file.None? then None
    else Some(File(Items(Scan(m.file.value, BaseOr(m), m.held, hidden)), false))
  }

  function ViewOf(m: Local, hidden: Hidden): View {
    View(Shown(m, hidden), m.st, m.base, {})
  }

  // Held items that can be used now are written with the rest of the base.
  ghost predicate Released(m: Local, hold: Holding) {
    && m.file.Some? && m.base.Some? && m.st.Some?
    && exists n :: n in m.held && !HeldIn(n, m.base.value, hold)
  }

  ghost function PlanRun(m: Local, info: Option<ETag>, r: Option<Remote>, hold: Holding, c: Setup,
                         hidden: Hidden): Option<Action>
    requires Readable(info, m.st, r)
  {
    var a := PlanKey(ViewOf(m, hidden), info, r, c);
    if a.None? && Released(m, hold) then
      Some(Action(Download, Shown(m, hidden), Some(Remote(Live(File(Items(m.base.value), false)), m.st.value.etag)),
                  0, false, []))
    else a
  }

  // Writing items here: the file, what the state records, the held names.
  ghost function WriteHere(m: Local, items: seq<Item>, etag: ETag, hold: Holding, rules: Rules): Local {
    var held := HeldSet(items, hold);
    var w := WrittenFile(FileItems(m), items, held, rules.hidden, rules.indent);
    Local(Some(w), Some(EntryState(etag, SnapFile(ItemsPrint(Fingerprint(RecordedItems(w, items, held))), false))),
          HeldList(items, held), Some(items))
  }

  ghost function Applied(m: Local, a: Action, hold: Holding, rules: Rules): Local {
    match a.kind
    case Download =>
      if a.remote.Some? && a.remote.value.body.Live? then
        WriteHere(m, ItemsOf(a.remote.value.body.entry), a.remote.value.etag, hold, rules)
      else m
    case Merge => m.(file := WriteHere(m, a.merged, 0, hold, rules).file)
    case Record =>
      var etag := if a.remote.Some? then a.remote.value.etag else 0;
      if a.local.None? then m.(st := Some(EntryState(etag, SnapTombstone)), base := None, held := [])
      else m.(st := Some(StateOf(a.local.value, etag)), base := Some(ItemsOf(a.local.value)))
    case Forget => m.(st := None, base := None, held := [])
    case _ => m
  }

  ghost function Departing(m: Local, a: Action, hold: Holding, rules: Rules): Option<InFlight> {
    var absent := set n | n in m.held && !Has(FileItems(m), n);
    match a.kind
    case Upload =>
      if a.local.Some? && a.local.value.File? then Some(InFlight(a, Hash(a.local.value.content), m.held, absent))
      else None
    case Merge =>
      var w := WriteHere(m, a.merged, 0, hold, rules);
      Some(InFlight(a, if w.st.value.snap.SnapFile? then w.st.value.snap.hash else ItemsPrint(multiset{}), w.held,
                    absent))
    case _ => None
  }

  function Sent(a: Action): seq<Item> {
    if a.kind == Merge then a.merged else if a.local.Some? then ItemsOf(a.local.value) else []
  }

  datatype Step =
    | Edit(file: Option<seq<Item>>)
    | Others(body: Body, tag: ETag)
    | Vanish
    | Run(info: Option<ETag>, r: Option<Remote>, hold: Holding, c: Setup)
    | Put(tag: ETag, reported: bool)
    | LostRace

  ghost predicate GoodBody(b: Body) {
    b.Live? ==> b.entry.File? && b.entry.content.Items? && Distinct(b.entry.content.items) && !b.entry.exec
  }

  // What a step may assume: other writers and this one get new ETags, what a
  // run read was stored at some time.
  ghost predicate Enabled(s: Sys, step: Step) {
    match step
    case Edit(file) => file.Some? ==> Distinct(file.value)
    case Others(body, tag) => GoodBody(body) && tag != 0 && tag !in s.past
    case Vanish => true
    case Run(info, r, hold, c) =>
      && s.upload.None? && c.structured && Readable(info, s.m.st, r)
      && (info.Some? ==> info.value in s.past)
      && (r.Some? ==> info.Some? && r.value.etag in s.past && s.past[r.value.etag] == r.value.body)
    case Put(tag, reported) =>
      s.upload.Some? && PutAllowed(s.obj, s.upload.value.a.ifMatch) && tag != 0 && tag !in s.past
    case LostRace => s.upload.Some?
  }

  ghost function Next(s: Sys, step: Step, rules: Rules): Sys
    requires Enabled(s, step)
  {
    match step
    case Edit(file) => s.(m := s.m.(file := file))
    case Others(body, tag) => s.(obj := Some(Obj(body, tag)), past := s.past[tag := body])
    case Vanish => s.(obj := None)
    case Run(info, r, hold, c) =>
      (match PlanRun(s.m, info, r, hold, c, rules.hidden)
       case None => s
       case Some(a) => s.(m := Applied(s.m, a, hold, rules), upload := Departing(s.m, a, hold, rules)))
    case Put(tag, reported) =>
      var u := s.upload.value;
      var body := Live(File(Items(Sent(u.a)), false));
      Sys(Local(s.m.file, Some(EntryState(if reported then tag else 0, SnapFile(u.hash, false))), u.held,
                Some(Sent(u.a))),
          Some(Obj(body, tag)), s.past[tag := body], None)
    case LostRace => s.(upload := None)
  }

  // ------------------------------------------------------------- invariants

  ghost predicate GoodPast(s: Sys) {
    && (forall t :: t in s.past ==> t != 0 && GoodBody(s.past[t]))
    && (s.obj.Some? ==> s.obj.value.etag in s.past && s.past[s.obj.value.etag] == s.obj.value.body)
  }

  ghost predicate GoodLocal(m: Local) {
    && (m.file.Some? ==> Distinct(m.file.value)) && (m.base.Some? ==> Distinct(m.base.value)) && NoTwice(m.held)
    && (m.st.None? ==> m.base.None? && m.held == [])
    && (m.st.Some? ==> !m.st.value.snap.SnapLink? && (m.st.value.snap.SnapTombstone? ==> m.base.None? && m.held == []))
  }

  // The base says what the version the state names says.
  ghost predicate BaseIsVersion(m: Local, past: map<ETag, Body>) {
    m.st.Some? && m.st.value.etag != 0 ==>
      && m.st.value.etag in past
      && (if m.st.value.snap.SnapTombstone? then past[m.st.value.etag].Tombstone?
          else
            && m.base.Some? && past[m.st.value.etag].Live?
            && SameValues(m.base.value, ItemsOf(past[m.st.value.etag].entry)))
  }

  ghost predicate Quiet(u: InFlight, hidden: Hidden, n: string) {
    hidden(n) || n in u.absent
  }

  // The value an upload carries for a name is the one of the version it names.
  ghost predicate Carries(a: Action, past: map<ETag, Body>, n: string) {
    a.ifMatch in past && past[a.ifMatch].Live? ==> ValueOf(Sent(a), n) == ValueOf(ItemsOf(past[a.ifMatch].entry), n)
  }

  ghost predicate GoodUpload(u: InFlight, past: map<ETag, Body>, hidden: Hidden) {
    && (u.a.kind == Upload || u.a.kind == Merge) && Distinct(Sent(u.a)) && NoTwice(u.held)
    && (u.a.ifMatch == 0 || u.a.ifMatch in past)
    && (forall n :: Quiet(u, hidden, n) ==> Carries(u.a, past, n))
  }

  ghost predicate Inv(s: Sys, hidden: Hidden) {
    && GoodPast(s) && GoodLocal(s.m) && BaseIsVersion(s.m, s.past)
    && (s.upload.Some? ==> GoodUpload(s.upload.value, s.past, hidden))
  }

  // ---------------------------------------------------------- what plans do

  // A name this machine does not speak for: its scan shows the base's value.
  lemma QuietShows(m: Local, hidden: Hidden, n: string)
    requires m.file.Some? && (hidden(n) || (n in m.held && !Has(m.file.value, n)))
    ensures ValueOf(ItemsOf(Shown(m, hidden).value), n) == ValueOf(BaseOr(m), n)
  {
    hide Scan;
    ScanSays(m.file.value, BaseOr(m), m.held, hidden, n);
  }

  lemma ViewIsWellFormed(m: Local, c: Setup, hidden: Hidden)
    requires GoodLocal(m) && c.structured
    ensures WellFormedView(ViewOf(m, hidden), c)
    ensures m.file.Some? ==> Distinct(ItemsOf(Shown(m, hidden).value))
  {
    hide Scan;
    Plan.EmptyIsDistinct();
    if m.file.Some? { ScanDistinct(m.file.value, BaseOr(m), m.held, hidden); }
  }

  // A merge gives a name on which the local side says what the base says the
  // remote value.
  lemma MergeTakesRemote(base: seq<Item>, local: seq<Item>, remote: seq<Item>, p: bool, n: string)
    requires Distinct(local) && Distinct(remote) && ValueOf(local, n) == ValueOf(base, n)
    ensures ValueOf(Merged(base, local, remote, p), n) == ValueOf(remote, n)
  {
    MergeIsThreeWay(base, local, remote, p);
  }

  ghost predicate UploadRests(a: Action, v: View, info: Option<ETag>, r: Option<Remote>, n: string) {
    || a.ifMatch == 0
    || (a.kind == Upload && v.st.Some? && RemoteUnchanged(info, v.st) && a.ifMatch == v.st.value.etag)
    || (r.Some? && a.ifMatch == r.value.etag
        && (r.value.body.Tombstone?
            || (r.value.body.entry.File? && ValueOf(Sent(a), n) == ValueOf(ItemsOf(r.value.body.entry), n))))
  }

  lemma MergedUploads(d: Action, v: View, r: Option<Remote>, info: Option<ETag>, c: Setup, n: string)
    requires Mergeable(d, true) && d.local == v.disk && d.remote == r && d.merged == [] && v.disk.value.File?
    requires d.kind == Download ==> v.base.None?
    requires WellFormedView(v, c) && c.structured && WellFormedBody(r.value.body, true)
    requires MergeStructured(d, true, BaseItems(v)) != d
    requires ValueOf(ItemsOf(v.disk.value), n) == ValueOf(BaseItems(v), n)
    ensures var p := MergeStructured(d, true, BaseItems(v));
            && (p.kind == Upload || p.kind == Merge ==> UploadRests(p, v, info, r, n) && Distinct(Sent(p)))
            && p.kind in {Download, Upload, Merge}
  {
    hide Structured.Merged, Structured.Conflicts, Structured.Fingerprint;
    var base := BaseItems(v);
    MergePlanned(d, true, base);
    var m := MergeResult(d, base);
    MergeTakesRemote(base, ItemsOf(v.disk.value), ItemsOf(r.value.body.entry), d.kind == Download, n);
    SettleSays(d, m, d.kind == Download, true);
  }

  // What every upload of a plan rests on, for a name the machine does not
  // speak for.
  lemma PlanUploads(m: Local, info: Option<ETag>, r: Option<Remote>, hold: Holding, c: Setup, hidden: Hidden, n: string)
    requires GoodLocal(m) && c.structured && Readable(info, m.st, r)
    requires r.Some? ==> info.Some? && GoodBody(r.value.body)
    requires m.file.Some? ==> ValueOf(ItemsOf(Shown(m, hidden).value), n) == ValueOf(BaseOr(m), n)
    requires PlanRun(m, info, r, hold, c, hidden).Some?
    ensures var a := PlanRun(m, info, r, hold, c, hidden).value;
            a.kind == Upload || a.kind == Merge ==>
              UploadRests(a, ViewOf(m, hidden), info, r, n) && Distinct(Sent(a)) && a.local == Shown(m, hidden)
  {
    hide Structured.Merged, Structured.Conflicts, Structured.Fingerprint, Structured.ValueOf, Decide, Scan, Released;
    var v := ViewOf(m, hidden);
    ViewIsWellFormed(m, c, hidden);
    Plan.EmptyIsDistinct();
    DecideRests(v.disk, info, v.st, r, c);
    PlanKeyBasics(v, info, r, c);
    var d := Decide(v.disk, info, v.st, r, c);
    if d.Some? && Mergeable(d.value, true) && MergeStructured(d.value, true, BaseItems(v)) != d.value {
      MergedUploads(d.value, v, r, info, c, n);
    }
  }

  // What the other kinds of a plan rest on.
  ghost predicate KindRests(a: Action, m: Local, r: Option<Remote>, hidden: Hidden) {
    && a.local == Shown(m, hidden)
    && match a.kind
       case Download =>
         && a.remote.Some? && a.remote.value.body.Live? && GoodBody(a.remote.value.body)
         && (|| a.remote == r
             || (m.st.Some? && m.base.Some? && a.remote.value.etag == m.st.value.etag
                 && ItemsOf(a.remote.value.body.entry) == m.base.value))
       case Merge => Distinct(a.merged) && r.Some?
       case Record => a.remote == r && r.Some? && SameContent(a.local, r.value.body, true)
       case Upload => a.local.Some?
       case _ => true
  }

  lemma PlanKinds(m: Local, info: Option<ETag>, r: Option<Remote>, hold: Holding, c: Setup, hidden: Hidden)
    requires GoodLocal(m) && c.structured && Readable(info, m.st, r)
    requires r.Some? ==> info.Some? && GoodBody(r.value.body)
    requires PlanRun(m, info, r, hold, c, hidden).Some?
    ensures KindRests(PlanRun(m, info, r, hold, c, hidden).value, m, r, hidden)
  {
    hide Plan.PlanKey, Scan, Structured.Fingerprint, HeldIn;
    ViewIsWellFormed(m, c, hidden);
    PlanKeyRests(ViewOf(m, hidden), info, r, c);
    SameWithoutBit(m, r, c, hidden);
  }

  lemma SameWithoutBit(m: Local, r: Option<Remote>, c: Setup, hidden: Hidden)
    requires r.Some? ==> GoodBody(r.value.body)
    ensures r.Some? && SameContent(Shown(m, hidden), r.value.body, c.tracksExec) ==>
              SameContent(Shown(m, hidden), r.value.body, true)
  {
    hide Scan;
  }

  // ------------------------------------------------- every step keeps them

  lemma WrittenIsGood(m: Local, items: seq<Item>, etag: ETag, hold: Holding, rules: Rules)
    requires GoodLocal(m) && Distinct(items)
    ensures GoodLocal(WriteHere(m, items, etag, hold, rules))
    ensures forall n :: rules.hidden(n) ==>
              ValueOf(FileItems(WriteHere(m, items, etag, hold, rules)), n) == ValueOf(FileItems(m), n)
  {
    hide WrittenFile, HeldList, HeldSet, RecordedItems, Fingerprint;
    Plan.EmptyIsDistinct();
    var held := HeldSet(items, hold);
    WrittenDistinct(FileItems(m), items, held, rules.hidden, rules.indent);
    HeldListIs(items, held);
    forall n | rules.hidden(n)
      ensures ValueOf(FileItems(WriteHere(m, items, etag, hold, rules)), n) == ValueOf(FileItems(m), n)
    {
      WrittenSays(FileItems(m), items, held, rules.hidden, rules.indent, n);
    }
  }

  lemma SameItems(l: Entry, r: Body)
    requires l.File? && l.content.Items? && Distinct(l.content.items) && GoodBody(r) && SameContent(Some(l), r, true)
    ensures r.Live? && SameValues(ItemsOf(l), ItemsOf(r.entry))
  {
    FingerprintIdentifies(ItemsOf(l), ItemsOf(r.entry));
  }

  // The local half of a run.
  lemma AppliedIsGood(s: Sys, step: Step, rules: Rules, a: Action)
    requires Inv(s, rules.hidden) && step.Run? && Enabled(s, step)
    requires KindRests(a, s.m, step.r, rules.hidden)
    ensures var m := Applied(s.m, a, step.hold, rules);
            && GoodLocal(m) && BaseIsVersion(m, s.past)
            && forall n :: rules.hidden(n) ==> ValueOf(FileItems(m), n) == ValueOf(FileItems(s.m), n)
  {
    hide WriteHere, Scan, ValueOf, Fingerprint;
    match a.kind
    case Download =>
      var items := ItemsOf(a.remote.value.body.entry);
      WrittenIsGood(s.m, items, a.remote.value.etag, step.hold, rules);
      WriteKeeps(s.m, items, a.remote.value.etag, step.hold, rules);
      SameAsItself(items);
    case Merge =>
      WrittenIsGood(s.m, a.merged, 0, step.hold, rules);
      WriteKeeps(s.m, a.merged, 0, step.hold, rules);
    case Record =>
      ViewIsWellFormed(s.m, step.c, rules.hidden);
      if a.local.Some? { SameItems(a.local.value, step.r.value.body); }
    case _ =>
  }

  lemma WriteKeeps(m: Local, items: seq<Item>, etag: ETag, hold: Holding, rules: Rules)
    ensures var w := WriteHere(m, items, etag, hold, rules);
            w.base == Some(items) && w.st.Some? && w.st.value.etag == etag && w.st.value.snap.SnapFile? && w.file.Some?
  {
  }

  lemma SameAsItself(items: seq<Item>)
    ensures SameValues(items, items)
  {
  }

  // The upload a run sends off carries, for every name the machine does not
  // speak for, the value of the version it will replace.
  lemma DepartingIsGood(s: Sys, step: Step, rules: Rules, a: Action)
    requires Inv(s, rules.hidden) && step.Run? && Enabled(s, step)
    requires PlanRun(s.m, step.info, step.r, step.hold, step.c, rules.hidden) == Some(a)
    requires KindRests(a, s.m, step.r, rules.hidden) && Departing(s.m, a, step.hold, rules).Some?
    ensures GoodUpload(Departing(s.m, a, step.hold, rules).value, s.past, rules.hidden)
  {
    hide PlanRun, WriteHere, Scan, ValueOf, Fingerprint, Hash, Readable;
    var u := Departing(s.m, a, step.hold, rules).value;
    ViewIsWellFormed(s.m, step.c, rules.hidden);
    if a.kind == Merge {
      WrittenIsGood(s.m, a.merged, 0, step.hold, rules);
    }
    UploadNamesPast(s, step, rules, a);
    forall n | Quiet(u, rules.hidden, n) ensures Carries(a, s.past, n) {
      QuietCarries(s, step, rules, a, n);
    }
  }

  lemma QuietCarries(s: Sys, step: Step, rules: Rules, a: Action, n: string)
    requires Inv(s, rules.hidden) && step.Run? && Enabled(s, step) && (a.kind == Upload || a.kind == Merge)
    requires PlanRun(s.m, step.info, step.r, step.hold, step.c, rules.hidden) == Some(a)
    requires rules.hidden(n) || (n in s.m.held && !Has(FileItems(s.m), n))
    ensures Carries(a, s.past, n)
  {
    hide PlanRun, Scan, ValueOf, Readable;
    if s.m.file.Some? { QuietShows(s.m, rules.hidden, n); }
    PlanUploads(s.m, step.info, step.r, step.hold, step.c, rules.hidden, n);
    var v := ViewOf(s.m, rules.hidden);
    if a.kind == Upload && v.st.Some? && RemoteUnchanged(step.info, v.st) && a.ifMatch == v.st.value.etag {
      FileWasShown(s, step, rules, a);
      BaseSays(s.m, s.past, n);
    }
  }

  lemma FileWasShown(s: Sys, step: Step, rules: Rules, a: Action)
    requires Inv(s, rules.hidden) && step.Run? && Enabled(s, step) && a.kind == Upload
    requires PlanRun(s.m, step.info, step.r, step.hold, step.c, rules.hidden) == Some(a)
    ensures s.m.file.Some? && a.local == Shown(s.m, rules.hidden)
  {
    hide PlanRun, Scan;
    PlanKinds(s.m, step.info, step.r, step.hold, step.c, rules.hidden);
  }

  lemma BaseSays(m: Local, past: map<ETag, Body>, n: string)
    requires BaseIsVersion(m, past) && m.st.Some? && m.st.value.etag != 0
    ensures m.st.value.etag in past && past[m.st.value.etag].Live? ==>
              ValueOf(BaseOr(m), n) == ValueOf(ItemsOf(past[m.st.value.etag].entry), n)
  {
  }

  lemma UploadNamesPast(s: Sys, step: Step, rules: Rules, a: Action)
    requires Inv(s, rules.hidden) && step.Run? && Enabled(s, step) && (a.kind == Upload || a.kind == Merge)
    requires PlanRun(s.m, step.info, step.r, step.hold, step.c, rules.hidden) == Some(a)
    ensures a.ifMatch == 0 || a.ifMatch in s.past
    ensures a.kind == Merge ==> Distinct(a.merged)
  {
    hide Plan.PlanKey, Scan, Released, Structured.Fingerprint, Fingerprint;
    ViewIsWellFormed(s.m, step.c, rules.hidden);
    PlanKeyRests(ViewOf(s.m, rules.hidden), step.info, step.r, step.c);
  }

  // Every step, whoever takes it, keeps the invariant.
  lemma StepKeeps(s: Sys, step: Step, rules: Rules)
    requires Inv(s, rules.hidden) && Enabled(s, step)
    ensures Inv(Next(s, step, rules), rules.hidden)
  {
    hide PlanRun, Applied, Departing, Readable, SameValues, Carries, Quiet;
    match step
    case Run(info, r, hold, c) =>
      var a := PlanRun(s.m, info, r, hold, c, rules.hidden);
      if a.Some? {
        PlanKinds(s.m, info, r, hold, c, rules.hidden);
        AppliedIsGood(s, step, rules, a.value);
        if Departing(s.m, a.value, hold, rules).Some? { DepartingIsGood(s, step, rules, a.value); }
      }
    case Put(tag, reported) =>
      SameAsItself(Sent(s.upload.value.a));
      BaseStays(s.m, s.past, tag, Live(File(Items(Sent(s.upload.value.a)), false)));
    case Others(body, tag) =>
      BaseStays(s.m, s.past, tag, body);
      if s.upload.Some? { UploadStays(s.upload.value, s.past, tag, body, rules.hidden); }
    case _ =>
  }

  // Versions once stored stay what they were.
  lemma BaseStays(m: Local, past: map<ETag, Body>, tag: ETag, body: Body)
    requires BaseIsVersion(m, past) && tag !in past
    ensures BaseIsVersion(m, past[tag := body])
  {
    hide SameValues;
  }

  lemma UploadStays(u: InFlight, past: map<ETag, Body>, tag: ETag, body: Body, hidden: Hidden)
    requires GoodUpload(u, past, hidden) && tag !in past && tag != 0
    ensures GoodUpload(u, past[tag := body], hidden)
  {
    hide Quiet;
    forall n | Quiet(u, hidden, n) ensures Carries(u.a, past[tag := body], n) {
      assert Carries(u.a, past, n);
    }
  }

  // ------------------------------------------------------------- whole runs

  ghost predicate Start(s: Sys) {
    s.m.st.None? && s.m.base.None? && s.m.held == [] && s.upload.None? && GoodPast(s)
    && (s.m.file.Some? ==> Distinct(s.m.file.value))
  }

  ghost predicate Trace(states: seq<Sys>, steps: seq<Step>, rules: Rules) {
    && |states| == |steps| + 1 && Start(states[0])
    && forall i :: 0 <= i < |steps| ==>
         Enabled(states[i], steps[i]) && states[i + 1] == Next(states[i], steps[i], rules)
  }

  lemma {:induction false} TraceHolds(states: seq<Sys>, steps: seq<Step>, rules: Rules, i: nat)
    requires Trace(states, steps, rules) && i < |states|
    ensures Inv(states[i], rules.hidden)
  {
    hide Next, Enabled, GoodPast;
    if i == 0 {
      StartHolds(states[0], rules.hidden);
    } else {
      TraceHolds(states, steps, rules, i - 1);
      StepKeeps(states[i - 1], steps[i - 1], rules);
      assert states[i - 1 + 1] == Next(states[i - 1], steps[i - 1], rules);
    }
  }

  lemma StartHolds(s: Sys, hidden: Hidden)
    requires Start(s)
    ensures Inv(s, hidden)
  {
  }

  // In any run a stored upload leaves the store's value of every hidden item,
  // and of every item held back here, as the live version it replaces has it.
  lemma HiddenNeverCross(states: seq<Sys>, steps: seq<Step>, rules: Rules, i: nat, n: string)
    requires Trace(states, steps, rules) && i < |steps| && steps[i].Put?
    requires states[i].obj.Some? && states[i].obj.value.body.Live? && Quiet(states[i].upload.value, rules.hidden, n)
    ensures var now := states[i + 1].obj;
            && now.Some? && now.value.body.Live?
            && ValueOf(ItemsOf(now.value.body.entry), n) == ValueOf(ItemsOf(states[i].obj.value.body.entry), n)
  {
    hide Inv, PlanRun, ValueOf;
    TraceHolds(states, steps, rules, i);
    assert Enabled(states[i], steps[i]) && states[i + 1] == Next(states[i], steps[i], rules);
    PutCarries(states[i], rules.hidden, n);
  }

  lemma PutCarries(s: Sys, hidden: Hidden, n: string)
    requires Inv(s, hidden) && s.upload.Some? && PutAllowed(s.obj, s.upload.value.a.ifMatch)
    requires s.obj.Some? && s.obj.value.body.Live? && Quiet(s.upload.value, hidden, n)
    ensures ValueOf(Sent(s.upload.value.a), n) == ValueOf(ItemsOf(s.obj.value.body.entry), n)
  {
    assert Carries(s.upload.value.a, s.past, n);
  }

  // And no download or merge changes a hidden value on this machine.
  lemma HiddenStaysHere(states: seq<Sys>, steps: seq<Step>, rules: Rules, i: nat, n: string)
    requires Trace(states, steps, rules) && i < |steps| && !steps[i].Edit? && rules.hidden(n)
    ensures ValueOf(FileItems(states[i + 1].m), n) == ValueOf(FileItems(states[i].m), n)
  {
    hide PlanRun, Applied, Departing, ValueOf, Inv;
    TraceHolds(states, steps, rules, i);
    var s, step := states[i], steps[i];
    assert Enabled(s, step) && states[i + 1] == Next(s, step, rules);
    if step.Run? {
      var a := PlanRun(s.m, step.info, step.r, step.hold, step.c, rules.hidden);
      if a.Some? {
        InvParts(s, rules.hidden);
        PlanKinds(s.m, step.info, step.r, step.hold, step.c, rules.hidden);
        AppliedIsGood(s, step, rules, a.value);
      }
    }
  }

  lemma InvParts(s: Sys, hidden: Hidden)
    requires Inv(s, hidden)
    ensures GoodPast(s) && GoodLocal(s.m)
  {
  }

  // --------------------------------------------------- held items stay synced

  // The items a run writes into the file here.
  function ItemsWritten(a: Action): Option<seq<Item>> {
    if a.kind == Merge then Some(a.merged)
    else if a.kind == Download && a.remote.Some? && a.remote.value.body.Live? then
      Some(ItemsOf(a.remote.value.body.entry))
    else None
  }

  // What leaves the item h held: everything but an edit that brings it back,
  // a run that finds it changed or usable here, and the end of the file
  // itself. A run may write any other change into the file.
  ghost predicate LeavesHeld(s: Sys, step: Step, rules: Rules, h: string, v: Option<string>)
    requires Enabled(s, step)
  {
    match step
    case Edit(file) => file.None? || !Has(file.value, h)
    case Run(info, r, hold, c) =>
      (match PlanRun(s.m, info, r, hold, c, rules.hidden)
       case None => true
       case Some(a) =>
         && (ItemsWritten(a).Some? ==> ValueOf(ItemsWritten(a).value, h) == v && HeldIn(h, ItemsWritten(a).value, hold))
         && a.kind != Forget && !(a.kind == Record && a.local.None?))
    case _ => true
  }

  // The name is held, absent from the file, and last synced as v; so is it in
  // the upload on its way.
  ghost predicate HeldAs(s: Sys, h: string, v: Option<string>) {
    && h in s.m.held && !Has(FileItems(s.m), h) && ValueOf(BaseOr(s.m), h) == v
    && (s.upload.Some? ==> h in s.upload.value.held && ValueOf(Sent(s.upload.value.a), h) == v)
  }

  // Writing items of which h is held keeps h out of the file and in the list.
  lemma WrittenWithout(m: Local, items: seq<Item>, etag: ETag, hold: Holding, rules: Rules, h: string)
    requires GoodLocal(m) && Distinct(items) && HeldIn(h, items, hold) && !Has(FileItems(m), h)
    ensures var w := WriteHere(m, items, etag, hold, rules);
            h in w.held && !Has(FileItems(w), h) && BaseOr(w) == items
  {
    hide WrittenFile, HeldList, RecordedItems, Fingerprint, Index;
    Plan.EmptyIsDistinct();
    var held := HeldSet(items, hold);
    Json.InNames(items, h);
    HeldListIs(items, held);
    WrittenSays(FileItems(m), items, held, rules.hidden, rules.indent, h);
    IndexHas(FileItems(m), h);
    IndexHas(WrittenFile(FileItems(m), items, held, rules.hidden, rules.indent), h);
  }

  // A download that holds h back starts it.
  lemma HeldFromDownload(s: Sys, step: Step, rules: Rules, h: string)
    requires Inv(s, rules.hidden) && Enabled(s, step) && step.Run? && !Has(FileItems(s.m), h)
    requires var a := PlanRun(s.m, step.info, step.r, step.hold, step.c, rules.hidden);
             a.Some? && a.value.kind == Download && ItemsWritten(a.value).Some?
             && HeldIn(h, ItemsWritten(a.value).value, step.hold)
    ensures var items := ItemsWritten(PlanRun(s.m, step.info, step.r, step.hold, step.c, rules.hidden).value).value;
            HeldAs(Next(s, step, rules), h, ValueOf(items, h))
  {
    hide PlanRun, Scan, ValueOf, Readable, WriteHere, HeldIn;
    var a := PlanRun(s.m, step.info, step.r, step.hold, step.c, rules.hidden).value;
    PlanKinds(s.m, step.info, step.r, step.hold, step.c, rules.hidden);
    WrittenWithout(s.m, ItemsWritten(a).value, a.remote.value.etag, step.hold, rules, h);
  }

  lemma HeldWritten(s: Sys, step: Step, rules: Rules, h: string, v: Option<string>)
    requires Inv(s, rules.hidden) && Enabled(s, step) && LeavesHeld(s, step, rules, h, v) && HeldAs(s, h, v)
    requires step.Run?
    requires var a := PlanRun(s.m, step.info, step.r, step.hold, step.c, rules.hidden);
             a.Some? && ItemsWritten(a.value).Some?
    ensures HeldAs(Next(s, step, rules), h, v)
  {
    hide PlanRun, Scan, ValueOf, Readable, WriteHere, HeldIn;
    var a := PlanRun(s.m, step.info, step.r, step.hold, step.c, rules.hidden).value;
    PlanKinds(s.m, step.info, step.r, step.hold, step.c, rules.hidden);
    WrittenWithout(s.m, ItemsWritten(a).value, if a.kind == Download then a.remote.value.etag else 0, step.hold, rules,
                   h);
  }

  lemma HeldStep(s: Sys, step: Step, rules: Rules, h: string, v: Option<string>)
    requires Inv(s, rules.hidden) && Enabled(s, step) && LeavesHeld(s, step, rules, h, v) && HeldAs(s, h, v)
    ensures HeldAs(Next(s, step, rules), h, v)
  {
    hide PlanRun, Scan, ValueOf, Readable, Fingerprint, Hash, SameContent, HeldIn;
    Json.NothingSaid(h);
    if step.Run? && PlanRun(s.m, step.info, step.r, step.hold, step.c, rules.hidden).Some? {
      var a := PlanRun(s.m, step.info, step.r, step.hold, step.c, rules.hidden).value;
      PlanKinds(s.m, step.info, step.r, step.hold, step.c, rules.hidden);
      if ItemsWritten(a).Some? { HeldWritten(s, step, rules, h, v); }
      if s.m.file.Some? { QuietShows(s.m, rules.hidden, h); }
    }
  }

  // Until the item itself changes, is released, or the file is given up, it
  // stays held, and every upload stored on the way, merges included, carries
  // it as it was last synced.
  lemma {:induction false} HeldItemsStay(states: seq<Sys>, steps: seq<Step>, rules: Rules, i: nat, j: nat, h: string,
                                         v: Option<string>)
    requires Trace(states, steps, rules) && i <= j < |states| && HeldAs(states[i], h, v)
    requires forall k :: i <= k < j ==> LeavesHeld(states[k], steps[k], rules, h, v)
    ensures HeldAs(states[j], h, v)
    ensures j < |steps| && steps[j].Put? ==> ValueOf(ItemsOf(states[j + 1].obj.value.body.entry), h) == v
    decreases j
  {
    hide HeldAs, LeavesHeld, Inv, PlanRun, Applied, Departing;
    if i < j {
      HeldItemsStay(states, steps, rules, i, j - 1, h, v);
      TraceHolds(states, steps, rules, j - 1);
      HeldStep(states[j - 1], steps[j - 1], rules, h, v);
      assert states[j - 1 + 1] == Next(states[j - 1], steps[j - 1], rules);
    }
    if j < |steps| && steps[j].Put? {
      assert Enabled(states[j], steps[j]) && states[j + 1] == Next(states[j], steps[j], rules);
      HeldSent(states[j], h, v);
    }
  }

  lemma HeldSent(s: Sys, h: string, v: Option<string>)
    requires HeldAs(s, h, v) && s.upload.Some?
    ensures ValueOf(Sent(s.upload.value.a), h) == v
  {
  }

  lemma NothingToDecide(v: View, info: Option<ETag>, r: Option<Remote>, c: Setup)
    requires Readable(info, v.st, r) && LocalUnchanged(v.disk, v.st, c.tracksExec) && RemoteUnchanged(info, v.st)
    ensures PlanKey(v, info, r, c).None?
  {
  }

  // Held back no longer, nor lying below an item that is: a run with nothing
  // else to do writes it into the file as it was last synced.
  lemma ReleasedIsWritten(s: Sys, step: Step, rules: Rules, n: string)
    requires Inv(s, rules.hidden) && Enabled(s, step) && step.Run? && s.m.file.Some?
    requires n in s.m.held && Has(BaseOr(s.m), n) && !rules.hidden(n)
    requires forall i :: 0 <= i < |BaseOr(s.m)| && step.hold(BaseOr(s.m)[i]).Some? ==>
               n != BaseOr(s.m)[i].name && !(BaseOr(s.m)[i].name + "." <= n)
    requires LocalUnchanged(Shown(s.m, rules.hidden), s.m.st, step.c.tracksExec) && RemoteUnchanged(step.info, s.m.st)
    ensures var m := Next(s, step, rules).m;
            m.file.Some? && ValueOf(m.file.value, n) == ValueOf(BaseOr(s.m), n) && n !in m.held
  {
    hide LocalUnchanged, RemoteUnchanged, PlanKey, Scan, WrittenFile, HeldList, RecordedItems, Fingerprint, Index,
         Plan.Readable;
    var m := s.m;
    var items := BaseOr(m);
    NothingToDecide(ViewOf(m, rules.hidden), step.info, step.r, step.c);
    HeldInIs(n, items, step.hold);
    hide HeldIn;
    assert Released(m, step.hold);
    var held := HeldSet(items, step.hold);
    HeldListIs(items, held);
    WrittenSays(m.file.value, items, held, rules.hidden, rules.indent, n);
  }
}
