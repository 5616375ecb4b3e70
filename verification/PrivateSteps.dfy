// internal/engine/structured.go with hidden and held items, told by the file
// alone: what one run writes into it, which changes made here it keeps, and
// what the next scan makes of the state it left.
module PrivateSteps {
  import opened Options
  import opened Structured
  import opened Plan
  import opened Round
  import opened Private
  import opened PrivateRuns
  import Json

  ghost function RunOf(s: Sys, step: Step, rules: Rules): Option<Action>
    requires Enabled(s, step) && step.Run?
  {
    PlanRun(s.m, step.info, step.r, step.hold, step.c, rules.hidden)
  }

  // ------------------------------------------------------- what is written

  lemma FileAfter(s: Sys, step: Step, rules: Rules)
    requires Enabled(s, step) && step.Run?
    ensures var a, file := RunOf(s, step, rules), Next(s, step, rules).m.file;
            if a.Some? && ItemsWritten(a.value).Some? then
              var items := ItemsWritten(a.value).value;
              file == Some(WrittenFile(FileItems(s.m), items, HeldSet(items, step.hold), rules.hidden, rules.indent))
            else file == s.m.file
  {
    hide PlanRun, HeldSet, RecordedItems, HeldList, WrittenFile, FileItems, Fingerprint, Shown, Plan.Readable, StateOf,
         Departing;
  }

  // A run that writes items into the file writes all of them but the hidden
  // ones and those that are held back, which stay as the file has them.
  lemma RunWrites(s: Sys, step: Step, rules: Rules, n: string)
    requires Inv(s, rules.hidden) && Enabled(s, step) && step.Run?
    requires RunOf(s, step, rules).Some? && ItemsWritten(RunOf(s, step, rules).value).Some?
    ensures var items := ItemsWritten(RunOf(s, step, rules).value).value;
            var m := Next(s, step, rules).m;
            && m.file.Some?
            && ValueOf(m.file.value, n) == if rules.hidden(n) || HeldIn(n, items, step.hold)
                                           then ValueOf(FileItems(s.m), n) else ValueOf(items, n)
  {
    hide *;
    var items := ItemsWritten(RunOf(s, step, rules).value).value;
    FileIsDistinct(s, rules.hidden);
    FileAfter(s, step, rules);
    WrittenSays(FileItems(s.m), items, HeldSet(items, step.hold), rules.hidden, rules.indent, n);
    InHeldSet(items, step.hold, n);
  }

  lemma FileIsDistinct(s: Sys, hidden: Hidden)
    requires Inv(s, hidden)
    ensures Distinct(FileItems(s.m))
  {
  }

  lemma InHeldSet(items: seq<Item>, hold: Holding, n: string)
    ensures n in HeldSet(items, hold) <==> HeldIn(n, items, hold)
  {
    Json.InNames(items, n);
    hide Json.NamesOf;
  }

  // ---------------------------------------------- changes made here stay

  // Where something was changed here since the last sync, no run undoes a
  // change of an item: it stands in the file as it did.
  lemma OwnChangesStay(s: Sys, step: Step, rules: Rules, n: string)
    requires Inv(s, rules.hidden) && Enabled(s, step) && step.Run? && s.m.file.Some? && s.m.st.Some?
    requires !LocalUnchanged(Shown(s.m, rules.hidden), s.m.st, step.c.tracksExec)
    requires ValueOf(ItemsOf(Shown(s.m, rules.hidden).value), n) != ValueOf(BaseOr(s.m), n)
    ensures var m := Next(s, step, rules).m;
            m.file.Some? && ValueOf(m.file.value, n) == ValueOf(s.m.file.value, n)
  {
    hide Inv, Enabled, Next, RunOf, ItemsWritten, LocalUnchanged, Shown, HeldIn, ValueOf, BaseOr;
    QuietOrOwn(s.m, rules.hidden, n);
    FileAfter(s, step, rules);
    if RunOf(s, step, rules).Some? && ItemsWritten(RunOf(s, step, rules).value).Some? {
      RunAbsorbs(s, step, rules);
      RunWrites(s, step, rules, n);
    }
  }

  // A changed item is not hidden, and shown as it stands.
  lemma QuietOrOwn(m: Local, hidden: Hidden, n: string)
    requires m.file.Some? && ValueOf(ItemsOf(Shown(m, hidden).value), n) != ValueOf(BaseOr(m), n)
    ensures !hidden(n) && ValueOf(ItemsOf(Shown(m, hidden).value), n) == ValueOf(m.file.value, n)
  {
    ScanSays(m.file.value, BaseOr(m), m.held, hidden, n);
    IndexHas(m.file.value, n);
    hide Scan, Index;
  }

  // What a run writes over changes has absorbed them.
  lemma RunAbsorbs(s: Sys, step: Step, rules: Rules)
    requires Inv(s, rules.hidden) && Enabled(s, step) && step.Run? && s.m.file.Some? && s.m.st.Some?
    requires !LocalUnchanged(Shown(s.m, rules.hidden), s.m.st, step.c.tracksExec)
    requires RunOf(s, step, rules).Some? && ItemsWritten(RunOf(s, step, rules).value).Some?
    ensures Absorbs(BaseOr(s.m), ItemsOf(Shown(s.m, rules.hidden).value),
                    ItemsWritten(RunOf(s, step, rules).value).value)
  {
    InvParts(s, rules.hidden);
    var v := ViewOf(s.m, rules.hidden);
    ViewIsWellFormed(s.m, step.c, rules.hidden);
    PlanKeyRests(v, step.info, step.r, step.c);
    CopiesAtFirstOnly(v, step.info, step.r, step.c);
    Changed(v, step.info, step.r, step.c);
    hide PlanKey, Scan, Fingerprint, HeldIn, Absorbs, LocalUnchanged, Inv, Released;
  }

  lemma CopiesAtFirstOnly(v: View, info: Option<ETag>, r: Option<Remote>, c: Setup)
    requires Readable(info, v.st, r) && PlanKey(v, info, r, c).Some? && v.st.Some?
    ensures !PlanKey(v, info, r, c).value.keepLocalCopy
  {
    hide Merged, Conflicts, Fingerprint;
  }

  lemma Changed(v: View, info: Option<ETag>, r: Option<Remote>, c: Setup)
    requires Readable(info, v.st, r) && !LocalUnchanged(v.disk, v.st, c.tracksExec)
    ensures PlanKey(v, info, r, c).Some?
  {
    hide MergeStructured, ProtectStructured;
  }

  // ------------------------------------------------ what the next scan sees

  // Hidden items that are here otherwise than synced, but for those that are
  // held back and absent.
  ghost predicate HiddenAsSynced(file: seq<Item>, items: seq<Item>, hold: Holding, hidden: Hidden) {
    forall n :: hidden(n) && ValueOf(file, n) != ValueOf(items, n) ==> HeldIn(n, items, hold) && !Has(file, n)
  }

  lemma WrittenLooksSynced(m: Local, items: seq<Item>, etag: ETag, hold: Holding, rules: Rules, tracksExec: bool)
    requires Distinct(FileItems(m)) && Distinct(items)
    ensures var w := WriteHere(m, items, etag, hold, rules);
            LocalUnchanged(Shown(w, rules.hidden), w.st, tracksExec)
            <==> HiddenAsSynced(FileItems(m), items, hold, rules.hidden)
  {
    hide Scan, WrittenFile, RecordedItems, HeldList, Fingerprint, ValueOf, HeldIn;
    HeldNeverLookDeleted(FileItems(m), items, HeldSet(items, hold), rules.hidden, rules.indent);
    forall n
      ensures !OwnDiffers(FileItems(m), items, HeldSet(items, hold), rules.hidden, n)
              <==> (rules.hidden(n) && ValueOf(FileItems(m), n) != ValueOf(items, n) ==>
                      HeldIn(n, items, hold) && !Has(FileItems(m), n))
    {
      InHeldSet(items, hold, n);
    }
    hide HeldSet, OwnDiffers;
  }

  // After a download the file looks as synced exactly when its hidden items
  // are; the state names the version that came.
  lemma DownloadedLooksSynced(s: Sys, step: Step, rules: Rules)
    requires Inv(s, rules.hidden) && Enabled(s, step) && step.Run?
    requires RunOf(s, step, rules).Some? && RunOf(s, step, rules).value.kind == Download
    ensures var a, m := RunOf(s, step, rules).value, Next(s, step, rules).m;
            && a.remote.Some? && a.remote.value.body.Live?
            && m.st.Some? && m.st.value.etag == a.remote.value.etag
            && (LocalUnchanged(Shown(m, rules.hidden), m.st, step.c.tracksExec)
                <==> HiddenAsSynced(FileItems(s.m), ItemsOf(a.remote.value.body.entry), step.hold, rules.hidden))
  {
    InvParts(s, rules.hidden);
    FileIsDistinct(s, rules.hidden);
    PlanKinds(s.m, step.info, step.r, step.hold, step.c, rules.hidden);
    var a := RunOf(s, step, rules).value;
    WrittenLooksSynced(s.m, ItemsOf(a.remote.value.body.entry), a.remote.value.etag, step.hold, rules,
                       step.c.tracksExec);
    hide PlanRun, Shown, LocalUnchanged, HiddenAsSynced, Inv, HeldSet, HeldList, WrittenFile, RecordedItems;
  }

  // The state of the file as it is shown.
  function StateShown(m: Local, hidden: Hidden, etag: ETag): Option<EntryState> {
    if m.file.None? then None else Some(StateOf(Shown(m, hidden).value, etag))
  }

  // The scanned items, taken as the base, are what the next scan shows.
  lemma ShownAgain(m: Local, again: Local, hidden: Hidden)
    requires GoodLocal(m) && m.file.Some? && again.file == m.file && again.held == m.held
    requires again.base == Some(ItemsOf(Shown(m, hidden).value))
    requires again.st.Some? && !again.st.value.snap.SnapTombstone?
    ensures Distinct(again.base.value)
    ensures LocalUnchanged(Shown(again, hidden), StateShown(m, hidden, again.st.value.etag), true)
  {
    hide Scan, Fingerprint, ValueOf;
    var items := again.base.value;
    Plan.EmptyIsDistinct();
    ScanDistinct(m.file.value, BaseOr(m), m.held, hidden);
    ScanDistinct(m.file.value, items, m.held, hidden);
    forall n ensures ValueOf(Scan(m.file.value, items, m.held, hidden), n) == ValueOf(items, n) {
      ScanSays(m.file.value, BaseOr(m), m.held, hidden, n);
      ScanSays(m.file.value, items, m.held, hidden, n);
    }
    FingerprintIdentifies(Scan(m.file.value, items, m.held, hidden), items);
  }

  // An upload stores what was shown, and the file then looks as synced.
  lemma UploadedLooksSynced(s: Sys, step: Step, put: Step, rules: Rules)
    requires Inv(s, rules.hidden) && Enabled(s, step) && step.Run?
    requires RunOf(s, step, rules).Some? && RunOf(s, step, rules).value.kind == Upload
    requires Enabled(Next(s, step, rules), put) && put.Put?
    ensures var t := Next(Next(s, step, rules), put, rules);
            && s.m.file.Some? && t.m.file == s.m.file
            && t.obj == Some(Obj(Live(Shown(s.m, rules.hidden).value), put.tag))
            && t.m.st.Some? && t.m.st.value.etag == (if put.reported then put.tag else 0)
            && LocalUnchanged(Shown(t.m, rules.hidden), t.m.st, true)
  {
    InvParts(s, rules.hidden);
    PlanKinds(s.m, step.info, step.r, step.hold, step.c, rules.hidden);
    var t := Next(Next(s, step, rules), put, rules);
    ShownAgain(s.m, t.m, rules.hidden);
    hide PlanRun, LocalUnchanged, Inv, Scan, Fingerprint;
  }

  lemma MergeLeaves(s: Sys, step: Step, put: Step, rules: Rules)
    requires Enabled(s, step) && step.Run? && RunOf(s, step, rules).Some?
    requires RunOf(s, step, rules).value.kind == Merge
    requires Enabled(Next(s, step, rules), put) && put.Put?
    ensures var a, t := RunOf(s, step, rules).value, Next(Next(s, step, rules), put, rules);
            && t.m == WriteHere(s.m, a.merged, if put.reported then put.tag else 0, step.hold, rules)
            && t.obj == Some(Obj(Live(File(Items(a.merged), false)), put.tag))
  {
    hide PlanRun, HeldSet, HeldList, WrittenFile, RecordedItems, Fingerprint, FileItems, Plan.Readable, StateOf;
  }

  // A merge stores what was merged; the file, written before that, looks as
  // synced exactly when its hidden items are.
  lemma MergedLooksSynced(s: Sys, step: Step, put: Step, rules: Rules)
    requires Inv(s, rules.hidden) && Enabled(s, step) && step.Run?
    requires RunOf(s, step, rules).Some? && RunOf(s, step, rules).value.kind == Merge
    requires Enabled(Next(s, step, rules), put) && put.Put?
    ensures var a, t := RunOf(s, step, rules).value, Next(Next(s, step, rules), put, rules);
            && t.obj == Some(Obj(Live(File(Items(a.merged), false)), put.tag))
            && t.m.st.Some? && t.m.st.value.etag == (if put.reported then put.tag else 0)
            && (LocalUnchanged(Shown(t.m, rules.hidden), t.m.st, step.c.tracksExec)
                <==> HiddenAsSynced(FileItems(s.m), a.merged, step.hold, rules.hidden))
  {
    InvParts(s, rules.hidden);
    FileIsDistinct(s, rules.hidden);
    PlanKinds(s.m, step.info, step.r, step.hold, step.c, rules.hidden);
    var a := RunOf(s, step, rules).value;
    WrittenLooksSynced(s.m, a.merged, if put.reported then put.tag else 0, step.hold, rules, step.c.tracksExec);
    MergeLeaves(s, step, put, rules);
    hide Next, Enabled, RunOf, Inv, LocalUnchanged, HiddenAsSynced, Shown, FileItems, HeldSet, HeldList, WrittenFile,
         RecordedItems, Fingerprint;
  }

  // Content both sides share is only recorded, and then looks as synced.
  lemma RecordedLooksSynced(s: Sys, step: Step, rules: Rules)
    requires Inv(s, rules.hidden) && Enabled(s, step) && step.Run?
    requires RunOf(s, step, rules).Some? && RunOf(s, step, rules).value.kind == Record
    ensures var m := Next(s, step, rules).m;
            && m.file == s.m.file && step.r.Some?
            && m.st.Some? && m.st.value.etag == step.r.value.etag
            && LocalUnchanged(Shown(m, rules.hidden), m.st, true)
            && (m.file.None? ==> m.base.None? && m.held == [])
  {
    InvParts(s, rules.hidden);
    PlanKinds(s.m, step.info, step.r, step.hold, step.c, rules.hidden);
    var m := Next(s, step, rules).m;
    if s.m.file.Some? { ShownAgain(s.m, m, rules.hidden); }
    hide PlanRun, Inv, Scan, Fingerprint;
  }

  // ------------------------------------------------- what stays back there

  // An item held back here, and absent from the file, stays in the store as it
  // is, whatever a run uploads.
  lemma HeldStaysBack(s: Sys, step: Step, put: Step, rules: Rules, n: string)
    requires Inv(s, rules.hidden) && Enabled(s, step) && step.Run?
    requires n in s.m.held && !Has(FileItems(s.m), n)
    requires Enabled(Next(s, step, rules), put) && put.Put? && s.obj.Some? && s.obj.value.body.Live?
    ensures var o := Next(Next(s, step, rules), put, rules).obj;
            && o.Some? && o.value.body.Live?
            && ValueOf(ItemsOf(o.value.body.entry), n) == ValueOf(ItemsOf(s.obj.value.body.entry), n)
  {
    var t := Next(s, step, rules);
    SentAfter(s, step, rules);
    QuietCarries(s, step, rules, t.upload.value.a, n);
    assert s.obj.value.etag in s.past && s.past[s.obj.value.etag] == s.obj.value.body;
    hide PlanRun, Inv, ValueOf, Applied, Departing;
  }

  lemma SentAfter(s: Sys, step: Step, rules: Rules)
    requires Enabled(s, step) && step.Run? && Next(s, step, rules).upload.Some?
    ensures var u := Next(s, step, rules).upload.value;
            RunOf(s, step, rules) == Some(u.a) && (u.a.kind == Upload || u.a.kind == Merge)
  {
    hide PlanRun, WriteHere, Plan.Readable;
  }
}
