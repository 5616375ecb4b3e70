// internal/engine/apply.go and journal.go: a sync that stops after any part
// of its disk writes and uploads, before the state is saved, is completed by
// the next sync, which recognizes finished work by its content.
module Crash {
  import opened Options
  import opened Structured
  import opened Plan
  import opened Round

  // How far the interrupted run got with one key.
  datatype Stage = Untouched | DiskWritten | Stored

  // What the interruption leaves: the disk, perhaps the base and perhaps the
  // object are new, the saved state is the old one.
  function Interrupted(v: View, obj: Option<Obj>, a: Action, c: Setup, tag: ETag, stage: Stage, baseSaved: bool): Pair
    requires a.kind == Upload ==> a.local.Some?
    requires stage.Stored? ==> Uploads(a)
  {
    var v1 := LocalStep(v, a, c);
    match stage
    case Untouched => Pair(v, obj)
    case DiskWritten => Pair(v1.(st := v.st, base := if baseSaved then v1.base else v.base), obj)
    case Stored =>
      var v2 := Uploaded(v1, a, tag, c);
      Pair(v2.(st := v.st, base := if baseSaved then v2.base else v.base), Some(Obj(Payload(a, v1.st, c), tag)))
  }

  // The base kept for merges is what the state describes.
  ghost predicate BaseInSync(v: View, c: Setup) {
    c.structured && v.st.Some? && v.st.value.snap.SnapFile?
    ==> v.base.Some? && v.st.value.snap.hash == ItemsPrint(Fingerprint(v.base.value))
  }

  function SnapOf(v: View): Option<Snapshot> {
    if v.st.Some? then Some(v.st.value.snap) else None
  }

  // Without an execute bit on disk, the bit of a finished file survives only
  // in the state that was not saved.
  ghost predicate BitForgotten(done: Pair, a: Action, c: Setup, stage: Stage) {
    && !c.tracksExec && done.v.st.Some? && done.v.st.value.snap.SnapFile? && done.v.st.value.snap.exec
    && (stage.Stored? || (stage.DiskWritten? && a.kind == Download))
  }

  ghost predicate Recovered(done: Pair, redo: Pair, forgotten: bool) {
    && redo.v.disk == done.v.disk
    && redo.obj.Some? == done.obj.Some? && BodyOf(redo.obj) == BodyOf(done.obj)
    && (SnapOf(redo.v) == SnapOf(done.v) <==> !forgotten)
  }

  ghost predicate SameBase(a: Option<seq<Item>>, b: Option<seq<Item>>) {
    a.Some? == b.Some? && (a.Some? ==> SameValues(a.value, b.value))
  }

  // A link uploaded in the place of a structured file, whose old base was not
  // dropped before the interruption: recording a link leaves the base alone.
  ghost predicate BaseLeftOver(v: View, a: Action, stage: Stage, baseSaved: bool) {
    stage.Stored? && !baseSaved && a.kind == Upload && a.local.Some? && a.local.value.Link? && v.base.Some?
  }

  lemma LocalKeepsBase(v: View, a: Action, c: Setup)
    requires BaseInSync(v, c) && (a.local.Some? ==> WellFormedEntry(a.local.value, c.structured))
    ensures BaseInSync(LocalStep(v, a, c), c)
  {
    hide Fingerprint, Distinct;
  }

  lemma UploadKeepsBase(v: View, a: Action, c: Setup, reported: ETag)
    requires BaseInSync(v, c) && (a.local.Some? ==> WellFormedEntry(a.local.value, c.structured))
    requires Uploads(a) && (a.kind == Upload ==> a.local.Some?)
    ensures BaseInSync(Uploaded(v, a, reported, c), c)
  {
    hide Fingerprint, Distinct;
  }

  // A round keeps it so: the next merge is against what was synced last.
  lemma RoundKeepsBase(v: View, obj: Option<Obj>, c: Setup, tag: ETag, reported: ETag)
    requires Sound(v, obj, c) && BaseInSync(v, c)
    ensures BaseInSync(RoundKey(v, obj, c, tag, reported).v, c)
  {
    if Planned(v, obj, c).Some? {
      var a := Planned(v, obj, c).value;
      PlanKeyBasics(v, InfoOf(obj), Fetched(v, obj, c), c);
      LocalKeepsBase(v, a, c);
      if Uploads(a) { UploadKeepsBase(LocalStep(v, a, c), a, c, reported); }
    }
    hide PlanKey, LocalStep, Uploaded, Payload, BaseInSync, WellFormedEntry;
  }

  // Content both sides already share is only recorded, whatever the saved
  // state says; if the state names the object already, nothing is left to do.
  lemma Recognized(v: View, obj: Option<Obj>, c: Setup)
    requires obj.Some? && SameContent(v.disk, obj.value.body, c.tracksExec)
    ensures var plan := Planned(v, obj, c);
            && (plan.None? <==> LocalUnchanged(v.disk, v.st, c.tracksExec) && RemoteUnchanged(InfoOf(obj), v.st))
            && (plan.Some? && !RemoteUnchanged(InfoOf(obj), v.st) ==>
                  plan.value.kind == Record && plan.value.local == v.disk
                  && plan.value.remote == Some(Remote(obj.value.body, obj.value.etag)))
  {
    hide Structured.Fingerprint, Structured.Merged, Structured.Conflicts;
  }

  lemma DescribedIsUnchanged(v: View, obj: Option<Obj>, c: Setup)
    requires obj.Some? && SameContent(v.disk, obj.value.body, c.tracksExec) && v.st.Some?
    requires Describes(v.st.value.snap, obj.value.body, c.tracksExec)
    ensures LocalUnchanged(v.disk, v.st, c.tracksExec)
  {
    hide Structured.Fingerprint;
  }

  lemma RedoDownload(v: View, obj: Option<Obj>, a: Action, c: Setup, tag: ETag, baseSaved: bool,
                     reported: ETag, tag2: ETag, reported2: ETag)
    requires Grounded(v, obj, a, c) && a.kind == Download
    ensures var done := Carried(v, obj, a, c, tag, reported);
            var crashed := Interrupted(v, obj, a, c, tag, DiskWritten, baseSaved);
            Recovered(done, RoundKey(crashed.v, crashed.obj, c, tag2, reported2), BitForgotten(done, a, c, DiskWritten))
  {
    hide Plan.Absorbs, Structured.Fingerprint, Plan.PlanKey;
    var crashed := Interrupted(v, obj, a, c, tag, DiskWritten, baseSaved);
    assert SameContent(crashed.v.disk, obj.value.body, c.tracksExec);
    Recognized(crashed.v, obj, c);
    if RemoteUnchanged(InfoOf(obj), v.st) { DescribedIsUnchanged(crashed.v, obj, c); }
  }

  lemma RedoRemoval(v: View, obj: Option<Obj>, a: Action, c: Setup, tag: ETag, baseSaved: bool,
                    reported: ETag, tag2: ETag, reported2: ETag)
    requires Grounded(v, obj, a, c) && a.kind == RemoveLocal
    ensures var done := Carried(v, obj, a, c, tag, reported);
            var crashed := Interrupted(v, obj, a, c, tag, DiskWritten, baseSaved);
            Recovered(done, RoundKey(crashed.v, crashed.obj, c, tag2, reported2), false)
  {
    hide Plan.Absorbs, Structured.Fingerprint, Plan.PlanKey;
    var crashed := Interrupted(v, obj, a, c, tag, DiskWritten, baseSaved);
    Recognized(crashed.v, obj, c);
    if RemoteUnchanged(InfoOf(obj), v.st) { DescribedIsUnchanged(crashed.v, obj, c); }
  }

  lemma {:induction false} RedoUpload(v: View, obj: Option<Obj>, a: Action, c: Setup, tag: ETag, baseSaved: bool,
                   reported: ETag, tag2: ETag, reported2: ETag)
    requires Grounded(v, obj, a, c) && Fresh(v, tag, reported) && Uploads(a)
    ensures var done := Carried(v, obj, a, c, tag, reported);
            var crashed := Interrupted(v, obj, a, c, tag, Stored, baseSaved);
            Recovered(done, RoundKey(crashed.v, crashed.obj, c, tag2, reported2), BitForgotten(done, a, c, Stored))
  {
    hide Plan.Absorbs, Structured.Fingerprint, Plan.PlanKey;
    var crashed := Interrupted(v, obj, a, c, tag, Stored, baseSaved);
    assert SameContent(crashed.v.disk, crashed.obj.value.body, c.tracksExec);
    Recognized(crashed.v, crashed.obj, c);
  }

  // A base that changed makes no difference to what is not a merge.
  lemma BaseIrrelevant(v: View, obj: Option<Obj>, c: Setup, base: Option<seq<Item>>)
    requires Planned(v, obj, c).Some? && Planned(v, obj, c).value.kind in {Record, Forget}
    ensures Planned(v.(base := base), obj, c) == Planned(v, obj, c)
  {
    hide Structured.Fingerprint, Structured.Merged, Structured.Conflicts;
  }

  lemma RedoRest(v: View, obj: Option<Obj>, a: Action, c: Setup, tag: ETag, baseSaved: bool,
                 reported: ETag, tag2: ETag, reported2: ETag)
    requires Grounded(v, obj, a, c) && Planned(v, obj, c) == Some(a)
    requires a.kind !in {Download, RemoveLocal, Merge}
    ensures var done := Carried(v, obj, a, c, tag, reported);
            var crashed := Interrupted(v, obj, a, c, tag, DiskWritten, baseSaved);
            Recovered(done, RoundKey(crashed.v, crashed.obj, c, tag2, reported2), false)
  {
    hide Plan.Absorbs, Structured.Fingerprint, Plan.PlanKey;
    var crashed := Interrupted(v, obj, a, c, tag, DiskWritten, baseSaved);
    assert crashed.v == v.(base := crashed.v.base);
    if a.kind in {Record, Forget} { BaseIrrelevant(v, obj, c, crashed.v.base); }
    else { assert crashed.v == v; }
  }

  lemma RedoUntouched(v: View, obj: Option<Obj>, a: Action, c: Setup, tag: ETag,
                      reported: ETag, tag2: ETag, reported2: ETag)
    requires Grounded(v, obj, a, c) && Planned(v, obj, c) == Some(a)
    ensures Recovered(Carried(v, obj, a, c, tag, reported), RoundKey(v, obj, c, tag2, reported2), false)
  {
    hide Plan.Absorbs, Structured.Fingerprint, Plan.PlanKey;
  }

  // Where a planned merge comes from: the merge of disk and store against
  // the base, or against nothing on a first sync.
  lemma MergeOrigin(v: View, obj: Option<Obj>, a: Action, c: Setup)
    requires Grounded(v, obj, a, c) && Planned(v, obj, c) == Some(a) && a.kind == Merge
    ensures obj.Some? && obj.value.body.Live? && obj.value.body.entry.File? && v.disk.Some? && c.structured
    ensures var first := v.st.None?;
            var b := if first then [] else BaseItems(v);
            var local, remote := ItemsOf(v.disk.value), ItemsOf(obj.value.body.entry);
            a.merged == Merged(b, local, remote, first) && Conflicts(b, local, remote, first) == []
    ensures !RemoteUnchanged(InfoOf(obj), v.st)
    ensures !SameValues(a.merged, ItemsOf(obj.value.body.entry))
  {
    hide Structured.Fingerprint, Structured.Merged, Structured.Conflicts, Decide;
    DecideRests(v.disk, InfoOf(obj), v.st, Fetched(v, obj, c), c);
  }

  // Merging the written merge with the same remote again gives it back.
  lemma MergeAgain(b: seq<Item>, local: seq<Item>, remote: seq<Item>, first: bool)
    requires Distinct(local) && Distinct(remote) && Conflicts(b, local, remote, first) == []
    requires first ==> b == []
    ensures var m := Merged(b, local, remote, first);
            && Conflicts(b, m, remote, first) == []
            && Distinct(Merged(b, m, remote, first)) && SameValues(Merged(b, m, remote, first), m)
  {
    var m := Merged(b, local, remote, first);
    MergeIsThreeWay(b, local, remote, first);
    MergeIsThreeWay(b, m, remote, first);
    NoConflictsMeans(b, local, remote, first);
    NoConflictsMeans(b, m, remote, first);
  }

  lemma MergeIsNotTheState(v: View, obj: Option<Obj>, a: Action, c: Setup)
    requires Grounded(v, obj, a, c) && a.kind == Merge && BaseInSync(v, c)
    requires a.keepLocalCopy <==> v.st.None?
    ensures !LocalUnchanged(Some(File(Items(a.merged), false)), v.st, c.tracksExec)
  {
    var remote := ItemsOf(obj.value.body.entry);
    if v.st.Some? && v.st.value.snap.SnapFile? {
      FingerprintIdentifies(a.merged, v.base.value);
      FingerprintIdentifies(remote, a.merged);
    }
  }

  // What is decided on a written merge: the same as before it was written.
  lemma DecidedAgain(v: View, obj: Option<Obj>, a: Action, c: Setup)
    requires Grounded(v, obj, a, c) && Planned(v, obj, c) == Some(a) && a.kind == Merge && BaseInSync(v, c)
    ensures var w := v.(disk := Some(File(Items(a.merged), false)));
            obj.Some? &&
            var r := Remote(obj.value.body, obj.value.etag);
            var first := v.st.None?;
            && Fetched(w, obj, c) == Some(r)
            && Decide(w.disk, InfoOf(obj), w.st, Some(r), c)
               == Some(Action(if first then Download else Conflict, w.disk, Some(r),
                              if first then 0 else r.etag, first, []))
  {
    hide Structured.Fingerprint, Structured.Merged, Structured.Conflicts, Plan.PlanKey;
    MergeOrigin(v, obj, a, c);
    MergeKept(v, obj, a, c);
    MergeIsNotTheState(v, obj, a, c);
    FingerprintIdentifies(a.merged, ItemsOf(obj.value.body.entry));
  }

  lemma MergeKept(v: View, obj: Option<Obj>, a: Action, c: Setup)
    requires Grounded(v, obj, a, c) && Planned(v, obj, c) == Some(a) && a.kind == Merge
    ensures a.keepLocalCopy <==> v.st.None?
  {
    hide Structured.Fingerprint, Structured.Merged, Structured.Conflicts, Decide;
    DecideRests(v.disk, InfoOf(obj), v.st, Fetched(v, obj, c), c);
  }

  lemma PlannedFrom(v: View, obj: Option<Obj>, c: Setup, d: Action)
    requires Decide(v.disk, InfoOf(obj), v.st, Fetched(v, obj, c), c) == Some(d)
    ensures Planned(v, obj, c) == Some(ProtectStructured(MergeStructured(d, c.structured, BaseItems(v)), c.structured))
  {
    hide Decide, MergeStructured, ProtectStructured, Fetched, BaseItems;
  }

  // A conflict or first download over a written merge settles as its upload.
  lemma SettlesAsUpload(d: Action, base: seq<Item>, local: seq<Item>, first: bool)
    requires Mergeable(d, true) && WellFormedEntry(d.local.value, true) && WellFormedBody(d.remote.value.body, true)
    requires d.local.value.File? && first == (d.kind == Download) && Distinct(local)
    requires var b, remote := if first then [] else base, ItemsOf(d.remote.value.body.entry);
             && Conflicts(b, local, remote, first) == []
             && ItemsOf(d.local.value) == Merged(b, local, remote, first)
             && !SameValues(ItemsOf(d.local.value), remote)
    ensures var p := MergeStructured(d, true, base);
            p.kind == Upload && p.ifMatch == d.remote.value.etag && p.local == d.local
  {
    hide Structured.Fingerprint, Structured.Merged, Structured.Conflicts, Structured.ValueOf;
    var b, remote := if first then [] else base, ItemsOf(d.remote.value.body.entry);
    MergeAgain(b, local, remote, first);
    var again := Merged(b, ItemsOf(d.local.value), remote, first);
    SettleSays(d, again, first, true);
    assert forall n :: ValueOf(again, n) == ValueOf(ItemsOf(d.local.value), n);
  }

  // What is planned on a written merge: its upload.
  lemma MergePlannedAgain(v: View, obj: Option<Obj>, a: Action, c: Setup)
    requires Grounded(v, obj, a, c) && Planned(v, obj, c) == Some(a) && a.kind == Merge && BaseInSync(v, c)
    ensures var w := v.(disk := Some(File(Items(a.merged), false)));
            var b := Planned(w, obj, c);
            && obj.Some? && b.Some? && b.value.kind == Upload
            && b.value.ifMatch == obj.value.etag && b.value.local == w.disk
  {
    hide Structured.Fingerprint, Structured.Merged, Structured.Conflicts, Structured.ValueOf, Decide, Fetched,
        MergeStructured;
    MergeOrigin(v, obj, a, c);
    DecidedAgain(v, obj, a, c);
    var first := v.st.None?;
    var w := v.(disk := Some(File(Items(a.merged), false)));
    var r := Remote(obj.value.body, obj.value.etag);
    var d := Action(if first then Download else Conflict, w.disk, Some(r), if first then 0 else r.etag, first, []);
    SettlesAsUpload(d, BaseItems(v), ItemsOf(v.disk.value), first);
    PlannedFrom(w, obj, c, d);
  }

  lemma RedoMerge(v: View, obj: Option<Obj>, a: Action, c: Setup, tag: ETag, baseSaved: bool,
                  reported: ETag, tag2: ETag, reported2: ETag)
    requires Grounded(v, obj, a, c) && Planned(v, obj, c) == Some(a) && a.kind == Merge && BaseInSync(v, c)
    ensures var done := Carried(v, obj, a, c, tag, reported);
            var crashed := Interrupted(v, obj, a, c, tag, DiskWritten, baseSaved);
            Recovered(done, RoundKey(crashed.v, crashed.obj, c, tag2, reported2), false)
  {
    hide Plan.Absorbs, Structured.Fingerprint, Plan.PlanKey;
    MergePlannedAgain(v, obj, a, c);
    var crashed := Interrupted(v, obj, a, c, tag, DiskWritten, baseSaved);
    var w := v.(disk := Some(File(Items(a.merged), false)));
    assert crashed.v == w.(aside := crashed.v.aside);
    AsideIrrelevant(w, obj, c, crashed.v.aside);
  }

  lemma AsideIrrelevant(v: View, obj: Option<Obj>, c: Setup, aside: set<Entry>)
    ensures Planned(v.(aside := aside), obj, c) == Planned(v, obj, c)
  {
    hide Decide, MergeStructured, ProtectStructured;
  }

  // -------------------------------------------------------------- the base

  lemma SameValuesItself(items: seq<Item>)
    ensures SameValues(items, items)
  {
  }

  // The base a recognized entry leaves: its items, where it is a file and was
  // not already what the state names.
  lemma RecognizedBase(v: View, obj: Option<Obj>, c: Setup, tag: ETag, reported: ETag)
    requires obj.Some? && SameContent(v.disk, obj.value.body, c.tracksExec) && c.structured
    requires v.disk.Some? && WellFormedEntry(v.disk.value, true)
    ensures var redo := RoundKey(v, obj, c, tag, reported);
            if !RemoteUnchanged(InfoOf(obj), v.st) && v.disk.value.File? then redo.v.base == Some(ItemsOf(v.disk.value))
            else if Planned(v, obj, c).None? || !RemoteUnchanged(InfoOf(obj), v.st) then redo.v.base == v.base
            else true
  {
    hide Plan.PlanKey, Structured.Fingerprint;
    Recognized(v, obj, c);
  }

  lemma DownloadBase(v: View, obj: Option<Obj>, a: Action, c: Setup, tag: ETag, baseSaved: bool,
                     reported: ETag, tag2: ETag, reported2: ETag)
    requires Grounded(v, obj, a, c) && a.kind == Download && c.structured && BaseInSync(v, c)
    ensures var done := Carried(v, obj, a, c, tag, reported);
            var crashed := Interrupted(v, obj, a, c, tag, DiskWritten, baseSaved);
            SameBase(RoundKey(crashed.v, crashed.obj, c, tag2, reported2).v.base, done.v.base)
  {
    hide Plan.Absorbs, Structured.Fingerprint, Plan.PlanKey;
    var crashed := Interrupted(v, obj, a, c, tag, DiskWritten, baseSaved);
    var e := obj.value.body.entry;
    assert SameContent(crashed.v.disk, obj.value.body, c.tracksExec);
    Recognized(crashed.v, obj, c);
    RecognizedBase(crashed.v, obj, c, tag2, reported2);
    SameValuesItself(ItemsOf(e));
    if v.base.Some? { SameValuesItself(v.base.value); }
    if RemoteUnchanged(InfoOf(obj), v.st) {
      DescribedIsUnchanged(crashed.v, obj, c);
      if e.File? { FingerprintIdentifies(v.base.value, ItemsOf(e)); }
    }
  }

  lemma UploadBase(v: View, obj: Option<Obj>, a: Action, c: Setup, tag: ETag, baseSaved: bool,
                   reported: ETag, tag2: ETag, reported2: ETag)
    requires Grounded(v, obj, a, c) && Fresh(v, tag, reported) && Uploads(a) && c.structured
    ensures var done := Carried(v, obj, a, c, tag, reported);
            var crashed := Interrupted(v, obj, a, c, tag, Stored, baseSaved);
            SameBase(RoundKey(crashed.v, crashed.obj, c, tag2, reported2).v.base, done.v.base)
            <==> !BaseLeftOver(v, a, Stored, baseSaved)
  {
    hide Plan.Absorbs, Structured.Fingerprint, Plan.PlanKey;
    var crashed := Interrupted(v, obj, a, c, tag, Stored, baseSaved);
    assert SameContent(crashed.v.disk, crashed.obj.value.body, c.tracksExec);
    RecognizedBase(crashed.v, crashed.obj, c, tag2, reported2);
    SameValuesItself(ItemsOf(crashed.v.disk.value));
  }

  lemma RestBase(v: View, obj: Option<Obj>, a: Action, c: Setup, tag: ETag, baseSaved: bool,
                 reported: ETag, tag2: ETag, reported2: ETag)
    requires Grounded(v, obj, a, c) && Planned(v, obj, c) == Some(a) && c.structured
    requires a.kind !in {Download, Merge}
    ensures var done := Carried(v, obj, a, c, tag, reported);
            var crashed := Interrupted(v, obj, a, c, tag, DiskWritten, baseSaved);
            SameBase(RoundKey(crashed.v, crashed.obj, c, tag2, reported2).v.base, done.v.base)
  {
    hide Plan.Absorbs, Structured.Fingerprint, Plan.PlanKey;
    var crashed := Interrupted(v, obj, a, c, tag, DiskWritten, baseSaved);
    assert crashed.v == v.(base := crashed.v.base);
    if a.kind in {Record, Forget} { BaseIrrelevant(v, obj, c, crashed.v.base); }
    else { assert crashed.v == v; }
  }

  lemma MergeBaseAgain(v: View, obj: Option<Obj>, a: Action, c: Setup, tag: ETag, baseSaved: bool,
                       reported: ETag, tag2: ETag, reported2: ETag)
    requires Grounded(v, obj, a, c) && Planned(v, obj, c) == Some(a) && a.kind == Merge && BaseInSync(v, c)
    ensures var done := Carried(v, obj, a, c, tag, reported);
            var crashed := Interrupted(v, obj, a, c, tag, DiskWritten, baseSaved);
            SameBase(RoundKey(crashed.v, crashed.obj, c, tag2, reported2).v.base, done.v.base)
  {
    hide Plan.Absorbs, Structured.Fingerprint, Plan.PlanKey;
    MergePlannedAgain(v, obj, a, c);
    var crashed := Interrupted(v, obj, a, c, tag, DiskWritten, baseSaved);
    var w := v.(disk := Some(File(Items(a.merged), false)));
    assert crashed.v == w.(aside := crashed.v.aside);
    AsideIrrelevant(w, obj, c, crashed.v.aside);
  }

  lemma UntouchedBase(v: View, obj: Option<Obj>, a: Action, c: Setup, tag: ETag,
                      reported: ETag, tag2: ETag, reported2: ETag)
    requires Grounded(v, obj, a, c) && Planned(v, obj, c) == Some(a)
    ensures SameBase(RoundKey(v, obj, c, tag2, reported2).v.base, Carried(v, obj, a, c, tag, reported).v.base)
  {
    hide Plan.Absorbs, Structured.Fingerprint, Plan.PlanKey;
  }

  lemma BaseRecovers(v: View, obj: Option<Obj>, a: Action, c: Setup, tag: ETag, baseSaved: bool, stage: Stage,
                     reported: ETag, tag2: ETag, reported2: ETag)
    requires Grounded(v, obj, a, c) && Fresh(v, tag, reported) && BaseInSync(v, c) && c.structured
    requires Planned(v, obj, c) == Some(a) && (stage.Stored? ==> Uploads(a)) && (a.kind == Upload ==> a.local.Some?)
    ensures var done := Carried(v, obj, a, c, tag, reported);
            var crashed := Interrupted(v, obj, a, c, tag, stage, baseSaved);
            SameBase(RoundKey(crashed.v, crashed.obj, c, tag2, reported2).v.base, done.v.base)
            <==> !BaseLeftOver(v, a, stage, baseSaved)
  {
    hide *;
    NothingLeftOver(v, a, stage, baseSaved);
    match stage
    case Untouched =>
      UntouchedIsAsBefore(v, obj, a, c, tag, baseSaved);
      UntouchedBase(v, obj, a, c, tag, reported, tag2, reported2);
    case Stored => UploadBase(v, obj, a, c, tag, baseSaved, reported, tag2, reported2);
    case DiskWritten =>
      if a.kind == Download { DownloadBase(v, obj, a, c, tag, baseSaved, reported, tag2, reported2); }
      else if a.kind == Merge { MergeBaseAgain(v, obj, a, c, tag, baseSaved, reported, tag2, reported2); }
      else { RestBase(v, obj, a, c, tag, baseSaved, reported, tag2, reported2); }
  }

  lemma NothingLeftOver(v: View, a: Action, stage: Stage, baseSaved: bool)
    ensures !stage.Stored? ==> !BaseLeftOver(v, a, stage, baseSaved)
  {
  }

  lemma UntouchedIsAsBefore(v: View, obj: Option<Obj>, a: Action, c: Setup, tag: ETag, baseSaved: bool)
    requires a.kind == Upload ==> a.local.Some?
    ensures Interrupted(v, obj, a, c, tag, Untouched, baseSaved) == Pair(v, obj)
  {
  }

  // Wherever a run was interrupted, and whether or not the base was saved by
  // then, the next run with nothing else changed ends with the disk, the
  // stored body, the state and the base the run would have reached: the state
  // in all cases but the one BitForgotten names, the base in all but the one
  // BaseLeftOver names.
  lemma InterruptedRunRecovers(v: View, obj: Option<Obj>, c: Setup, tag: ETag, reported: ETag,
                               stage: Stage, baseSaved: bool, tag2: ETag, reported2: ETag)
    requires Sound(v, obj, c) && Fresh(v, tag, reported) && BaseInSync(v, c)
    requires Planned(v, obj, c).Some? && (stage.Stored? ==> Uploads(Planned(v, obj, c).value))
    ensures var a := Planned(v, obj, c).value;
            (a.kind == Upload ==> a.local.Some?) &&
            var done := RoundKey(v, obj, c, tag, reported);
            var crashed := Interrupted(v, obj, a, c, tag, stage, baseSaved);
            var redo := RoundKey(crashed.v, crashed.obj, c, tag2, reported2);
            && Recovered(done, redo, BitForgotten(done, a, c, stage))
            && (c.structured ==> (SameBase(redo.v.base, done.v.base) <==> !BaseLeftOver(v, a, stage, baseSaved)))
  {
    hide Plan.PlanKey, Sound, Carried, Fetched, PutAllowed, Recovered, BaseInSync, Plan.PlanRests, SameBase;
    PlanGrounded(v, obj, c);
    PlanLands(v, obj, c, tag, reported);
    var a := Planned(v, obj, c).value;
    if c.structured { BaseRecovers(v, obj, a, c, tag, baseSaved, stage, reported, tag2, reported2); }
    match stage
    case Untouched => RedoUntouched(v, obj, a, c, tag, reported, tag2, reported2);
    case Stored => RedoUpload(v, obj, a, c, tag, baseSaved, reported, tag2, reported2);
    case DiskWritten =>
      if a.kind == Download { RedoDownload(v, obj, a, c, tag, baseSaved, reported, tag2, reported2); }
      else if a.kind == RemoveLocal { RedoRemoval(v, obj, a, c, tag, baseSaved, reported, tag2, reported2); }
      else if a.kind == Merge { RedoMerge(v, obj, a, c, tag, baseSaved, reported, tag2, reported2); }
      else { RedoRest(v, obj, a, c, tag, baseSaved, reported, tag2, reported2); }
  }

  // One key of a run that had anything to do with it.
  ghost predicate KeyRecovers(v: View, obj: Option<Obj>, c: Setup, tag: ETag, stage: Stage, baseSaved: bool, tag2: ETag)
    requires stage.Stored? ==> Planned(v, obj, c).Some? && Uploads(Planned(v, obj, c).value)
  {
    Planned(v, obj, c).Some? ==>
      var a := Planned(v, obj, c).value;
      (a.kind == Upload ==> a.local.Some?) &&
      var done := RoundKey(v, obj, c, tag, tag);
      var crashed := Interrupted(v, obj, a, c, tag, stage, baseSaved);
      var redo := RoundKey(crashed.v, crashed.obj, c, tag2, tag2);
      && Recovered(done, redo, BitForgotten(done, a, c, stage))
      && (c.structured ==> (SameBase(redo.v.base, done.v.base) <==> !BaseLeftOver(v, a, stage, baseSaved)))
  }

  // The same of a whole run: whatever it had done with each key by then.
  lemma InterruptedRunsRecover<K(!new)>(vs: K -> View, objs: K -> Option<Obj>, cs: K -> Setup, tags: K -> ETag,
                                        stages: K -> Stage, baseSaved: K -> bool, tags2: K -> ETag)
    requires forall k :: Sound(vs(k), objs(k), cs(k)) && Fresh(vs(k), tags(k), tags(k)) && BaseInSync(vs(k), cs(k))
    requires forall k :: stages(k).Stored? ==>
                           Planned(vs(k), objs(k), cs(k)).Some? && Uploads(Planned(vs(k), objs(k), cs(k)).value)
    ensures forall k :: KeyRecovers(vs(k), objs(k), cs(k), tags(k), stages(k), baseSaved(k), tags2(k))
  {
    hide Sound, Fresh, BaseInSync, Planned, RoundKey, Recovered, Interrupted, SameBase, BaseLeftOver;
    forall k ensures KeyRecovers(vs(k), objs(k), cs(k), tags(k), stages(k), baseSaved(k), tags2(k)) {
      if Planned(vs(k), objs(k), cs(k)).Some? {
        InterruptedRunRecovers(vs(k), objs(k), cs(k), tags(k), tags(k), stages(k), baseSaved(k), tags2(k), tags2(k));
      }
    }
  }
}
