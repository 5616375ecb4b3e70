// internal/engine/plan.go and structured.go: what a round with nobody else
// writing makes of a key, told by the contents on both sides alone.
module Outcomes {
  import opened Options
  import opened Structured
  import opened Plan
  import opened Round

  // An object is read where the state does not name it, and where a
  // structured file was deleted here; the others are not.
  lemma FetchedExactly(v: View, obj: Option<Obj>, c: Setup)
    ensures Fetched(v, obj, c).Some?
            <==> && obj.Some?
                 && (|| v.st.None? || v.st.value.etag == 0 || v.st.value.etag != obj.value.etag
                     || (c.structured && v.disk.None? && v.st.value.snap.SnapFile?))
    ensures Fetched(v, obj, c).Some? ==> Fetched(v, obj, c) == Some(Remote(obj.value.body, obj.value.etag))
  {
  }

  // ----------------------------------------------------- what is compared

  // Comparing hashes comes to comparing contents: bytes of plain files, items
  // of structured ones, the target of links, and the bit where there is one.
  lemma SameMeans(l: Option<Entry>, r: Body, structured: bool, tracksExec: bool)
    requires (l.Some? ==> WellFormedEntry(l.value, structured)) && WellFormedBody(r, structured)
    ensures SameContent(l, r, tracksExec)
            <==> match (l, r)
                 case (None, Tombstone) => true
                 case (Some(Link(t, _)), Live(Link(u, _))) => t == u
                 case (Some(File(x, e)), Live(File(y, d))) =>
                   && (tracksExec ==> e == d)
                   && (if structured then forall n :: ValueOf(x.items, n) == ValueOf(y.items, n) else x.data == y.data)
                 case _ => false
  {
    if l.Some? && l.value.File? && r.Live? && r.entry.File? && structured {
      FingerprintIdentifies(l.value.content.items, r.entry.content.items);
    }
    hide Fingerprint;
  }

  // Nothing is decided about an entry exactly when it is as it was synced and
  // the listing names the very version it was synced with.
  lemma NothingToDo(v: View, info: Option<ETag>, r: Option<Remote>, c: Setup, synced: Option<Entry>, etag: ETag)
    requires v.st == Some(if synced.Some? then StateOf(synced.value, etag) else EntryState(etag, SnapTombstone))
    requires Readable(info, v.st, r)
    ensures PlanKey(v, info, r, c).None?
            <==> && info == Some(etag) && etag != 0
                 && SameContent(v.disk, if synced.Some? then Live(synced.value) else Tombstone, c.tracksExec)
  {
    hide MergeStructured, ProtectStructured, Fingerprint;
  }

  lemma NeverSynced(v: View, info: Option<ETag>, r: Option<Remote>, c: Setup)
    requires v.st.None? && Readable(info, v.st, r)
    ensures PlanKey(v, info, r, c).None? <==> v.disk.None? && info.None?
  {
    hide MergeStructured, ProtectStructured;
  }

  // ------------------------------------------------------ asking the user

  // Here is something never synced, the store holds nothing of it, and the
  // first sync may not upload on its own.
  ghost predicate Waits(v: View, obj: Option<Obj>, c: Setup) {
    && c.firstSync && !c.adoptLocal
    && v.disk.Some? && v.st.None? && (obj.None? || obj.value.body.Tombstone?)
  }

  lemma PendingExactly(v: View, obj: Option<Obj>, c: Setup)
    ensures Planned(v, obj, c).Some? && Planned(v, obj, c).value.kind == Pending
            <==> (&& c.firstSync && !c.adoptLocal
                  && v.disk.Some? && v.st.None? && (obj.None? || obj.value.body.Tombstone?))
  {
    hide Merged, Conflicts, Fingerprint;
  }

  // What this machine alone has is uploaded at once, unless it waits.
  lemma FirstUpload(v: View, obj: Option<Obj>, c: Setup, tag: ETag, reported: ETag)
    requires v.disk.Some? && v.st.None? && (obj.None? || (obj.value.body.Tombstone? && obj.value.etag != 0))
    ensures var p := RoundKey(v, obj, c, tag, reported);
            if c.firstSync && !c.adoptLocal then p == Pair(v, obj)
            else p.v.disk == v.disk && p.obj.Some? && SameContent(v.disk, p.obj.value.body, c.tracksExec)
  {
    hide Merged, Conflicts, Fingerprint;
  }

  // --------------------------------------------------------- plain entries

  ghost predicate Keeps(v: View, obj: Option<Obj>, p: Pair) {
    p.v.disk == v.disk && p.obj == obj
  }

  // The store takes what is here ...
  ghost predicate Sends(v: View, p: Pair, c: Setup) {
    p.v.disk == v.disk && p.obj.Some? && SameContent(v.disk, p.obj.value.body, c.tracksExec)
  }

  // ... or the disk what is there.
  ghost predicate Brings(obj: Option<Obj>, p: Pair, c: Setup) {
    obj.Some? && p.obj == obj && SameContent(p.v.disk, obj.value.body, c.tracksExec)
  }

  // One side changed: the other takes it over. An object that vanished is put
  // back unless it was a tombstone.
  lemma OneSideChanged(v: View, obj: Option<Obj>, c: Setup, tag: ETag, reported: ETag)
    requires Sound(v, obj, c) && !c.structured
    ensures var p := RoundKey(v, obj, c, tag, reported);
            var here, there := !LocalUnchanged(v.disk, v.st, c.tracksExec), !RemoteUnchanged(InfoOf(obj), v.st);
            && (!here && !there ==> p == Pair(v, obj))
            && (here && !there ==> if Waits(v, obj, c) then p == Pair(v, obj) else Sends(v, p, c))
            && (!here && there ==>
                  if obj.Some? then Brings(obj, p, c)
                  else if v.disk.Some? then Sends(v, p, c)
                  else Keeps(v, obj, p))
  {
    hide Merged, Conflicts, Fingerprint;
  }

  // Both sides changed: a changed entry wins over a deletion, equal entries
  // are taken as synced, and of two different ones the stored one comes here,
  // with this machine's set aside, if the entry was never synced; else both
  // stay and the user is asked.
  lemma BothSidesChanged(v: View, obj: Option<Obj>, c: Setup, tag: ETag, reported: ETag)
    requires Sound(v, obj, c) && !c.structured
    requires !LocalUnchanged(v.disk, v.st, c.tracksExec) && !RemoteUnchanged(InfoOf(obj), v.st)
    ensures var p := RoundKey(v, obj, c, tag, reported);
            if obj.None? then if v.disk.None? then Keeps(v, obj, p) else Sends(v, p, c)
            else if SameContent(v.disk, obj.value.body, c.tracksExec) then Keeps(v, obj, p)
            else if v.disk.None? then Brings(obj, p, c)
            else if obj.value.body.Tombstone? then if Waits(v, obj, c) then p == Pair(v, obj) else Sends(v, p, c)
            else if v.st.None? then Brings(obj, p, c) && v.disk.value in p.v.aside
            else p == Pair(v, obj) && Planned(v, obj, c).Some? && Planned(v, obj, c).value.kind == Conflict
  {
    hide Merged, Conflicts, Fingerprint;
  }

  // An upload carries the execute bit of the file, and where the file system
  // has none, the bit last synced.
  lemma UploadsKeepTheBit(v: View, obj: Option<Obj>, c: Setup, tag: ETag, reported: ETag)
    requires Sound(v, obj, c) && !c.structured && v.disk.Some? && v.disk.value.File?
    requires RoundKey(v, obj, c, tag, reported).obj != obj
    ensures var o := RoundKey(v, obj, c, tag, reported).obj;
            && o.Some? && o.value.body.Live? && o.value.body.entry.File?
            && o.value.body.entry.content == v.disk.value.content
            && o.value.body.entry.exec == if c.tracksExec then v.disk.value.exec
                                          else v.st.Some? && v.st.value.snap.SnapFile? && v.st.value.snap.exec
  {
    hide Merged, Conflicts, Fingerprint;
  }

  // What comes here is written as it is stored, but for a bit the file system
  // does not have; the state keeps it.
  lemma DownloadIsWritten(v: View, obj: Option<Obj>, c: Setup, tag: ETag, reported: ETag)
    requires Sound(v, obj, c) && !c.structured
    requires var d := RoundKey(v, obj, c, tag, reported).v.disk; d.Some? && d != v.disk
    ensures var p := RoundKey(v, obj, c, tag, reported);
            && p.obj == obj && obj.Some? && obj.value.body.Live?
            && match obj.value.body.entry
               case Link(t, d) =>
                 p.v.disk == Some(Link(t, d)) && p.v.st == Some(EntryState(obj.value.etag, SnapLink(t, d)))
               case File(x, bit) =>
                 && p.v.disk == Some(File(x, c.tracksExec && bit))
                 && p.v.st == Some(EntryState(obj.value.etag, SnapFile(Hash(x), bit)))
  {
    hide Merged, Conflicts, Fingerprint;
  }

  // An executable file that was downloaded where there is no bit, and edited
  // there, is still executable when it is uploaded.
  lemma BitComesThrough(v: View, obj: Option<Obj>, c: Setup, tag: ETag, reported: ETag, data: string, tag': ETag,
                        reported': ETag)
    requires Sound(v, obj, c) && !c.structured && !c.tracksExec
    requires var d := RoundKey(v, obj, c, tag, reported).v.disk; d.Some? && d.value.File? && d != v.disk
    ensures var p := RoundKey(v, obj, c, tag, reported);
            var o := RoundKey(p.v.(disk := Some(File(Blob(data), false))), p.obj, c, tag', reported').obj;
            && o.Some? && o.value.body.Live? && o.value.body.entry.File?
            && o.value.body.entry.content == Blob(data)
            && obj.Some? && obj.value.body.Live? && obj.value.body.entry.File?
            && o.value.body.entry.exec == obj.value.body.entry.exec
  {
    DownloadIsWritten(v, obj, c, tag, reported);
    var p := RoundKey(v, obj, c, tag, reported);
    EditedIsUploaded(p.v, obj.value, c, data, tag', reported');
    hide RoundKey;
  }

  lemma EditedIsUploaded(v: View, o: Obj, c: Setup, data: string, tag: ETag, reported: ETag)
    requires !c.structured && !c.tracksExec && o.etag != 0 && o.body.Live? && o.body.entry.File?
    requires v.st == Some(EntryState(o.etag, SnapFile(Hash(o.body.entry.content), o.body.entry.exec)))
    requires o.body.entry.content.Blob?
    ensures var q := RoundKey(v.(disk := Some(File(Blob(data), false))), Some(o), c, tag, reported).obj;
            q.Some? && q.value.body == Live(File(Blob(data), o.body.entry.exec))
  {
    hide Merged, Conflicts;
  }

  // What is carried out leaves a state that names the version in the store.
  lemma CarriedNames(v: View, obj: Option<Obj>, a: Action, c: Setup, tag: ETag)
    requires Grounded(v, obj, a, c) && a.kind !in {Conflict, Pending, Forget}
    ensures var p := Carried(v, obj, a, c, tag, tag);
            p.obj.Some? && p.v.st.Some? && p.v.st.value.etag == p.obj.value.etag
  {
    hide Absorbs, Fingerprint, WellFormedView, WellFormedBody, Consistent, SameContent, LocalUnchanged;
  }

  // So where ETags are reported, one round that asks nothing is enough: the
  // next one has nothing to decide.
  lemma OneRoundIsEnough(v: View, obj: Option<Obj>, c: Setup, tag: ETag)
    requires Sound(v, obj, c) && Fresh(v, tag, tag) && !NeedsUser(v, obj, c) && !DeletedStructuredLink(v, obj, c)
    ensures var p := RoundKey(v, obj, c, tag, tag); Planned(p.v, p.obj, c).None?
  {
    RoundAgrees(v, obj, c, tag, tag);
    var p := RoundKey(v, obj, c, tag, tag);
    Quiescent(p.v, p.obj, c, tag, tag);
    var plan := Planned(v, obj, c);
    if plan.Some? {
      PlanGrounded(v, obj, c);
      PlanKeyBasics(v, InfoOf(obj), Fetched(v, obj, c), c);
      if plan.value.kind != Forget { CarriedNames(v, obj, plan.value, c, tag); }
      ForgottenLink(v, obj, c);
    }
    hide PlanKey, Carried, Sound, Absorbs, LocalUnchanged, Planned;
  }

  // ------------------------------------------------------ structured files

  // A file on both sides, changed on both, with different values.
  ghost predicate FilesDiffer(v: View, obj: Option<Obj>, c: Setup) {
    && c.structured && v.disk.Some? && v.disk.value.File?
    && obj.Some? && obj.value.body.Live? && obj.value.body.entry.File?
    && !LocalUnchanged(v.disk, v.st, c.tracksExec) && !RemoteUnchanged(InfoOf(obj), v.st)
    && !SameContent(v.disk, obj.value.body, c.tracksExec)
  }

  // What both sides are merged against: nothing if the file was never synced.
  function MergedOn(v: View): seq<Item> {
    if v.st.None? then [] else BaseItems(v)
  }

  ghost predicate NoneDiffer(v: View, obj: Option<Obj>)
    requires v.disk.Some? && obj.Some? && obj.value.body.Live?
  {
    forall n ::
      !PairwiseDifferent(ValueOf(BaseItems(v), n), ValueOf(ItemsOf(v.disk.value), n),
                         ValueOf(ItemsOf(obj.value.body.entry), n))
  }

  // What is decided before the merge is tried.
  function BeforeMerge(v: View, o: Obj): Action {
    var first := v.st.None?;
    Action(if first then Download else Conflict, v.disk, Some(Remote(o.body, o.etag)), if first then 0 else o.etag,
           first, [])
  }

  lemma DecidesToMerge(v: View, obj: Option<Obj>, c: Setup)
    requires FilesDiffer(v, obj, c)
    ensures Fetched(v, obj, c) == Some(Remote(obj.value.body, obj.value.etag))
    ensures Decide(v.disk, InfoOf(obj), v.st, Fetched(v, obj, c), c) == Some(BeforeMerge(v, obj.value))
  {
    hide SameContent, LocalUnchanged;
  }

  lemma MergesWithoutConflict(v: View, o: Obj)
    requires v.disk.Some? && o.body.Live? && o.body.entry.File?
    requires Conflicts(MergedOn(v), ItemsOf(v.disk.value), ItemsOf(o.body.entry), v.st.None?) == []
    ensures MergeStructured(BeforeMerge(v, o), true, BaseItems(v))
            == Settle(BeforeMerge(v, o), Merged(MergedOn(v), ItemsOf(v.disk.value), ItemsOf(o.body.entry), v.st.None?),
                      v.st.None?)
  {
    hide Settle, Conflicts, Merged;
  }

  lemma SettledIsProtected(a: Action, m: seq<Item>, first: bool)
    requires a.local.Some? && a.remote.Some? && a.remote.value.body.Live?
    ensures ProtectStructured(Settle(a, m, first), true) == Settle(a, m, first)
  {
    hide Fingerprint;
  }

  // The action the merge is planned as.
  lemma MergeIsPlanned(v: View, obj: Option<Obj>, c: Setup)
    requires FilesDiffer(v, obj, c) && (v.st.None? || NoneDiffer(v, obj))
    ensures var m := Merged(MergedOn(v), ItemsOf(v.disk.value), ItemsOf(obj.value.body.entry), v.st.None?);
            Planned(v, obj, c) == Some(Settle(BeforeMerge(v, obj.value), m, v.st.None?))
  {
    var mine, theirs, first := ItemsOf(v.disk.value), ItemsOf(obj.value.body.entry), v.st.None?;
    NoConflictsMeans(MergedOn(v), mine, theirs, first);
    hide Merged, Conflicts, Settle, Decide, MergeStructured, ProtectStructured, SameContent, LocalUnchanged, ValueOf;
    DecidesToMerge(v, obj, c);
    MergesWithoutConflict(v, obj.value);
    SettledIsProtected(BeforeMerge(v, obj.value), Merged(MergedOn(v), mine, theirs, first), first);
  }

  lemma ConflictStays(v: View, o: Obj)
    requires v.disk.Some? && v.st.Some? && o.body.Live? && o.body.entry.File?
    requires Conflicts(BaseItems(v), ItemsOf(v.disk.value), ItemsOf(o.body.entry), false) != []
    ensures ProtectStructured(MergeStructured(BeforeMerge(v, o), true, BaseItems(v)), true) == BeforeMerge(v, o)
  {
    hide Settle, Conflicts, Merged;
  }

  lemma SettledKinds(a: Action, m: seq<Item>, first: bool)
    requires a.local.Some? && a.remote.Some? && a.remote.value.body.Live?
    ensures Settle(a, m, first).kind in {Download, Upload, Merge}
  {
    hide Fingerprint;
  }

  // The user is asked exactly when the file was synced before and some item
  // has three different values.
  lemma ConflictExactly(v: View, obj: Option<Obj>, c: Setup)
    requires FilesDiffer(v, obj, c)
    ensures var mine, theirs := ItemsOf(v.disk.value), ItemsOf(obj.value.body.entry);
            Planned(v, obj, c).Some? && Planned(v, obj, c).value.kind == Conflict
            <==> v.st.Some? && exists n ::
                   PairwiseDifferent(ValueOf(BaseItems(v), n), ValueOf(mine, n), ValueOf(theirs, n))
  {
    var mine, theirs := ItemsOf(v.disk.value), ItemsOf(obj.value.body.entry);
    var m := Merged(MergedOn(v), mine, theirs, v.st.None?);
    NoConflictsMeans(BaseItems(v), mine, theirs, false);
    hide Merged, Conflicts, Settle, Decide, MergeStructured, ProtectStructured, SameContent, LocalUnchanged, ValueOf;
    DecidesToMerge(v, obj, c);
    if v.st.None? || NoneDiffer(v, obj) {
      MergeIsPlanned(v, obj, c);
      SettledKinds(BeforeMerge(v, obj.value), m, v.st.None?);
    } else {
      ConflictStays(v, obj.value);
    }
  }

  // Files or not: the user is asked exactly where an entry that was synced
  // before was changed here, changed there and is not the same, and is not a
  // structured file whose changes touch different items. A link has none.
  ghost predicate Disputed(v: View, obj: Option<Obj>, c: Setup) {
    && v.disk.Some? && v.st.Some? && obj.Some? && obj.value.body.Live?
    && !LocalUnchanged(v.disk, v.st, c.tracksExec)
    && (v.st.value.etag == 0 || v.st.value.etag != obj.value.etag)
    && !SameContent(v.disk, obj.value.body, c.tracksExec)
    && (c.structured && obj.value.body.entry.File? ==>
          exists n :: PairwiseDifferent(ValueOf(BaseItems(v), n), ValueOf(ItemsOf(v.disk.value), n),
                                        ValueOf(ItemsOf(obj.value.body.entry), n)))
  }

  lemma AskedExactly(v: View, obj: Option<Obj>, c: Setup)
    ensures Planned(v, obj, c).Some? && Planned(v, obj, c).value.kind == Conflict <==> Disputed(v, obj, c)
  {
    var a := Decide(v.disk, InfoOf(obj), v.st, Fetched(v, obj, c), c);
    DecidesConflict(v, obj, c);
    if a.Some? {
      if Mergeable(a.value, c.structured) && a.value.kind == Conflict {
        NoConflictsMeans(BaseItems(v), ItemsOf(v.disk.value), ItemsOf(obj.value.body.entry), false);
      }
      MergedKind(a.value, c.structured, BaseItems(v));
    }
    hide Decide, Merged, Conflicts, Fingerprint, SameContent, LocalUnchanged, ValueOf, MergeStructured,
         ProtectStructured;
  }

  lemma DecidesConflict(v: View, obj: Option<Obj>, c: Setup)
    ensures var a := Decide(v.disk, InfoOf(obj), v.st, Fetched(v, obj, c), c);
            && (a.Some? ==> a.value.local == v.disk && a.value.remote == Fetched(v, obj, c))
            && (a.Some? && a.value.kind == Conflict
                <==> && v.disk.Some? && v.st.Some? && obj.Some? && obj.value.body.Live?
                     && !LocalUnchanged(v.disk, v.st, c.tracksExec)
                     && (v.st.value.etag == 0 || v.st.value.etag != obj.value.etag)
                     && !SameContent(v.disk, obj.value.body, c.tracksExec))
            && (a.Some? && a.value.kind == Conflict ==>
                  Fetched(v, obj, c) == Some(Remote(obj.value.body, obj.value.etag)))
  {
    hide SameContent, LocalUnchanged;
  }

  lemma MergedKind(a: Action, structured: bool, base: seq<Item>)
    ensures ProtectStructured(MergeStructured(a, structured, base), structured).kind == Conflict
            <==> && a.kind == Conflict
                 && (Mergeable(a, structured) ==>
                       Conflicts(base, ItemsOf(a.local.value), ItemsOf(a.remote.value.body.entry), false) != [])
  {
    hide Merged, Conflicts, Fingerprint;
  }

  // Both sides hold exactly these values.
  ghost predicate BothHold(p: Pair, m: seq<Item>) {
    && p.v.disk.Some? && p.v.disk.value.File? && p.obj.Some? && p.obj.value.body.Live?
    && p.obj.value.body.entry.File?
    && SameValues(ItemsOf(p.v.disk.value), m) && SameValues(ItemsOf(p.obj.value.body.entry), m)
  }

  // A merge of the sides at hand that was settled as p.
  ghost predicate SettledAs(v: View, o: Obj, p: Action, m: seq<Item>) {
    && v.disk.Some? && p.local == v.disk && p.remote == Some(Remote(o.body, o.etag)) && o.etag != 0
    && o.body.Live? && o.body.entry.File? && WellFormedEntry(o.body.entry, true)
    && match p.kind
       case Download => SameValues(m, ItemsOf(o.body.entry))
       case Upload => v.disk.value.File? && SameValues(m, ItemsOf(v.disk.value)) && p.ifMatch == o.etag
       case Merge => p.merged == m && p.ifMatch == o.etag
       case _ => false
  }

  lemma SettledLands(v: View, obj: Option<Obj>, c: Setup, p: Action, m: seq<Item>, tag: ETag, reported: ETag)
    requires obj.Some? && SettledAs(v, obj.value, p, m) && c.structured
    ensures var q := Carried(v, obj, p, c, tag, reported);
            BothHold(q, m) && (p.keepLocalCopy && q.v.disk != v.disk ==> v.disk.value in q.v.aside)
  {
    SameValuesItself(m);
    hide Fingerprint, ValueOf, Distinct;
  }

  lemma SettledMergeLands(v: View, obj: Option<Obj>, c: Setup, a: Action, m: seq<Item>, tag: ETag, reported: ETag)
    requires FilesDiffer(v, obj, c) && a.local == v.disk && a.remote == Some(Remote(obj.value.body, obj.value.etag))
    requires obj.value.etag != 0 && (a.kind == Conflict || a.kind == Download) && Distinct(m)
    requires WellFormedEntry(v.disk.value, true) && WellFormedBody(obj.value.body, true)
    ensures var p := Carried(v, obj, Settle(a, m, a.kind == Download), c, tag, reported);
            BothHold(p, m) && (a.kind == Download && p.v.disk != v.disk ==> v.disk.value in p.v.aside)
  {
    SettleSays(a, m, a.kind == Download, true);
    SettledFrom(a, m, a.kind == Download);
    hide Settle, Carried, SameValues, WellFormedEntry, SameContent, LocalUnchanged, BothHold;
    SettledLands(v, obj, c, Settle(a, m, a.kind == Download), m, tag, reported);
  }

  lemma SettledFrom(a: Action, m: seq<Item>, first: bool)
    requires a.local.Some? && a.remote.Some? && a.remote.value.body.Live?
    ensures var p := Settle(a, m, first);
            && p.local == a.local && p.remote == a.remote && p.keepLocalCopy == first
            && (p.kind == Upload || p.kind == Merge ==> p.ifMatch == a.remote.value.etag)
  {
    hide Fingerprint;
  }

  lemma SameValuesItself(m: seq<Item>)
    ensures SameValues(m, m)
  {
  }

  // Where the user is not asked, both sides end with every item as the side
  // that changed it has it; if the file was never synced, the stored items
  // win and this machine's file, if it changes, is set aside.
  lemma MergeIsCarriedOut(v: View, obj: Option<Obj>, c: Setup, tag: ETag, reported: ETag)
    requires Sound(v, obj, c) && FilesDiffer(v, obj, c) && (v.st.None? || NoneDiffer(v, obj))
    ensures var mine, theirs := ItemsOf(v.disk.value), ItemsOf(obj.value.body.entry);
            var p := RoundKey(v, obj, c, tag, reported);
            && p.v.disk.Some? && p.v.disk.value.File? && p.obj.Some? && p.obj.value.body.Live?
            && p.obj.value.body.entry.File?
            && (forall n ::
                  && ValueOf(ItemsOf(p.v.disk.value), n)
                     == Pick(ValueOf(MergedOn(v), n), ValueOf(mine, n), ValueOf(theirs, n), v.st.None?)
                  && ValueOf(ItemsOf(p.obj.value.body.entry), n) == ValueOf(ItemsOf(p.v.disk.value), n))
            && (v.st.None? && p.v.disk != v.disk ==> v.disk.value in p.v.aside)
  {
    var mine, theirs, first := ItemsOf(v.disk.value), ItemsOf(obj.value.body.entry), v.st.None?;
    var m := Merged(MergedOn(v), mine, theirs, first);
    MergeIsPlanned(v, obj, c);
    MergeIsThreeWay(MergedOn(v), mine, theirs, first);
    hide Planned, Carried, Settle, Merged, ValueOf, Pick, NoneDiffer;
    SettledMergeLands(v, obj, c, BeforeMerge(v, obj.value), m, tag, reported);
  }

  // What is gone, or was never synced, leaves no base behind.
  lemma GoneHasNoBase(v: View, obj: Option<Obj>, c: Setup, tag: ETag, reported: ETag)
    requires Sound(v, obj, c) && c.structured
    requires v.st.None? || v.st.value.snap.SnapTombstone? ==> v.base.None?
    ensures var p := RoundKey(v, obj, c, tag, reported);
            p.v.st.None? || p.v.st.value.snap.SnapTombstone? ==> p.v.base.None?
  {
    if Planned(v, obj, c).Some? {
      PlanGrounded(v, obj, c);
      PlanKeyBasics(v, InfoOf(obj), Fetched(v, obj, c), c);
    }
    hide PlanKey, Absorbs, Fingerprint;
  }

  // A merge is written here before it is uploaded. Until it is stored it
  // changes nothing but the file.
  lemma MergeIsOnlyWritten(v: View, o: Obj, c: Setup)
    requires Sound(v, Some(o), c) && v.st.Some? && FilesDiffer(v, Some(o), c)
    requires Planned(v, Some(o), c).Some? && Planned(v, Some(o), c).value.kind == Merge
    ensures var mine, theirs := ItemsOf(v.disk.value), ItemsOf(o.body.entry);
            var m := Merged(BaseItems(v), mine, theirs, false);
            && Conflicts(BaseItems(v), mine, theirs, false) == []
            && LocalStep(v, Planned(v, Some(o), c).value, c) == v.(disk := Some(File(Items(m), false)))
  {
    ConflictExactly(v, Some(o), c);
    NoConflictsMeans(BaseItems(v), ItemsOf(v.disk.value), ItemsOf(o.body.entry), false);
    DecidesToMerge(v, Some(o), c);
    hide Merged, Conflicts, Fingerprint, Decide, ValueOf, LocalUnchanged, SameContent;
  }

  // If the upload loses its race against another version that kept what the
  // merge had taken over, the next round ends as a merge of the original file
  // with that version would have.
  lemma LostMergeIsRetried(v: View, o: Obj, w: View, other: Obj, c: Setup, tag: ETag, reported: ETag)
    requires Sound(v, Some(o), c) && v.st.Some? && FilesDiffer(v, Some(o), c)
    requires Planned(v, Some(o), c).Some? && Planned(v, Some(o), c).value.kind == Merge
    requires w == LocalStep(v, Planned(v, Some(o), c).value, c)
    requires other.etag != 0 && WellFormedBody(other.body, true) && FilesDiffer(w, Some(other), c)
    requires KeepsWhatWasTaken(BaseItems(v), ItemsOf(v.disk.value), ItemsOf(o.body.entry), ItemsOf(other.body.entry))
    requires NoneDiffer(v, Some(other))
    ensures var p := RoundKey(w, Some(other), c, tag, reported);
            && p.v.disk.Some? && p.v.disk.value.File? && p.obj.Some? && p.obj.value.body.Live?
            && p.obj.value.body.entry.File?
            && forall n ::
                 && ValueOf(ItemsOf(p.v.disk.value), n)
                    == Pick(ValueOf(BaseItems(v), n), ValueOf(ItemsOf(v.disk.value), n),
                            ValueOf(ItemsOf(other.body.entry), n), false)
                 && ValueOf(ItemsOf(p.obj.value.body.entry), n) == ValueOf(ItemsOf(p.v.disk.value), n)
  {
    MergeIsOnlyWritten(v, o, c);
    var base, mine := BaseItems(v), ItemsOf(v.disk.value);
    var theirs, newer := ItemsOf(o.body.entry), ItemsOf(other.body.entry);
    var m := Merged(base, mine, theirs, false);
    MergeIsThreeWay(base, mine, theirs, false);
    WrittenIsSound(v, o, w, m, other, c);
    RetriedMergeIsDirect(base, mine, theirs, newer);
    NoConflictsMeans(base, mine, newer, false);
    NoConflictsMeans(base, m, newer, false);
    SameConflicts(base, m, mine, newer);
    MergeIsThreeWay(base, mine, newer, false);
    MergeIsThreeWay(base, m, newer, false);
    hide RoundKey, Merged, Conflicts, ValueOf, Pick, LocalStep, Planned, Sound, FilesDiffer, KeepsWhatWasTaken,
         PairwiseDifferent, Distinct, WellFormedBody;
    MergeIsCarriedOut(w, Some(other), c, tag, reported);
  }

  lemma SameConflicts(base: seq<Item>, a: seq<Item>, b: seq<Item>, r: seq<Item>)
    requires forall n :: n in Conflicts(base, a, r, false) <==> n in Conflicts(base, b, r, false)
    ensures Conflicts(base, a, r, false) == [] <==> Conflicts(base, b, r, false) == []
  {
    hide Conflicts;
    var x, y := Conflicts(base, a, r, false), Conflicts(base, b, r, false);
    if x != [] { assert x[0] in x; }
    if y != [] { assert y[0] in y; }
  }

  lemma WrittenIsSound(v: View, o: Obj, w: View, m: seq<Item>, other: Obj, c: Setup)
    requires Sound(v, Some(o), c) && c.structured && w == v.(disk := Some(File(Items(m), false))) && Distinct(m)
    requires other.etag != 0 && WellFormedBody(other.body, true) && !RemoteUnchanged(Some(other.etag), v.st)
    ensures Sound(w, Some(other), c)
  {
  }

  // Sync never deletes a structured file: what stands here or is stored
  // stands and is stored after the round.
  lemma StructuredStays(v: View, obj: Option<Obj>, c: Setup, tag: ETag, reported: ETag)
    requires Sound(v, obj, c) && c.structured
    ensures var p := RoundKey(v, obj, c, tag, reported);
            && (v.disk.Some? ==> p.v.disk.Some?)
            && (obj.Some? && obj.value.body.Live? ==> p.obj.Some? && p.obj.value.body.Live?)
  {
    if Planned(v, obj, c).Some? {
      PlanGrounded(v, obj, c);
      PlanKeyBasics(v, InfoOf(obj), Fetched(v, obj, c), c);
    }
    hide PlanKey, Absorbs, Fingerprint;
  }

  // One deleted on one side comes back from the other.
  lemma DeletedHereComesBack(v: View, obj: Option<Obj>, c: Setup, tag: ETag, reported: ETag)
    requires Sound(v, obj, c) && c.structured
    requires v.disk.None? && obj.Some? && obj.value.body.Live? && obj.value.body.entry.File?
    requires !(v.st.Some? && v.st.value.snap.SnapTombstone? && RemoteUnchanged(InfoOf(obj), v.st))
    ensures Brings(obj, RoundKey(v, obj, c, tag, reported), c)
  {
    hide Merged, Conflicts, Fingerprint;
  }

  lemma DeletedThereComesBack(v: View, obj: Option<Obj>, c: Setup, tag: ETag, reported: ETag)
    requires Sound(v, obj, c) && c.structured && v.disk.Some? && obj.Some? && obj.value.body.Tombstone?
    ensures var p := RoundKey(v, obj, c, tag, reported);
            if Waits(v, obj, c) then p == Pair(v, obj) else Sends(v, p, c)
  {
    hide Merged, Conflicts, Fingerprint;
  }

  // A structured file changed on one side only goes to the other.
  lemma StructuredGoesOver(v: View, obj: Option<Obj>, c: Setup, tag: ETag, reported: ETag)
    requires Sound(v, obj, c) && c.structured && v.disk.Some? && obj.Some? && obj.value.body.Live?
    ensures var p := RoundKey(v, obj, c, tag, reported);
            var here, there := !LocalUnchanged(v.disk, v.st, c.tracksExec), !RemoteUnchanged(InfoOf(obj), v.st);
            && (here && !there ==> Sends(v, p, c))
            && (!here && there ==> Brings(obj, p, c))
            && (!here && !there ==> p == Pair(v, obj))
  {
    hide Merged, Conflicts, Fingerprint;
  }
}
