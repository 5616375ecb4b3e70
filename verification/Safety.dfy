// Safety of the protocol over all interleavings: no update of another machine
// is overwritten unknown, and no local edit is destroyed.
module Safety {
  import opened Options
  import opened Structured
  import opened Plan
  import opened Round
  import opened Protocol

  // ------------------------------------------------------------ invariants

  // The items are what some stored version of the key says.
  ghost predicate BaseStored(h: seq<Version>, base: seq<Item>) {
    Distinct(base) && exists j :: 0 <= j < |h| && h[j].body.Live? && h[j].body.entry.File?
                                  && SameValues(base, ItemsOf(h[j].body.entry))
  }

  // Version prev may be replaced without losing what it says: the writer had
  // synced it, it says the entry was deleted, or every item in which it
  // differs from what the writer merged against is kept.
  ghost predicate SafeToReplace(prev: Version, now: Body, base: seq<Item>, synced: set<ETag>, structured: bool) {
    || prev.etag in synced
    || prev.body.Tombstone?
    || (structured && prev.body.entry.File? && now.Live?
        && Absorbs(base, ItemsOf(prev.body.entry), ItemsOf(now.entry)))
  }

  // What is merged against is what some version says, or nothing.
  ghost predicate MergeBaseOk(h: seq<Version>, base: seq<Item>) {
    base == [] || BaseStored(h, base)
  }

  ghost predicate StateOk(h: seq<Version>, st: Option<EntryState>, tracksExec: bool, synced: set<ETag>) {
    st.Some? ==>
      && (st.value.etag != 0 ==>
            st.value.etag in synced
            && exists j :: 0 <= j < |h| && h[j].etag == st.value.etag
                           && Describes(st.value.snap, h[j].body, tracksExec))
      && (!st.value.snap.SnapTombstone? ==>
            exists j :: 0 <= j < |h| && Describes(st.value.snap, h[j].body, tracksExec))
  }

  ghost predicate RemoteOk(h: seq<Version>, r: Option<Remote>, known: set<ETag>) {
    r.Some? ==>
      && (exists j :: 0 <= j < |h| && h[j].body == r.value.body && (r.value.etag != 0 ==> h[j].etag == r.value.etag))
      && (r.value.etag != 0 ==> r.value.etag in known)
  }

  // The body an upload stores, up to the execute bit of a plain file.
  function NewBody(a: Action): Body {
    if a.kind == Merge then Live(File(Items(a.merged), false))
    else if a.kind == UploadDelete || a.local.None? then Tombstone
    else Live(a.local.value)
  }

  ghost predicate UploadOk(h: seq<Version>, a: Option<Action>, base: seq<Item>, structured: bool, known: set<ETag>,
                           synced: set<ETag>)
  {
    a.Some? ==>
      && Uploads(a.value) && (a.value.kind == Upload ==> a.value.local.Some?)
      && (a.value.kind == Upload ==> WellFormedEntry(a.value.local.value, structured))
      && (a.value.kind == Merge ==> structured && Distinct(a.value.merged))
      && (a.value.ifMatch != 0 ==>
            a.value.ifMatch in known
            && exists j :: 0 <= j < |h| && h[j].etag == a.value.ifMatch
                           && SafeToReplace(h[j], NewBody(a.value), base, synced, structured))
  }

  ghost predicate KnownOk(h: seq<Version>, known: set<ETag>, synced: set<ETag>) {
    synced <= known && forall e :: e in known ==> exists j :: 0 <= j < |h| && h[j].etag == e
  }

  ghost predicate SideOk(h: seq<Version>, side: Side, structured: bool, tracksExec: bool, reading: bool) {
    && (side.disk.Some? ==> WellFormedEntry(side.disk.value, structured)
                            && (side.disk.value.File? && !tracksExec ==> !side.disk.value.exec))
    && (side.base.Some? ==> BaseStored(h, side.base.value))
    && KnownOk(h, side.known, side.synced)
    && StateOk(h, side.saved, tracksExec, side.synced)
    && StateOk(h, side.live, tracksExec, side.synced)
    && NoExec(side.saved, structured) && NoExec(side.live, structured)
    && RemoteOk(h, side.fetched, side.known) && (reading && side.fetched.Some? ==> side.listed.Some?)
    && UploadOk(h, side.upload, side.mergeBase, structured, side.known, side.synced) && MergeBaseOk(h, side.mergeBase)
  }

  ghost predicate NoExec(st: Option<EntryState>, structured: bool) {
    structured ==> !PrevExec(st)
  }

  // A version in its history: it was created where no object was, or it
  // replaced the version right before it, which its writer had read or
  // written itself by then, and which was safe to replace unless the user
  // chose to.
  ghost predicate VersionOk(h: seq<Version>, i: nat, structured: bool)
    requires i < |h|
  {
    && WellFormedBody(h[i].body, structured) && MergeBaseOk(h[..i], h[i].base)
    && (h[i].over != 0 ==>
          && i > 0 && h[i - 1].etag == h[i].over && h[i].over in h[i].known
          && (h[i].resolved || SafeToReplace(h[i - 1], h[i].body, h[i].base, h[i].synced, structured)))
  }

  ghost predicate HistoryOk(s: System, k: Key) {
    var h := s.history(k);
    && (forall i, j :: 0 <= i < j < |h| ==> h[i].etag < h[j].etag)
    && (forall i :: 0 <= i < |h| ==> 0 < h[i].etag < s.next && h[i].writer < |s.machines|
                                     && VersionOk(h, i, s.structured(k)))
    && (s.store(k).Some? ==> h != [] && s.store(k).value == Obj(h[|h| - 1].body, h[|h| - 1].etag))
  }

  ghost predicate MachineOk(s: System, i: nat, k: Key)
    requires i < |s.machines|
  {
    var m := s.machines[i];
    SideOk(s.history(k), m.sides(k), s.structured(k), m.tracksExec, m.phase.Reading?)
  }

  ghost predicate Inv(s: System) {
    && s.next > 0
    && (forall k :: HistoryOk(s, k))
    && (forall i, k :: 0 <= i < |s.machines| ==>
          MachineOk(s, i, k))
  }

  // --------------------------------------------------- histories only grow

  lemma BaseStoredGrows(h: seq<Version>, v: Version, base: seq<Item>)
    requires BaseStored(h, base)
    ensures BaseStored(h + [v], base)
  {
    var j :| 0 <= j < |h| && h[j].body.Live? && h[j].body.entry.File? && SameValues(base, ItemsOf(h[j].body.entry));
    assert (h + [v])[j] == h[j];
  }

  lemma MergeBaseGrows(h: seq<Version>, v: Version, base: seq<Item>)
    requires MergeBaseOk(h, base)
    ensures MergeBaseOk(h + [v], base)
  {
    if base != [] { BaseStoredGrows(h, v, base); }
  }

  lemma SideGrows(h: seq<Version>, v: Version, side: Side, structured: bool, tracksExec: bool, reading: bool)
    requires SideOk(h, side, structured, tracksExec, reading)
    ensures SideOk(h + [v], side, structured, tracksExec, reading)
  {
    var g := h + [v];
    assert forall j :: 0 <= j < |h| ==> g[j] == h[j];
    if side.base.Some? { BaseStoredGrows(h, v, side.base.value); }
    StateGrows(h, v, side.saved, tracksExec, side.synced);
    StateGrows(h, v, side.live, tracksExec, side.synced);
    UploadGrows(h, v, side.upload, side.mergeBase, structured, side.known, side.synced);
    MergeBaseGrows(h, v, side.mergeBase);
    KnownGrows(h, v, side.known, side.synced);
    if side.fetched.Some? {
      var r := side.fetched.value;
      var j :| 0 <= j < |h| && h[j].body == r.body && (r.etag != 0 ==> h[j].etag == r.etag);
      assert g[j] == h[j];
    }
  }

  lemma StateGrows(h: seq<Version>, v: Version, st: Option<EntryState>, tracksExec: bool, synced: set<ETag>)
    requires StateOk(h, st, tracksExec, synced)
    ensures StateOk(h + [v], st, tracksExec, synced)
  {
    if st.Some? && st.value.etag != 0 {
      var j :| 0 <= j < |h| && h[j].etag == st.value.etag && Describes(st.value.snap, h[j].body, tracksExec);
      assert (h + [v])[j] == h[j];
    }
    if st.Some? && !st.value.snap.SnapTombstone? {
      var j :| 0 <= j < |h| && Describes(st.value.snap, h[j].body, tracksExec);
      assert (h + [v])[j] == h[j];
    }
  }

  lemma UploadGrows(h: seq<Version>, v: Version, a: Option<Action>, base: seq<Item>, structured: bool, known: set<ETag>,
                    synced: set<ETag>)
    requires UploadOk(h, a, base, structured, known, synced)
    ensures UploadOk(h + [v], a, base, structured, known, synced)
  {
    hide SafeToReplace;
    if a.Some? && a.value.ifMatch != 0 {
      var j :| 0 <= j < |h| && h[j].etag == a.value.ifMatch
               && SafeToReplace(h[j], NewBody(a.value), base, synced, structured);
      assert (h + [v])[j] == h[j];
    }
  }

  lemma KnownGrows(h: seq<Version>, v: Version, known: set<ETag>, synced: set<ETag>)
    requires KnownOk(h, known, synced)
    ensures KnownOk(h + [v], known, synced)
    ensures KnownOk(h + [v], known + {v.etag}, synced)
    ensures KnownOk(h + [v], known + {v.etag}, synced + {v.etag})
  {
    var g := h + [v];
    forall e | e in known ensures exists j :: 0 <= j < |g| && g[j].etag == e {
      var j :| 0 <= j < |h| && h[j].etag == e;
      assert g[j] == h[j];
    }
    assert g[|h|].etag == v.etag;
  }

  lemma HistoryKept(s: System, t: System)
    requires Inv(s) && StoreUnchanged(s, t) && t.structured == s.structured && |t.machines| == |s.machines|
    ensures forall k :: HistoryOk(t, k)
  {
    hide VersionOk;
    forall k ensures HistoryOk(t, k) { assert HistoryOk(s, k); }
  }

  lemma VersionKept(h: seq<Version>, v: Version, i: nat, structured: bool)
    requires i < |h| && VersionOk(h, i, structured)
    ensures VersionOk(h + [v], i, structured)
  {
    var g := h + [v];
    assert g[i] == h[i] && (i > 0 ==> g[i - 1] == h[i - 1]) && g[..i] == h[..i];
  }

  // What a write must rest on: the version it names was read or written by
  // the writer and may be replaced by the new body.
  ghost predicate WriteRests(h: seq<Version>, side: Side, body: Body, ifMatch: ETag, resolved: bool, structured: bool) {
    && WellFormedBody(body, structured) && MergeBaseOk(h, side.mergeBase)
    && (ifMatch != 0 ==>
          && ifMatch in side.known
          && (resolved || exists j :: 0 <= j < |h| && h[j].etag == ifMatch
                                      && SafeToReplace(h[j], body, side.mergeBase, side.synced, structured)))
  }

  lemma NewVersionOk(h: seq<Version>, v: Version, side: Side, structured: bool)
    requires forall i, j :: 0 <= i < j < |h| ==> h[i].etag < h[j].etag
    requires WriteRests(h, side, v.body, v.over, v.resolved, structured)
    requires v.base == side.mergeBase && v.known == side.known && v.synced == side.synced
    requires v.over != 0 ==> h != [] && h[|h| - 1].etag == v.over
    ensures VersionOk(h + [v], |h|, structured)
  {
    var n := |h|;
    var g := h + [v];
    assert g[..n] == h;
    if v.over != 0 {
      assert g[n - 1] == h[n - 1];
      if !v.resolved {
        var j :| 0 <= j < |h| && h[j].etag == v.over && SafeToReplace(h[j], v.body, v.base, v.synced, structured);
        assert j == n - 1;
      }
    }
  }

  // Appending a version that an allowed write stored.
  lemma HistoryAppended(s: System, t: System, i: nat, k: Key, body: Body, ifMatch: ETag, resolved: bool)
    requires Inv(s) && t.structured == s.structured && |t.machines| == |s.machines| && i < |s.machines|
    requires Stores(s, t, i, k, body, ifMatch, resolved)
    requires WriteRests(s.history(k), s.machines[i].sides(k), body, ifMatch, resolved, s.structured(k))
    ensures forall k :: HistoryOk(t, k)
  {
    hide VersionOk, WriteRests;
    forall k' ensures HistoryOk(t, k') {
      assert HistoryOk(s, k');
      if k' == k {
        var h, v := s.history(k), Written(s, i, k, body, ifMatch, resolved);
        assert t.history(k) == h + [v];
        forall j | 0 <= j < |h| ensures VersionOk(h + [v], j, s.structured(k)) {
          VersionKept(h, v, j, s.structured(k));
        }
        NewVersionOk(h, v, s.machines[i].sides(k), s.structured(k));
        assert forall j :: 0 <= j < |h + [v]| ==> (h + [v])[j] == if j < |h| then h[j] else v;
      }
    }
  }

  // --------------------------------------- the local part of a run, one key

  ghost predicate Formed(h: seq<Version>, structured: bool) {
    forall j :: 0 <= j < |h| ==> WellFormedBody(h[j].body, structured)
  }

  // A planned action of a key that fits the invariants, and what it rests on.
  ghost predicate PlannedOn(h: seq<Version>, c: Setup, side: Side, a: Action) {
    && SideOk(h, side, c.structured, c.tracksExec, true) && Formed(h, c.structured)
    && PlanRests(a, SavedView(side), side.listed, side.fetched, c)
  }

  lemma PlanIsGrounded(h: seq<Version>, c: Setup, side: Side)
    requires SideOk(h, side, c.structured, c.tracksExec, true) && Formed(h, c.structured)
    requires Readable(side.listed, side.saved, side.fetched)
    ensures var a := PlanKey(SavedView(side), side.listed, side.fetched, c);
            a.Some? ==> PlannedOn(h, c, side, a.value)
  {
    hide Plan.PlanKey, UploadOk, StateOk;
    PlanKeyRests(SavedView(side), side.listed, side.fetched, c);
  }

  lemma LocalDiskOk(h: seq<Version>, c: Setup, side: Side, a: Action)
    requires PlannedOn(h, c, side, a)
    ensures var e := LocalStep(SavedView(side), a, c).disk;
            e.Some? ==> WellFormedEntry(e.value, c.structured) && (e.value.File? && !c.tracksExec ==> !e.value.exec)
  {
    hide UploadOk, StateOk, Plan.Absorbs, Structured.Fingerprint;
  }

  lemma LocalBaseOk(h: seq<Version>, c: Setup, side: Side, a: Action)
    requires PlannedOn(h, c, side, a)
    ensures var b := LocalStep(SavedView(side), a, c).base; b.Some? ==> BaseStored(h, b.value)
  {
    hide UploadOk, StateOk, Plan.Absorbs, Structured.Fingerprint;
    if a.kind == Record && a.local.Some? && StructuredFile(a.local.value) {
      FingerprintIdentifies(ItemsOf(a.local.value), ItemsOf(a.remote.value.body.entry));
    }
  }

  lemma LocalLiveOk(h: seq<Version>, c: Setup, side: Side, a: Action)
    requires PlannedOn(h, c, side, a)
    ensures var st := LocalStep(SavedView(side), a, c).st;
            && StateOk(h, st, c.tracksExec, side.synced + NamedETag(st))
            && NoExec(st, c.structured)
            && NamedETag(st) <= side.known
  {
    hide StateOk, SideOk, Plan.LocalStep, PlanRests;
    if a.kind == Download { DownloadLiveOk(h, c, side, a); }
    else if a.kind == Record { RecordLiveOk(h, c, side, a); }
    else { OtherLiveOk(h, c, side, a); }
  }

  ghost predicate LiveOk(h: seq<Version>, c: Setup, side: Side, a: Action) {
    var st := LocalStep(SavedView(side), a, c).st;
    StateOk(h, st, c.tracksExec, side.synced + NamedETag(st)) && NoExec(st, c.structured) && NamedETag(st) <= side.known
  }

  lemma DownloadLiveOk(h: seq<Version>, c: Setup, side: Side, a: Action)
    requires PlannedOn(h, c, side, a) && a.kind == Download
    ensures LiveOk(h, c, side, a)
  {
    hide UploadOk, BaseStored, Plan.Absorbs, Structured.Fingerprint;
  }

  lemma RecordLiveOk(h: seq<Version>, c: Setup, side: Side, a: Action)
    requires PlannedOn(h, c, side, a) && a.kind == Record
    ensures LiveOk(h, c, side, a)
  {
    hide UploadOk, BaseStored, Plan.Absorbs, Structured.Fingerprint;
  }

  lemma OtherLiveOk(h: seq<Version>, c: Setup, side: Side, a: Action)
    requires PlannedOn(h, c, side, a) && a.kind != Download && a.kind != Record
    ensures LiveOk(h, c, side, a)
  {
    hide UploadOk, BaseStored, Plan.Absorbs, Structured.Fingerprint;
  }

  lemma LocalUploadOk(h: seq<Version>, c: Setup, side: Side, a: Action, synced: set<ETag>)
    requires PlannedOn(h, c, side, a) && Uploads(a) && side.synced <= synced
    ensures UploadOk(h, Some(a), MergeBase(a, SavedView(side)), c.structured, side.known, synced)
  {
    hide Plan.Absorbs, Structured.Fingerprint, BaseStored, Describes;
    var base := MergeBase(a, SavedView(side));
    if a.ifMatch != 0 {
      if RemoteUnchanged(side.listed, side.saved) && side.saved.Some? && a.ifMatch == side.saved.value.etag {
        var j :| 0 <= j < |h| && h[j].etag == a.ifMatch;
        assert SafeToReplace(h[j], NewBody(a), base, synced, c.structured);
      } else {
        var r := side.fetched.value;
        var j :| 0 <= j < |h| && h[j].body == r.body && (r.etag != 0 ==> h[j].etag == r.etag);
        assert SafeToReplace(h[j], NewBody(a), base, synced, c.structured);
      }
    }
  }

  lemma LocalMergeBaseOk(h: seq<Version>, c: Setup, side: Side, a: Action)
    requires PlannedOn(h, c, side, a)
    ensures MergeBaseOk(h, MergeBase(a, SavedView(side)))
  {
  }

  lemma LocalPartOk(h: seq<Version>, c: Setup, before: Side, after: Side)
    requires SideOk(h, before, c.structured, c.tracksExec, true) && Formed(h, c.structured)
    requires LocalPart(c, before, after)
    ensures SideOk(h, after, c.structured, c.tracksExec, false)
    ensures before.known <= after.known && before.synced <= after.synced
  {
    hide Plan.PlanKey, Plan.LocalStep, Plan.PlanRests, UploadOk, StateOk, BaseStored;
    if after == Cleared(before) {
      NoUploadOk(h, c.structured, before.known, before.synced);
    } else {
      PlanIsGrounded(h, c, before);
      var a := PlanKey(SavedView(before), before.listed, before.fetched, c).value;
      LocalDiskOk(h, c, before, a);
      LocalBaseOk(h, c, before, a);
      LocalLiveOk(h, c, before, a);
      StateWithMore(h, before.saved, c.tracksExec, before.synced, after.synced);
      NoUploadOk(h, c.structured, after.known, after.synced);
      if Uploads(a) {
        LocalUploadOk(h, c, before, a, after.synced);
        LocalMergeBaseOk(h, c, before, a);
      }
    }
  }

  lemma NoUploadOk(h: seq<Version>, structured: bool, known: set<ETag>, synced: set<ETag>)
    ensures forall base :: UploadOk(h, None, base, structured, known, synced)
  {
  }

  lemma StateWithMore(h: seq<Version>, st: Option<EntryState>, tracksExec: bool, synced: set<ETag>, more: set<ETag>)
    requires StateOk(h, st, tracksExec, synced) && synced <= more
    ensures StateOk(h, st, tracksExec, more)
  {
  }

  lemma UploadWithMore(h: seq<Version>, a: Option<Action>, base: seq<Item>, structured: bool, known: set<ETag>,
                       synced: set<ETag>, more: set<ETag>)
    requires UploadOk(h, a, base, structured, known, synced) && known <= more
    ensures UploadOk(h, a, base, structured, more, synced)
  {
    hide SafeToReplace;
  }

  // ------------------------------------------------------- steps keep Inv

  // A step of machine i that leaves the store alone.
  lemma MachineStep(s: System, t: System, i: nat, n: Machine)
    requires Inv(s) && OnlyMachine(s, t, i, n) && StoreUnchanged(s, t)
    requires forall k :: SideOk(s.history(k), n.sides(k), s.structured(k), n.tracksExec, n.phase.Reading?)
    ensures Inv(t)
  {
    hide SideOk, HistoryOk;
    HistoryKept(s, t);
    forall j, k | 0 <= j < |t.machines| ensures MachineOk(t, j, k) {
      assert MachineOk(s, j, k);
    }
  }

  // A step of machine i that stores a version of key k.
  lemma StoreStep(s: System, t: System, i: nat, n: Machine, k: Key, body: Body, ifMatch: ETag, resolved: bool)
    requires Inv(s) && OnlyMachine(s, t, i, n) && Stores(s, t, i, k, body, ifMatch, resolved)
    requires OnlySide(s.machines[i], n, k) && (n.phase.Reading? ==> s.machines[i].phase.Reading?)
    requires WriteRests(s.history(k), s.machines[i].sides(k), body, ifMatch, resolved, s.structured(k))
    requires SideOk(t.history(k), n.sides(k), s.structured(k), n.tracksExec, false) && !n.phase.Reading?
    requires !s.machines[i].phase.Reading?
    ensures Inv(t)
  {
    hide SideOk, HistoryOk, WriteRests;
    HistoryAppended(s, t, i, k, body, ifMatch, resolved);
    forall j, k' | 0 <= j < |t.machines| ensures MachineOk(t, j, k') {
      assert MachineOk(s, j, k');
      var m := s.machines[j];
      if k' == k && j != i {
        SideGrows(s.history(k), Written(s, i, k, body, ifMatch, resolved), m.sides(k), s.structured(k), m.tracksExec,
                  m.phase.Reading?);
      }
    }
  }

  lemma ClearedOk(h: seq<Version>, side: Side, structured: bool, tracksExec: bool, reading: bool)
    requires SideOk(h, side, structured, tracksExec, reading)
    ensures SideOk(h, Cleared(side), structured, tracksExec, false)
    ensures SideOk(h, Cleared(side), structured, tracksExec, true)
    ensures SideOk(h, side, structured, tracksExec, false)
  {
  }

  lemma HistoryIsFormed(s: System, k: Key)
    requires Inv(s)
    ensures Formed(s.history(k), s.structured(k))
  {
    hide SideOk;
    assert HistoryOk(s, k);
    var h := s.history(k);
    forall j | 0 <= j < |h| ensures WellFormedBody(h[j].body, s.structured(k)) {
      assert VersionOk(h, j, s.structured(k));
    }
  }

  lemma SideOf(s: System, i: nat, k: Key)
    requires Inv(s) && i < |s.machines|
    ensures var m := s.machines[i];
            && SideOk(s.history(k), m.sides(k), s.structured(k), m.tracksExec, m.phase.Reading?)
            && SideOk(s.history(k), Cleared(m.sides(k)), s.structured(k), m.tracksExec, false)
            && SideOk(s.history(k), m.sides(k), s.structured(k), m.tracksExec, false)
  {
    assert MachineOk(s, i, k);
    var m := s.machines[i];
    ClearedOk(s.history(k), m.sides(k), s.structured(k), m.tracksExec, m.phase.Reading?);
  }

  lemma ApplyLocalKeeps(s: System, t: System, i: nat, n: Machine, adopt: bool)
    requires Inv(s) && ApplyLocal(s, t, i, n, adopt)
    ensures Inv(t)
  {
    hide SideOk, LocalPart, HistoryOk;
    var m := s.machines[i];
    forall k
      ensures SideOk(s.history(k), n.sides(k), s.structured(k), n.tracksExec, false)
    {
      SideOf(s, i, k);
      HistoryIsFormed(s, k);
      LocalPartOk(s.history(k), SetupOf(s, m, k, adopt), m.sides(k), n.sides(k));
    }
    MachineStep(s, t, i, n);
  }

  lemma QuietStepsKeep(s: System, t: System, i: nat, n: Machine, step: Step)
    requires Inv(s) && Next(s, t, i, n, step)
    requires step.EditStep? || step.ListStep? || step.LostRaceStep? || step.FinishStep? || step.CrashStep?
    ensures Inv(t)
  {
    hide HistoryOk, UploadOk, StateOk, BaseStored, Round.StructuredGone;
    var m := s.machines[i];
    forall k
      ensures SideOk(s.history(k), n.sides(k), s.structured(k), n.tracksExec, n.phase.Reading?)
    {
      SideOf(s, i, k);
      NoUploadOk(s.history(k), s.structured(k), m.sides(k).known, m.sides(k).synced);
    }
    MachineStep(s, t, i, n);
  }

  // Reading the current object.
  lemma ReadOk(s: System, i: nat, k: Key, side: Side, reported: ETag, reading: bool)
    requires Inv(s) && i < |s.machines| && s.store(k).Some?
    requires SideOk(s.history(k), side, s.structured(k), s.machines[i].tracksExec, false)
    requires reading ==> side.listed.Some?
    requires var o := s.store(k).value; reported == 0 || reported == o.etag
    ensures var o := s.store(k).value;
            SideOk(s.history(k), side.(fetched := Some(Remote(o.body, reported)), known := side.known + {o.etag}),
                   s.structured(k), s.machines[i].tracksExec, reading)
  {
    hide UploadOk, StateOk, BaseStored;
    assert HistoryOk(s, k);
    var h, o := s.history(k), s.store(k).value;
    var last := |h| - 1;
    assert h[last].body == o.body && h[last].etag == o.etag;
    UploadWithMore(h, side.upload, side.mergeBase, s.structured(k), side.known, side.synced, side.known + {o.etag});
  }

  lemma FetchKeeps(s: System, t: System, i: nat, n: Machine, k: Key, reported: ETag)
    requires Inv(s) && Fetch(s, t, i, n, k, reported)
    ensures Inv(t)
  {
    hide HistoryOk, SideOk, Round.StructuredGone;
    var m := s.machines[i];
    forall j
      ensures SideOk(s.history(j), n.sides(j), s.structured(j), n.tracksExec, true)
    {
      SideOf(s, i, j);
      if j == k {
        if s.store(k).Some? { ReadOk(s, i, k, m.sides(k), reported, true); }
        else { NotFoundOk(s.history(k), m.sides(k), s.structured(k), m.tracksExec); }
      }
    }
    MachineStep(s, t, i, n);
  }

  lemma NotFoundOk(h: seq<Version>, side: Side, structured: bool, tracksExec: bool)
    requires SideOk(h, side, structured, tracksExec, true)
    ensures SideOk(h, side.(listed := None, fetched := None), structured, tracksExec, true)
  {
  }

  lemma ResolveStartKeeps(s: System, t: System, i: nat, n: Machine, k: Key, keepLocal: bool, reported: ETag)
    requires Inv(s) && ResolveStart(s, t, i, n, k, keepLocal, reported)
    ensures Inv(t)
  {
    hide HistoryOk, SideOk;
    var m := s.machines[i];
    forall j
      ensures SideOk(s.history(j), n.sides(j), s.structured(j), n.tracksExec, false)
    {
      SideOf(s, i, j);
      if j == k { ReadOk(s, i, k, Cleared(m.sides(k)), reported, false); }
    }
    MachineStep(s, t, i, n);
  }

  // What is uploaded differs from the action's body in nothing but the bit of
  // a plain file.
  lemma PayloadIsSafe(h: seq<Version>, side: Side, prev: Option<EntryState>, a: Action, c: Setup)
    requires UploadOk(h, Some(a), side.mergeBase, c.structured, side.known, side.synced) && NoExec(prev, c.structured)
    requires MergeBaseOk(h, side.mergeBase)
    ensures WriteRests(h, side, Payload(a, prev, c), a.ifMatch, false, c.structured)
  {
    hide Plan.Absorbs, BaseStored;
    var body, new_ := Payload(a, prev, c), NewBody(a);
    assert body.Live? == new_.Live? && (body.Live? ==> ItemsOf(body.entry) == ItemsOf(new_.entry));
    if a.ifMatch != 0 {
      var j :| 0 <= j < |h| && h[j].etag == a.ifMatch
               && SafeToReplace(h[j], new_, side.mergeBase, side.synced, c.structured);
      assert SafeToReplace(h[j], body, side.mergeBase, side.synced, c.structured);
    }
  }

  // A machine's side after its write was stored and acknowledged.
  lemma AckedOk(h: seq<Version>, v: Version, side: Side, view: View, a: Action, c: Setup, reported: ETag,
                base: Option<seq<Item>>)
    requires SideOk(h, side, c.structured, c.tracksExec, false)
    requires Uploads(a) && (a.kind == Upload ==> a.local.Some?)
    requires v.body == Payload(a, view.st, c) && WellFormedBody(v.body, c.structured)
    requires view.base == side.base && NoExec(view.st, c.structured)
    requires reported == 0 || reported == v.etag
    requires base == Uploaded(view, a, reported, c).base || base == side.base
    ensures var st := Uploaded(view, a, reported, c).st;
            var known, synced := side.known + {v.etag}, side.synced + {v.etag};
            && StateOk(h + [v], st, c.tracksExec, synced) && NoExec(st, c.structured)
            && (base.Some? ==> BaseStored(h + [v], base.value))
            && SideOk(h + [v], side.(upload := None, known := known, synced := synced), c.structured, c.tracksExec,
                      false)
  {
    var g := h + [v];
    AckedStateOk(h, v, side.synced, view, a, c, reported);
    SideGrows(h, v, side, c.structured, c.tracksExec, false);
    KnownGrows(h, v, side.known, side.synced);
    NoUploadOk(g, c.structured, side.known + {v.etag}, side.synced + {v.etag});
    if base != side.base && base.Some? { AckedBaseOk(h, v, view, a, c, reported); }
    StateWithMore(g, side.saved, c.tracksExec, side.synced, side.synced + {v.etag});
    StateWithMore(g, side.live, c.tracksExec, side.synced, side.synced + {v.etag});
    hide Plan.Uploaded, Plan.Payload, Structured.Fingerprint, UploadOk, StateOk, BaseStored, KnownOk;
  }

  lemma AckedStateOk(h: seq<Version>, v: Version, synced: set<ETag>, view: View, a: Action, c: Setup, reported: ETag)
    requires Uploads(a) && (a.kind == Upload ==> a.local.Some?)
    requires v.body == Payload(a, view.st, c) && WellFormedBody(v.body, c.structured) && NoExec(view.st, c.structured)
    requires reported == 0 || reported == v.etag
    ensures var st := Uploaded(view, a, reported, c).st;
            StateOk(h + [v], st, c.tracksExec, synced + {v.etag}) && NoExec(st, c.structured)
  {
    hide Structured.Fingerprint;
    assert (h + [v])[|h|] == v;
  }

  lemma AckedBaseOk(h: seq<Version>, v: Version, view: View, a: Action, c: Setup, reported: ETag)
    requires Uploads(a) && (a.kind == Upload ==> a.local.Some?)
    requires v.body == Payload(a, view.st, c) && WellFormedBody(v.body, c.structured)
    ensures var base := Uploaded(view, a, reported, c).base;
            base != view.base && base.Some? ==> BaseStored(h + [v], base.value)
  {
    var g := h + [v];
    assert g[|h|] == v;
    var base := Uploaded(view, a, reported, c).base;
    if base != view.base && base.Some? { assert SameValues(base.value, ItemsOf(g[|h|].body.entry)); }
  }

  lemma PutKeeps(s: System, t: System, i: nat, n: Machine, k: Key, acked: bool, reported: ETag)
    requires Inv(s) && Put(s, t, i, n, k, acked, reported)
    ensures Inv(t)
  {
    hide HistoryOk, WriteRests, StateOk, BaseStored, KnownOk, Plan.Payload, Plan.Uploaded;
    var m := s.machines[i];
    var side := m.sides(k);
    var a, c := side.upload.value, SetupOf(s, m, k, false);
    var h := s.history(k);
    SideOf(s, i, k);
    PayloadIsSafe(h, side, side.live, a, c);
    var v := Written(s, i, k, Payload(a, side.live, c), a.ifMatch, false);
    WriteIsFormed(h, side, v.body, a.ifMatch, false, c.structured);
    SideGrows(h, v, side, c.structured, c.tracksExec, false);
    NoUploadOk(h + [v], c.structured, side.known, side.synced);
    if acked { AckedOk(h, v, side, LiveView(side), a, c, reported, n.sides(k).base); }
    StoreStep(s, t, i, n, k, v.body, a.ifMatch, false);
  }

  lemma WriteIsFormed(h: seq<Version>, side: Side, body: Body, ifMatch: ETag, resolved: bool, structured: bool)
    requires WriteRests(h, side, body, ifMatch, resolved, structured)
    ensures WellFormedBody(body, structured)
  {
  }

  lemma SettlementIsSafe(h: seq<Version>, side: Side, c: Setup)
    requires SideOk(h, side, c.structured, c.tracksExec, false) && side.fetched.Some?
    ensures var a := Settlement(side, true);
            WriteRests(h, side, Payload(a, side.saved, c), a.ifMatch, true, c.structured)
  {
    hide UploadOk, StateOk, BaseStored;
  }

  lemma ResolveKeepKeeps(s: System, t: System, i: nat, n: Machine, k: Key, reported: ETag)
    requires Inv(s) && ResolveKeep(s, t, i, n, k, reported)
    ensures Inv(t)
  {
    hide HistoryOk, WriteRests, StateOk, BaseStored, KnownOk, Plan.Payload, Plan.Uploaded;
    var m := s.machines[i];
    var side := m.sides(k);
    var a, c := Settlement(side, true), SetupOf(s, m, k, false);
    var h := s.history(k);
    SideOf(s, i, k);
    SettlementIsSafe(h, side, c);
    var v := Written(s, i, k, Payload(a, side.saved, c), a.ifMatch, true);
    WriteIsFormed(h, side, v.body, a.ifMatch, true, c.structured);
    SideGrows(h, v, side, c.structured, c.tracksExec, false);
    AckedOk(h, v, side, SavedView(side), a, c, reported, n.sides(k).base);
    StoreStep(s, t, i, n, k, v.body, a.ifMatch, true);
  }

  lemma SettledTake(h: seq<Version>, side: Side, c: Setup)
    requires SideOk(h, side, c.structured, c.tracksExec, false) && Formed(h, c.structured) && side.fetched.Some?
    ensures var v := LocalStep(SavedView(side), Settlement(side, false), c);
            && (v.disk.Some? ==> WellFormedEntry(v.disk.value, c.structured)
                                 && (v.disk.value.File? && !c.tracksExec ==> !v.disk.value.exec))
            && (v.base.Some? ==> BaseStored(h, v.base.value))
            && StateOk(h, v.st, c.tracksExec, side.synced + NamedETag(v.st)) && NoExec(v.st, c.structured)
            && NamedETag(v.st) <= side.known
  {
    hide UploadOk, Structured.Fingerprint;
  }

  lemma ResolveTakeKeeps(s: System, t: System, i: nat, n: Machine, k: Key)
    requires Inv(s) && ResolveTake(s, t, i, n, k)
    ensures Inv(t)
  {
    hide HistoryOk, UploadOk, StateOk, BaseStored, Plan.LocalStep;
    var m := s.machines[i];
    forall j
      ensures SideOk(s.history(j), n.sides(j), s.structured(j), n.tracksExec, false)
    {
      SideOf(s, i, j);
      if j == k {
        HistoryIsFormed(s, k);
        SettledTake(s.history(k), m.sides(k), SetupOf(s, m, k, false));
        NoUploadOk(s.history(k), s.structured(k), m.sides(k).known, n.sides(k).synced);
      }
    }
    MachineStep(s, t, i, n);
  }

  lemma VanishKeeps(s: System, t: System, k: Key)
    requires Inv(s) && Vanish(s, t, k)
    ensures Inv(t)
  {
    hide SideOk, VersionOk;
    forall j ensures HistoryOk(t, j) { assert HistoryOk(s, j); }
    forall i, j | 0 <= i < |t.machines| ensures MachineOk(t, i, j) { assert MachineOk(s, i, j); }
  }

  lemma StepKeeps(s: System, t: System, i: nat, n: Machine, step: Step)
    requires Inv(s) && Next(s, t, i, n, step)
    ensures Inv(t)
  {
    hide Inv, Edit, List, Fetch, ApplyLocal, Put, LostRace, Finish, Crash, ResolveStart, ResolveKeep, ResolveTake,
         Vanish;
    match step
    case FetchStep(k, r) => FetchKeeps(s, t, i, n, k, r);
    case ApplyLocalStep(adopt) => ApplyLocalKeeps(s, t, i, n, adopt);
    case PutStep(k, acked, r) => PutKeeps(s, t, i, n, k, acked, r);
    case ResolveStartStep(k, keep, r) => ResolveStartKeeps(s, t, i, n, k, keep, r);
    case ResolveKeepStep(k, r) => ResolveKeepKeeps(s, t, i, n, k, r);
    case ResolveTakeStep(k) => ResolveTakeKeeps(s, t, i, n, k);
    case VanishStep(k) => VanishKeeps(s, t, k);
    case _ => QuietStepsKeep(s, t, i, n, step);
  }

  // ------------------------------------------------------------------ runs

  datatype Move = Move(i: nat, machine: Machine, step: Step)

  // Any number of machines with anything on their disks, and an empty store.
  ghost predicate Init(s: System) {
    && s.next > 0
    && (forall k :: s.store(k).None? && s.history(k) == [])
    && forall i, k :: 0 <= i < |s.machines| ==>
         var m := s.machines[i];
         && m.phase.Idle?
         && m.sides(k) == Side(m.sides(k).disk, None, None, None, {}, None, None, None, [], {}, {})
         && (m.sides(k).disk.Some? ==>
               && WellFormedEntry(m.sides(k).disk.value, s.structured(k))
               && (m.sides(k).disk.value.File? && !m.tracksExec ==> !m.sides(k).disk.value.exec))
  }

  ghost predicate Run(states: seq<System>, moves: seq<Move>) {
    && |states| == |moves| + 1 && Init(states[0])
    && forall x :: 0 <= x < |moves| ==> Next(states[x], states[x + 1], moves[x].i, moves[x].machine, moves[x].step)
  }

  lemma InitHolds(s: System)
    requires Init(s)
    ensures Inv(s)
  {
    forall i, k | 0 <= i < |s.machines| ensures MachineOk(s, i, k) {
      NoUploadOk(s.history(k), s.structured(k), {}, {});
    }
  }

  lemma {:induction false} RunHolds(states: seq<System>, moves: seq<Move>, x: nat)
    requires Run(states, moves) && x < |states|
    ensures Inv(states[x])
    decreases x
  {
    hide Inv, Next;
    if x == 0 {
      InitHolds(states[0]);
    } else {
      RunHolds(states, moves, x - 1);
      StepKeeps(states[x - 1], states[x], moves[x - 1].i, moves[x - 1].machine, moves[x - 1].step);
    }
  }

  // No lost update. In every state of every run, a version that replaced
  // another replaced the one right before it; its writer had read or written
  // that one by then, and had synced it, or it was a deletion, or every item
  // in which it differs from what the writer merged against is in the new
  // version, or the user chose to replace it. What was merged against is what
  // an earlier version says, or nothing at a first sync or without a base.
  lemma NoLostUpdate(states: seq<System>, moves: seq<Move>, x: nat, k: Key, j: nat)
    requires Run(states, moves) && x < |states| && j < |states[x].history(k)|
    ensures var s := states[x];
            var h := s.history(k);
            && h[j].writer < |s.machines|
            && (h[j].base == [] || BaseStored(h[..j], h[j].base))
            && (h[j].over != 0 ==>
                  && j > 0 && h[j - 1].etag == h[j].over && h[j].over in h[j].known
                  && (|| h[j].resolved || h[j].over in h[j].synced || h[j - 1].body.Tombstone?
                      || (s.structured(k) && h[j - 1].body.entry.File? && h[j].body.Live?
                          && Absorbs(h[j].base, ItemsOf(h[j - 1].body.entry), ItemsOf(h[j].body.entry)))))
            && (s.store(k).Some? ==> s.store(k).value.etag == h[|h| - 1].etag)
  {
    RunHolds(states, moves, x);
    HistoryHolds(states[x], k, j);
    hide *;
    VersionSays(states[x].history(k), j, states[x].structured(k));
  }

  lemma HistoryHolds(s: System, k: Key, j: nat)
    requires Inv(s) && j < |s.history(k)|
    ensures var h := s.history(k);
            && h[j].writer < |s.machines| && VersionOk(h, j, s.structured(k))
            && (s.store(k).Some? ==> s.store(k).value.etag == h[|h| - 1].etag)
  {
    hide SideOk, VersionOk;
    assert HistoryOk(s, k);
  }

  lemma VersionSays(h: seq<Version>, j: nat, structured: bool)
    requires j < |h| && VersionOk(h, j, structured)
    ensures h[j].base == [] || BaseStored(h[..j], h[j].base)
    ensures h[j].over != 0 ==>
              && j > 0 && h[j - 1].etag == h[j].over && h[j].over in h[j].known
              && (|| h[j].resolved || h[j].over in h[j].synced || h[j - 1].body.Tombstone?
                  || (structured && h[j - 1].body.entry.File? && h[j].body.Live?
                      && Absorbs(h[j].base, ItemsOf(h[j - 1].body.entry), ItemsOf(h[j].body.entry))))
  {
    hide Plan.Absorbs, BaseStored;
  }

  ghost predicate Chained(s: System, k: Key) {
    var h := s.history(k);
    && (h != [] ==> s.store(k).Some?)
    && forall j :: 0 < j < |h| ==> h[j].over == h[j - 1].etag
  }

  lemma StepKeepsChain(s: System, t: System, i: nat, n: Machine, step: Step, k: Key)
    requires Inv(s) && Next(s, t, i, n, step) && Chained(s, k) && !(step.VanishStep? && step.k == k)
    ensures Chained(t, k)
  {
    hide SideOk, VersionOk, Plan.Payload, Plan.Uploaded, Plan.LocalStep, LocalPart;
    assert HistoryOk(s, k);
  }

  // As long as nobody outside removes the object, all versions of a key form
  // one chain, each replacing the one before it.
  lemma {:induction false} VersionsFormOneChain(states: seq<System>, moves: seq<Move>, x: nat, k: Key)
    requires Run(states, moves) && x < |states|
    requires forall y :: 0 <= y < |moves| ==> moves[y].step != VanishStep(k)
    ensures Chained(states[x], k)
    decreases x
  {
    hide Inv, Next;
    if x > 0 {
      VersionsFormOneChain(states, moves, x - 1, k);
      RunHolds(states, moves, x - 1);
      StepKeepsChain(states[x - 1], states[x], moves[x - 1].i, moves[x - 1].machine, moves[x - 1].step, k);
    }
  }

  // What a replaced local entry leaves behind: its content is a version in
  // the key's history, it was set aside, or every item this machine had
  // changed since its base is in what replaced it.
  ghost predicate Survives(h: seq<Version>, before: Side, after: Side, structured: bool, tracksExec: bool)
    requires before.disk.Some?
  {
    var e := before.disk.value;
    || (exists j :: 0 <= j < |h| && h[j].body.Live? && SameContent(Some(e), h[j].body, tracksExec))
    || e in after.aside
    || (structured && e.File? && after.disk.Some? && after.disk.value.File?
        && Absorbs(BaseItems(SavedView(before)), ItemsOf(e), ItemsOf(after.disk.value)))
  }

  lemma SyncedContentIsStored(h: seq<Version>, e: Entry, st: Option<EntryState>, tracksExec: bool, synced: set<ETag>)
    requires StateOk(h, st, tracksExec, synced) && LocalUnchanged(Some(e), st, tracksExec)
    ensures exists j :: 0 <= j < |h| && h[j].body.Live? && SameContent(Some(e), h[j].body, tracksExec)
  {
    hide Structured.Fingerprint;
    var j :| 0 <= j < |h| && Describes(st.value.snap, h[j].body, tracksExec);
    assert h[j].body.Live? && SameContent(Some(e), h[j].body, tracksExec);
  }

  lemma ReplacedEntrySurvives(h: seq<Version>, c: Setup, before: Side, after: Side)
    requires SideOk(h, before, c.structured, c.tracksExec, true) && Formed(h, c.structured)
    requires LocalPart(c, before, after)
    requires before.disk.Some? && after.disk != before.disk
    requires c.structured ==> before.disk.value.File?
    ensures Survives(h, before, after, c.structured, c.tracksExec)
  {
    hide Plan.PlanKey, UploadOk, StateOk, BaseStored, Plan.Absorbs, Structured.Fingerprint, Plan.SameContent,
        Plan.LocalUnchanged;
    PlanIsGrounded(h, c, before);
    var a := PlanKey(SavedView(before), before.listed, before.fetched, c).value;
    var e := before.disk.value;
    if LocalUnchanged(before.disk, before.saved, c.tracksExec) {
      SyncedContentIsStored(h, e, before.saved, c.tracksExec, before.synced);
    } else if a.kind == Download || a.kind == Merge {
      if !a.keepLocalCopy {
        assert Absorbs(BaseItems(SavedView(before)), ItemsOf(e), ItemsOf(after.disk.value));
      }
    }
  }

  // Only edits, the local part of a run and the user's choice touch a disk.
  lemma DiskKept(s: System, t: System, i: nat, n: Machine, step: Step, j: nat, k: Key)
    requires Next(s, t, i, n, step) && j < |s.machines|
    requires !step.EditStep? && !step.ResolveTakeStep? && (step.ApplyLocalStep? ==> i != j)
    ensures |t.machines| == |s.machines| && t.machines[j].sides(k).disk == s.machines[j].sides(k).disk
  {
    hide Plan.Payload, Plan.Uploaded, Plan.LocalStep, LocalPart, Round.StructuredGone, Stores;
    if i == j {
      var now, was := n.sides(k), s.machines[i].sides(k);
      match step
      case FetchStep(k', r) => assert now.disk == was.disk by { assert k != k' ==> now == was; }
      case PutStep(k', acked, r) => assert now.disk == was.disk by { assert k != k' ==> now == was; }
      case LostRaceStep(k') => assert now.disk == was.disk by { assert k != k' ==> now == was; }
      case ResolveStartStep(k', keep, r) => assert now.disk == was.disk by { assert k != k' ==> now == was; }
      case ResolveKeepStep(k', r) => assert now.disk == was.disk by { assert k != k' ==> now == was; }
      case _ => assert step.VanishStep? || now.disk == was.disk;
    }
  }

  // No edit is destroyed. Whatever step of a run other than an edit or the
  // user's own choice changes what a machine has on disk, the replaced entry
  // survives: everywhere but for a link in the place of a structured file. The
  // base it survives against is the machine's own, which is what a version says.
  lemma NoEditDestroyed(states: seq<System>, moves: seq<Move>, x: nat, i: nat, k: Key)
    requires Run(states, moves) && x < |moves| && i < |states[x].machines|
    requires !moves[x].step.EditStep? && !moves[x].step.ResolveTakeStep?
    requires states[x].structured(k) && states[x].machines[i].sides(k).disk.Some?
             ==> states[x].machines[i].sides(k).disk.value.File?
    ensures |states[x + 1].machines| == |states[x].machines|
    ensures var before, after := states[x].machines[i].sides(k), states[x + 1].machines[i].sides(k);
            before.disk.Some? && after.disk != before.disk ==>
              && Survives(states[x].history(k), before, after, states[x].structured(k),
                          states[x].machines[i].tracksExec)
              && (before.base.Some? ==> BaseStored(states[x].history(k), before.base.value))
  {
    hide Inv, Survives, Plan.Payload, Plan.Uploaded, LocalPart, Round.StructuredGone;
    var s, t, move := states[x], states[x + 1], moves[x];
    assert Next(s, t, move.i, move.machine, move.step);
    RunHolds(states, moves, x);
    var m := s.machines[i];
    var before, after := m.sides(k), t.machines[i].sides(k);
    if !move.step.ApplyLocalStep? || move.i != i { DiskKept(s, t, move.i, move.machine, move.step, i, k); }
    if before.disk.Some? && after.disk != before.disk {
      var c := SetupOf(s, m, k, move.step.adoptLocal);
      SideOf(s, i, k);
      HistoryIsFormed(s, k);
      ReplacedEntrySurvives(s.history(k), c, before, after);
    }
  }

  // The exception: a link standing where a structured file was synced reads
  // as a file without items, so the merge may replace it and set nothing
  // aside. It does exactly when both sides changed, the other side is a file,
  // and no item of it was changed since the base.
  lemma StructuredLinkIsReplaced(v: View, info: Option<ETag>, r: Option<Remote>, c: Setup)
    requires Readable(info, v.st, r) && (r.Some? ==> info.Some?)
    requires c.structured && v.disk.Some? && v.disk.value.Link?
    requires WellFormedView(v, c) && (r.Some? ==> WellFormedBody(r.value.body, c.structured))
    ensures var plan := PlanKey(v, info, r, c);
            (plan.Some? && plan.value.kind in {Download, Merge} && !plan.value.keepLocalCopy
             && !LocalUnchanged(v.disk, v.st, c.tracksExec))
            <==>
            (&& v.st.Some? && !LocalUnchanged(v.disk, v.st, c.tracksExec) && !RemoteUnchanged(info, v.st)
             && r.Some? && info.Some? && r.value.body.Live? && r.value.body.entry.File?
             && Conflicts(BaseItems(v), [], ItemsOf(r.value.body.entry), false) == [])
  {
    hide Structured.Merged, Structured.Conflicts, Structured.Fingerprint;
  }

  // An instance: the base and the state hold one setting, the other side
  // dropped it, and here a link took the file's place.
  lemma StructuredLinkLost()
    ensures var one := [Item("a", "1", "1")];
            var v := View(Some(Link("agents/x", false)),
                          Some(EntryState(1, SnapFile(ItemsPrint(Fingerprint(one)), false))), Some(one), {});
            var r := Remote(Live(File(Items([]), false)), 2);
            var c := Setup(true, true, false, false);
            var plan := PlanKey(v, Some(2), Some(r), c);
            && plan.Some? && LocalStep(v, plan.value, c).disk == Some(File(Items([]), false))
            && LocalStep(v, plan.value, c).aside == {}
  {
    NothingToMerge([Item("a", "1", "1")]);
    hide Structured.Merged, Structured.Conflicts, Structured.Fingerprint;
  }

  lemma NothingToMerge(base: seq<Item>)
    ensures Merged(base, [], [], false) == [] && Conflicts(base, [], [], false) == []
  {
  }

  // ------------------------------------------------- what settling comes to

  lemma StoredIsFetched(s: System, i: nat, k: Key)
    requires Inv(s) && i < |s.machines| && s.machines[i].sides(k).fetched.Some? && s.store(k).Some?
    requires s.store(k).value.etag == s.machines[i].sides(k).fetched.value.etag
    ensures s.store(k).value.body == s.machines[i].sides(k).fetched.value.body
  {
    hide SideOk, VersionOk;
    SideOf(s, i, k);
    FetchedIsVersion(s.history(k), s.machines[i].sides(k), s.structured(k), s.machines[i].tracksExec);
    assert HistoryOk(s, k);
    var h := s.history(k);
    assert h[|h| - 1].etag == s.store(k).value.etag != 0;
  }

  lemma FetchedIsVersion(h: seq<Version>, side: Side, structured: bool, tracksExec: bool)
    requires SideOk(h, side, structured, tracksExec, false) && side.fetched.Some?
    ensures exists j :: 0 <= j < |h| && h[j].body == side.fetched.value.body
                        && (side.fetched.value.etag != 0 ==> h[j].etag == side.fetched.value.etag)
  {
    hide UploadOk, StateOk, BaseStored;
  }

  // Settling a conflict with this machine's version: the store says what is
  // on its disk, in the place of the very version that was read, and the
  // state describes both.
  lemma ResolveKeepPublishes(s: System, t: System, i: nat, n: Machine, k: Key, reported: ETag)
    requires Inv(s) && ResolveKeep(s, t, i, n, k, reported)
    ensures var m := s.machines[i];
            var side, after := m.sides(k), n.sides(k);
            && after.disk == side.disk && t.machines[i] == n
            && t.store(k).Some? && SameContent(side.disk, t.store(k).value.body, m.tracksExec)
            && (s.store(k).Some? ==> side.fetched.Some? && s.store(k).value.body == side.fetched.value.body)
            && LocalUnchanged(after.disk, after.saved, m.tracksExec)
            && after.saved.Some? && Describes(after.saved.value.snap, t.store(k).value.body, m.tracksExec)
            && (after.saved.value.etag == 0 || after.saved.value.etag == t.store(k).value.etag)
            && (s.structured(k) && after.base != side.base ==>
                  if side.disk.Some? && side.disk.value.File? then after.base == Some(ItemsOf(side.disk.value))
                  else after.base.None?)
  {
    if s.store(k).Some? { StoredIsFetched(s, i, k); }
    SideOf(s, i, k);
    hide Inv, StateOk, UploadOk, BaseStored, KnownOk, RemoteOk, Structured.Fingerprint;
  }

  // Settling it with the other version: the disk says what was read, nothing
  // is stored, and the state describes that version and names its ETag.
  lemma ResolveTakeBrings(s: System, t: System, i: nat, n: Machine, k: Key)
    requires Inv(s) && ResolveTake(s, t, i, n, k)
    ensures var m := s.machines[i];
            var side, after := m.sides(k), n.sides(k);
            && side.fetched.Some? && t.store(k) == s.store(k) && t.machines[i] == n
            && SameContent(after.disk, side.fetched.value.body, m.tracksExec)
            && after.saved.Some? && after.saved.value.etag == side.fetched.value.etag
            && Describes(after.saved.value.snap, side.fetched.value.body, m.tracksExec)
            && (s.structured(k) && after.base != side.base ==>
                  match side.fetched.value.body
                  case Live(File(Items(items), _)) => after.base == Some(items)
                  case Tombstone => after.base.None?
                  case _ => false)
  {
    SideOf(s, i, k);
    HistoryIsFormed(s, k);
    hide Inv, StateOk, UploadOk, BaseStored, KnownOk, Structured.Fingerprint;
  }
}
