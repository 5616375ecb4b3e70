// The sync protocol: any number of machines, each syncing in steps that
// interleave with the others' (list, one read per object, the local changes,
// one conditional write per object, saving the state), with edits, crashes,
// conflicts settled by the user, lost acknowledgements, and objects that
// vanish. Every write gets a new ETag, which lists, reads and writes may or
// may not report. The history of every key is kept beside the store.
module Protocol {
  import opened Options
  import opened Structured
  import opened Plan
  import opened Round

  type Key = string

  // One machine's side of one key: the disk, the saved state and the one a
  // run holds in memory, what the run listed, read and has still to upload,
  // and, for the proofs only, the items the upload was merged against, the
  // ETags ever read or written here (known) and those of versions this side
  // took for the last synced one (synced).
  datatype Side = Side(disk: Option<Entry>, saved: Option<EntryState>, live: Option<EntryState>,
                       base: Option<seq<Item>>, aside: set<Entry>,
                       listed: Option<ETag>, fetched: Option<Remote>, upload: Option<Action>, mergeBase: seq<Item>,
                       known: set<ETag>, synced: set<ETag>)

  datatype Phase = Idle | Reading | Writing | Resolving(key: Key, keepLocal: bool)

  datatype Machine = Machine(sides: Key -> Side, phase: Phase, tracksExec: bool, firstSync: bool)

  // A stored version: what it replaced (0: it was created where no object
  // was), whether a user settled a conflict with it, and what its writer went
  // by when it wrote: the items it had merged against, the ETags it had read
  // or written, and those it had synced.
  datatype Version = Version(body: Body, etag: ETag, writer: nat, over: ETag, resolved: bool,
                             base: seq<Item>, known: set<ETag>, synced: set<ETag>)

  datatype System = System(structured: Key -> bool, machines: seq<Machine>, store: Key -> Option<Obj>,
                           history: Key -> seq<Version>, next: ETag)

  function SetupOf(s: System, m: Machine, k: Key, adoptLocal: bool): Setup {
    Setup(s.structured(k), m.tracksExec, m.firstSync, adoptLocal)
  }

  function SavedView(side: Side): View {
    View(side.disk, side.saved, side.base, side.aside)
  }

  function LiveView(side: Side): View {
    View(side.disk, side.live, side.base, side.aside)
  }

  // ------------------------------------------------------------------ steps

  function Cleared(side: Side): Side {
    side.(live := side.saved, listed := None, fetched := None, upload := None, mergeBase := [])
  }

  ghost predicate OnlyMachine(s: System, t: System, i: nat, m: Machine) {
    && i < |s.machines| && t.machines == s.machines[i := m]
    && t.structured == s.structured
    && m.tracksExec == s.machines[i].tracksExec
    && (m.firstSync ==> s.machines[i].firstSync)
  }

  ghost predicate StoreUnchanged(s: System, t: System) {
    && t.next == s.next
    && (forall k :: t.store(k) == s.store(k))
    && (forall k :: t.history(k) == s.history(k))
  }

  // Only the side of key k differs between two machines.
  ghost predicate OnlySide(m: Machine, n: Machine, k: Key) {
    forall j :: j != k ==> n.sides(j) == m.sides(j)
  }

  // The user changes the disk; not while a run has scanned it and not yet
  // written its changes.
  ghost predicate Edit(s: System, t: System, i: nat, n: Machine, k: Key, e: Option<Entry>) {
    && OnlyMachine(s, t, i, n) && StoreUnchanged(s, t)
    && var m := s.machines[i];
    && (m.phase.Idle? || m.phase.Writing?) && n.phase == m.phase
    && OnlySide(m, n, k) && n.sides(k) == m.sides(k).(disk := e)
    && (e.Some? ==> WellFormedEntry(e.value, s.structured(k))
                    && (e.value.File? && !m.tracksExec ==> !e.value.exec))
  }

  ghost predicate List(s: System, t: System, i: nat, n: Machine) {
    && OnlyMachine(s, t, i, n) && StoreUnchanged(s, t)
    && var m := s.machines[i];
    && m.phase.Idle? && n.phase.Reading?
    && forall k ::
         && n.sides(k) == Cleared(m.sides(k)).(listed := n.sides(k).listed)
         && (s.store(k).Some? <==> n.sides(k).listed.Some?)
         && (s.store(k).Some? ==> n.sides(k).listed.value == 0 || n.sides(k).listed.value == s.store(k).value.etag)
  }

  ghost predicate Fetch(s: System, t: System, i: nat, n: Machine, k: Key, reported: ETag) {
    && OnlyMachine(s, t, i, n) && StoreUnchanged(s, t)
    && var m := s.machines[i];
    && m.phase.Reading? && n.phase.Reading? && OnlySide(m, n, k)
    && var side := m.sides(k);
    && side.listed.Some?
    && (NeedsFetch(side.listed.value, side.saved) || StructuredGone(SavedView(side), SetupOf(s, m, k, false)))
    && match s.store(k)
       case None => n.sides(k) == side.(listed := None, fetched := None)
       case Some(o) =>
         && (reported == 0 || reported == o.etag)
         && n.sides(k) == side.(fetched := Some(Remote(o.body, reported)), known := side.known + {o.etag})
  }

  function NamedETag(st: Option<EntryState>): set<ETag> {
    if st.Some? && st.value.etag != 0 then {st.value.etag} else {}
  }

  // One key in the local part of a run: left alone (its direction is not
  // synced in this run, a layout conflict cancelled it, it was unreadable,
  // the run stopped before it) or decided and carried out on this machine.
  // Saving the base may fail.
  ghost predicate LocalPart(c: Setup, before: Side, after: Side) {
    || after == Cleared(before)
    || (&& Readable(before.listed, before.saved, before.fetched)
        && var a := PlanKey(SavedView(before), before.listed, before.fetched, c);
        && a.Some?
        && var v := LocalStep(SavedView(before), a.value, c);
        && (after.base == v.base || after.base == before.base)
        && after == Cleared(before).(disk := v.disk, live := v.st, base := after.base, aside := v.aside,
                                     upload := if Uploads(a.value) then a else None,
                                     mergeBase :=
                                       if Uploads(a.value) then MergeBase(a.value, SavedView(before)) else [],
                                     synced := before.synced + NamedETag(v.st)))
  }

  ghost predicate ApplyLocal(s: System, t: System, i: nat, n: Machine, adoptLocal: bool) {
    && OnlyMachine(s, t, i, n) && StoreUnchanged(s, t)
    && var m := s.machines[i];
    && m.phase.Reading? && n.phase.Writing?
    && forall k :: LocalPart(SetupOf(s, m, k, adoptLocal), m.sides(k), n.sides(k))
  }

  // The version that machine i stores now.
  function Written(s: System, i: nat, k: Key, body: Body, ifMatch: ETag, resolved: bool): Version
    requires i < |s.machines|
  {
    var side := s.machines[i].sides(k);
    Version(body, s.next, i, ifMatch, resolved, side.mergeBase, side.known, side.synced)
  }

  ghost predicate Stores(s: System, t: System, i: nat, k: Key, body: Body, ifMatch: ETag, resolved: bool)
    requires i < |s.machines|
  {
    && PutAllowed(s.store(k), ifMatch)
    && t.next == s.next + 1
    && t.store(k) == Some(Obj(body, s.next))
    && t.history(k) == s.history(k) + [Written(s, i, k, body, ifMatch, resolved)]
    && (forall j :: j != k ==> t.store(j) == s.store(j) && t.history(j) == s.history(j))
  }

  // A conditional write that the store accepted; its acknowledgement may be
  // lost and may not report the ETag.
  ghost predicate Put(s: System, t: System, i: nat, n: Machine, k: Key, acked: bool, reported: ETag) {
    && OnlyMachine(s, t, i, n)
    && var m := s.machines[i];
    && m.phase.Writing? && n.phase.Writing? && OnlySide(m, n, k)
    && var side := m.sides(k);
    && side.upload.Some?
    && var a := side.upload.value;
    && Uploads(a) && (a.kind == Upload ==> a.local.Some?)
    && var c := SetupOf(s, m, k, false);
    && Stores(s, t, i, k, Payload(a, side.live, c), a.ifMatch, false)
    && (reported == 0 || reported == s.next)
    && if !acked then n.sides(k) == side.(upload := None)
       else
         var v := Uploaded(LiveView(side), a, reported, c);
         && (n.sides(k).base == v.base || n.sides(k).base == side.base)
         && n.sides(k) == side.(upload := None, live := v.st, base := n.sides(k).base,
                                known := side.known + {s.next}, synced := side.synced + {s.next})
  }

  ghost predicate LostRace(s: System, t: System, i: nat, n: Machine, k: Key) {
    && OnlyMachine(s, t, i, n) && StoreUnchanged(s, t)
    && var m := s.machines[i];
    && m.phase.Writing? && n.phase.Writing? && OnlySide(m, n, k)
    && m.sides(k).upload.Some? && !PutAllowed(s.store(k), m.sides(k).upload.value.ifMatch)
    && n.sides(k) == m.sides(k).(upload := None)
  }

  ghost predicate Finish(s: System, t: System, i: nat, n: Machine) {
    && OnlyMachine(s, t, i, n) && StoreUnchanged(s, t)
    && var m := s.machines[i];
    && m.phase.Writing? && n.phase.Idle?
    && (forall k :: m.sides(k).upload.None?)
    && (forall k :: n.sides(k) == m.sides(k).(saved := m.sides(k).live))
  }

  // The run stops: what it held in memory is gone.
  ghost predicate Crash(s: System, t: System, i: nat, n: Machine) {
    && OnlyMachine(s, t, i, n) && StoreUnchanged(s, t)
    && n.phase.Idle?
    && forall k :: n.sides(k) == Cleared(s.machines[i].sides(k))
  }

  ghost predicate ResolveStart(s: System, t: System, i: nat, n: Machine, k: Key, keepLocal: bool, reported: ETag) {
    && OnlyMachine(s, t, i, n) && StoreUnchanged(s, t)
    && var m := s.machines[i];
    && m.phase.Idle? && n.phase == Resolving(k, keepLocal) && OnlySide(m, n, k)
    && s.store(k).Some?
    && var side, o := m.sides(k), s.store(k).value;
    && (reported == 0 || reported == o.etag)
    && !SameContent(side.disk, o.body, m.tracksExec)
    && !(side.saved.Some? && side.saved.value.etag == reported)
    && n.sides(k) == Cleared(side).(fetched := Some(Remote(o.body, reported)), known := side.known + {o.etag})
  }

  // The action Resolve carries out.
  function Settlement(side: Side, keepLocal: bool): Action
    requires side.fetched.Some?
  {
    var r := side.fetched.value;
    if keepLocal then Action(if side.disk.None? then UploadDelete else Upload, side.disk, Some(r), r.etag, false, [])
    else Action(if r.body.Tombstone? then RemoveLocal else Download, side.disk, Some(r), 0, false, [])
  }

  ghost predicate ResolveKeep(s: System, t: System, i: nat, n: Machine, k: Key, reported: ETag) {
    && OnlyMachine(s, t, i, n)
    && var m := s.machines[i];
    && m.phase == Resolving(k, true) && n.phase.Idle? && OnlySide(m, n, k)
    && var side := m.sides(k);
    && side.fetched.Some?
    && var a := Settlement(side, true);
    && var c := SetupOf(s, m, k, false);
    && Stores(s, t, i, k, Payload(a, side.saved, c), a.ifMatch, true)
    && (reported == 0 || reported == s.next)
    && var v := Uploaded(SavedView(side), a, reported, c);
    && (n.sides(k).base == v.base || n.sides(k).base == side.base)
    && n.sides(k) == Cleared(side).(saved := v.st, live := v.st, base := n.sides(k).base,
                                    known := side.known + {s.next}, synced := side.synced + {s.next})
  }

  ghost predicate ResolveTake(s: System, t: System, i: nat, n: Machine, k: Key) {
    && OnlyMachine(s, t, i, n) && StoreUnchanged(s, t)
    && var m := s.machines[i];
    && m.phase == Resolving(k, false) && n.phase.Idle? && OnlySide(m, n, k)
    && var side := m.sides(k);
    && side.fetched.Some?
    && var v := LocalStep(SavedView(side), Settlement(side, false), SetupOf(s, m, k, false));
    && (n.sides(k).base == v.base || n.sides(k).base == side.base)
    && n.sides(k) == Cleared(side).(disk := v.disk, saved := v.st, live := v.st, base := n.sides(k).base,
                                    synced := side.synced + NamedETag(v.st))
  }

  // Somebody outside removes an object.
  ghost predicate Vanish(s: System, t: System, k: Key) {
    && t.machines == s.machines && t.structured == s.structured && t.next == s.next
    && t.store(k).None?
    && (forall j :: j != k ==> t.store(j) == s.store(j))
    && (forall j :: t.history(j) == s.history(j))
  }

  datatype Step =
    | EditStep(k: Key, e: Option<Entry>)
    | ListStep
    | FetchStep(k: Key, reported: ETag)
    | ApplyLocalStep(adoptLocal: bool)
    | PutStep(k: Key, acked: bool, reported: ETag)
    | LostRaceStep(k: Key)
    | FinishStep
    | CrashStep
    | ResolveStartStep(k: Key, keepLocal: bool, reported: ETag)
    | ResolveKeepStep(k: Key, reported: ETag)
    | ResolveTakeStep(k: Key)
    | VanishStep(k: Key)

  // Machine i takes a step from s to t and becomes n.
  ghost predicate Next(s: System, t: System, i: nat, n: Machine, step: Step) {
    match step
    case EditStep(k, e) => Edit(s, t, i, n, k, e)
    case ListStep => List(s, t, i, n)
    case FetchStep(k, r) => Fetch(s, t, i, n, k, r)
    case ApplyLocalStep(adopt) => ApplyLocal(s, t, i, n, adopt)
    case PutStep(k, acked, r) => Put(s, t, i, n, k, acked, r)
    case LostRaceStep(k) => LostRace(s, t, i, n, k)
    case FinishStep => Finish(s, t, i, n)
    case CrashStep => Crash(s, t, i, n)
    case ResolveStartStep(k, keep, r) => ResolveStart(s, t, i, n, k, keep, r)
    case ResolveKeepStep(k, r) => ResolveKeep(s, t, i, n, k, r)
    case ResolveTakeStep(k) => ResolveTake(s, t, i, n, k)
    case VanishStep(k) => Vanish(s, t, k)
  }
}
