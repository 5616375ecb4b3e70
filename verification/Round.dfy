// One sync round of one machine on one key with nobody else writing: the
// disk and the store agree afterwards, the next round finds nothing to do,
// an interrupted round is completed by the next one, and machines syncing in
// turn converge.
module Round {
  import opened Options
  import opened Structured
  import opened Plan

  datatype Obj = Obj(body: Body, etag: ETag)

  datatype Pair = Pair(v: View, obj: Option<Obj>)

  function InfoOf(obj: Option<Obj>): Option<ETag> {
    if obj.Some? then Some(obj.value.etag) else None
  }

  function BodyOf(obj: Option<Obj>): Body {
    if obj.Some? then obj.value.body else Tombstone
  }

  predicate StructuredGone(v: View, c: Setup) {
    c.structured && v.disk.None? && v.st.Some? && v.st.value.snap.SnapFile?
  }

  // What fetch reads of the store.
  function Fetched(v: View, obj: Option<Obj>, c: Setup): Option<Remote> {
    if obj.Some? && (NeedsFetch(obj.value.etag, v.st) || StructuredGone(v, c))
    then Some(Remote(obj.value.body, obj.value.etag)) else None
  }

  function Planned(v: View, obj: Option<Obj>, c: Setup): Option<Action> {
    PlanKey(v, InfoOf(obj), Fetched(v, obj, c), c)
  }

  // The conditional write: If-None-Match when no ETag is named, If-Match
  // otherwise (RFC 7232, sections 3.1 and 3.2).
  predicate PutAllowed(current: Option<Obj>, ifMatch: ETag) {
    if ifMatch == 0 then current.None? else current.Some? && current.value.etag == ifMatch
  }

  // Carrying out one planned action. A stored object gets the new ETag tag;
  // the write reports reported, which is tag or 0.
  function Carried(v: View, obj: Option<Obj>, a: Action, c: Setup, tag: ETag, reported: ETag): Pair
    requires a.kind == Upload ==> a.local.Some?
  {
    var v1 := LocalStep(v, a, c);
    if Uploads(a) && PutAllowed(obj, a.ifMatch) then
      Pair(Uploaded(v1, a, reported, c), Some(Obj(Payload(a, v1.st, c), tag)))
    else Pair(v1, obj)
  }

  function RoundKey(v: View, obj: Option<Obj>, c: Setup, tag: ETag, reported: ETag): Pair {
    PlanKeyBasics(v, InfoOf(obj), Fetched(v, obj, c), c);
    hide Plan.PlanKey;
    match Planned(v, obj, c)
    case None => Pair(v, obj)
    case Some(a) => Carried(v, obj, a, c, tag, reported)
  }

  // ------------------------------------------------------------ invariants

  // A state describes a stored body (the bit counts where there is one).
  ghost predicate Describes(snap: Snapshot, body: Body, tracksExec: bool) {
    match (snap, body)
    case (SnapTombstone, Tombstone) => true
    case (SnapFile(h, x), Live(File(c, bx))) => h == Hash(c) && (tracksExec ==> x == bx)
    case (SnapLink(t, _), Live(Link(bt, _))) => t == bt
    case _ => false
  }

  // A state naming the ETag of an object describes that object.
  ghost predicate Consistent(v: View, obj: Option<Obj>, tracksExec: bool) {
    v.st.Some? && obj.Some? && v.st.value.etag == obj.value.etag
    ==> Describes(v.st.value.snap, obj.value.body, tracksExec)
  }

  ghost predicate Sound(v: View, obj: Option<Obj>, c: Setup) {
    && WellFormedView(v, c)
    && (c.structured && v.st.Some? && v.st.value.snap.SnapFile? ==> !v.st.value.snap.exec)
    && (obj.Some? ==> obj.value.etag != 0 && WellFormedBody(obj.value.body, c.structured))
    && Consistent(v, obj, c.tracksExec)
  }

  ghost predicate Agrees(v: View, obj: Option<Obj>, c: Setup) {
    SameContent(v.disk, BodyOf(obj), c.tracksExec)
  }

  // The round left the key to the user.
  ghost predicate NeedsUser(v: View, obj: Option<Obj>, c: Setup) {
    var a := Planned(v, obj, c);
    a.Some? && (a.value.kind == Conflict || a.value.kind == Pending)
  }

  // A link deleted here at the place of a structured file: it is neither
  // deleted remotely nor restored in the same round.
  ghost predicate DeletedStructuredLink(v: View, obj: Option<Obj>, c: Setup) {
    c.structured && v.disk.None? && v.st.Some? && v.st.value.snap.SnapLink? && RemoteUnchanged(InfoOf(obj), v.st)
  }

  // What a finished round leaves: the entry the state describes on disk, and
  // a state that describes the object.
  ghost predicate InStep(v: View, obj: Option<Obj>, c: Setup) {
    && LocalUnchanged(v.disk, v.st, c.tracksExec)
    && (obj.None? <==> v.st.None?)
    && (obj.Some? && v.st.Some? ==> Describes(v.st.value.snap, obj.value.body, c.tracksExec)
                                    && (v.st.value.etag == 0 || v.st.value.etag == obj.value.etag))
  }

  // ------------------------------------------------------------- one round

  lemma PlanGrounded(v: View, obj: Option<Obj>, c: Setup)
    requires Sound(v, obj, c) && Planned(v, obj, c).Some?
    ensures PlanRests(Planned(v, obj, c).value, v, InfoOf(obj), Fetched(v, obj, c), c)
    ensures var a := Planned(v, obj, c).value; Uploads(a) ==> PutAllowed(obj, a.ifMatch)
  {
    hide Plan.PlanKey, Plan.Absorbs;
    PlanKeyRests(v, InfoOf(obj), Fetched(v, obj, c), c);
  }

  // An action carried out alone keeps the invariants and, unless it was left
  // to the user, brings both sides in step.
  ghost predicate Lands(v: View, obj: Option<Obj>, a: Action, c: Setup, tag: ETag, reported: ETag)
    requires a.kind == Upload ==> a.local.Some?
  {
    var p := Carried(v, obj, a, c, tag, reported);
    && Sound(p.v, p.obj, c)
    && (a.kind != Conflict && a.kind != Pending && !(a.kind == Forget && obj.Some?) ==>
          InStep(p.v, p.obj, c) && Agrees(p.v, p.obj, c))
  }

  ghost predicate Fresh(v: View, tag: ETag, reported: ETag) {
    tag != 0 && (reported == tag || reported == 0) && (v.st.Some? ==> v.st.value.etag != tag)
  }

  ghost predicate Grounded(v: View, obj: Option<Obj>, a: Action, c: Setup) {
    && Sound(v, obj, c)
    && PlanRests(a, v, InfoOf(obj), Fetched(v, obj, c), c)
    && (Uploads(a) ==> PutAllowed(obj, a.ifMatch))
  }

  lemma DownloadLands(v: View, obj: Option<Obj>, a: Action, c: Setup, tag: ETag, reported: ETag)
    requires Grounded(v, obj, a, c) && Fresh(v, tag, reported) && a.kind == Download
    ensures Lands(v, obj, a, c, tag, reported)
  {
    hide Plan.Absorbs, Structured.Fingerprint;
  }

  lemma UploadLands(v: View, obj: Option<Obj>, a: Action, c: Setup, tag: ETag, reported: ETag)
    requires Grounded(v, obj, a, c) && Fresh(v, tag, reported) && a.kind == Upload
    ensures Lands(v, obj, a, c, tag, reported)
  {
    hide Plan.Absorbs, Structured.Fingerprint;
  }

  lemma OthersLand(v: View, obj: Option<Obj>, a: Action, c: Setup, tag: ETag, reported: ETag)
    requires Grounded(v, obj, a, c) && Fresh(v, tag, reported) && a.kind != Download && a.kind != Upload
    ensures Lands(v, obj, a, c, tag, reported)
  {
    hide Plan.Absorbs, Structured.Fingerprint;
  }

  lemma NothingPlanned(v: View, obj: Option<Obj>, c: Setup)
    ensures Planned(v, obj, c).None?
            <==> LocalUnchanged(v.disk, v.st, c.tracksExec) && RemoteUnchanged(InfoOf(obj), v.st)
  {
    hide Plan.MergeStructured, Plan.ProtectStructured;
  }

  lemma ForgottenLink(v: View, obj: Option<Obj>, c: Setup)
    requires Sound(v, obj, c)
    ensures DeletedStructuredLink(v, obj, c)
            <==> Planned(v, obj, c).Some? && Planned(v, obj, c).value.kind == Forget && obj.Some?
  {
    hide Structured.Merged, Structured.Conflicts, Structured.Fingerprint;
  }

  lemma PlanLands(v: View, obj: Option<Obj>, c: Setup, tag: ETag, reported: ETag)
    requires Sound(v, obj, c) && Fresh(v, tag, reported) && Planned(v, obj, c).Some?
    ensures var a := Planned(v, obj, c).value;
            && (a.kind == Upload ==> a.local.Some?)
            && Lands(v, obj, a, c, tag, reported)
            && RoundKey(v, obj, c, tag, reported) == Carried(v, obj, a, c, tag, reported)
  {
    hide Plan.PlanKey, Lands, Sound, Carried, Fresh, Fetched, PutAllowed;
    var a := Planned(v, obj, c).value;
    PlanGrounded(v, obj, c);
    if a.kind == Download { DownloadLands(v, obj, a, c, tag, reported); }
    else if a.kind == Upload { UploadLands(v, obj, a, c, tag, reported); }
    else { OthersLand(v, obj, a, c, tag, reported); }
  }

  lemma LandsMeans(v: View, obj: Option<Obj>, a: Action, c: Setup, tag: ETag, reported: ETag)
    requires (a.kind == Upload ==> a.local.Some?) && Lands(v, obj, a, c, tag, reported)
    ensures var p := Carried(v, obj, a, c, tag, reported);
            && Sound(p.v, p.obj, c)
            && (a.kind != Conflict && a.kind != Pending && !(a.kind == Forget && obj.Some?) ==>
                  InStep(p.v, p.obj, c) && Agrees(p.v, p.obj, c))
  {
    hide Carried, Sound, InStep, Agrees;
  }

  // After an uncontended round that asked nothing of the user, this machine
  // and the store hold the same thing, and the state describes both: with the
  // single exception named by DeletedStructuredLink.
  lemma RoundAgrees(v: View, obj: Option<Obj>, c: Setup, tag: ETag, reported: ETag)
    requires Sound(v, obj, c) && Fresh(v, tag, reported)
    requires !NeedsUser(v, obj, c)
    ensures var p := RoundKey(v, obj, c, tag, reported);
            && Sound(p.v, p.obj, c)
            && (Agrees(p.v, p.obj, c) <==> !DeletedStructuredLink(v, obj, c))
            && (!DeletedStructuredLink(v, obj, c) ==> InStep(p.v, p.obj, c))
  {
    hide Plan.PlanKey, Lands;
    NothingPlanned(v, obj, c);
    ForgottenLink(v, obj, c);
    var plan := Planned(v, obj, c);
    if plan.Some? {
      PlanLands(v, obj, c, tag, reported);
      LandsMeans(v, obj, plan.value, c, tag, reported);
    }
  }

  // Once in step, the next round decides nothing, or one Record when the
  // store never reported the ETag; that changes neither the disk nor the
  // store, and nothing is left to decide after it.
  lemma Quiescent(v: View, obj: Option<Obj>, c: Setup, tag: ETag, reported: ETag)
    requires Sound(v, obj, c) && InStep(v, obj, c)
    ensures Planned(v, obj, c).None? <==> v.st.None? || v.st.value.etag != 0
    ensures Planned(v, obj, c).Some? ==> Planned(v, obj, c).value.kind == Record
    ensures var p := RoundKey(v, obj, c, tag, reported);
            && p.v.disk == v.disk && p.obj == obj && InStep(p.v, obj, c)
            && Planned(p.v, obj, c).None?
  {
    hide Structured.Merged, Structured.Conflicts, Structured.Fingerprint;
    NothingPlanned(v, obj, c);
    NothingPlanned(RoundKey(v, obj, c, tag, reported).v, obj, c);
  }
}
