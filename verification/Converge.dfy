// Any number of machines syncing one key in turn, each with its own platform:
// after everybody synced once without conflicts and once more, all disks hold
// what the store holds, and nothing is left to do.
module Converge {
  import opened Options
  import opened Structured
  import opened Plan
  import opened Round

  datatype Fleet = Fleet(vs: seq<View>, obj: Option<Obj>)

  // The fleet after machine k synced.
  function Turn(f: Fleet, cs: seq<Setup>, k: nat, tag: ETag, reports: bool): Fleet
    requires k < |f.vs| == |cs|
  {
    var p := RoundKey(f.vs[k], f.obj, cs[k], tag, if reports then tag else 0);
    Fleet(f.vs[k := p.v], p.obj)
  }

  // The fleet after machines 0..n-1 synced in order. Writes number the
  // objects from tag on; the store reports those numbers or it does not.
  function Pass(f: Fleet, cs: seq<Setup>, n: nat, tag: ETag, reports: bool): (g: Fleet)
    requires n <= |f.vs| == |cs|
    ensures |g.vs| == |f.vs|
  {
    if n == 0 then f
    else Turn(Pass(f, cs, n - 1, tag, reports), cs, n - 1, tag + n - 1, reports)
  }

  ghost predicate PlainView(v: View) {
    && (v.disk.Some? ==> v.disk.value.File?)
    && (v.st.Some? ==> !v.st.value.snap.SnapLink?)
  }

  // Structured files are files everywhere: nobody put a link in their place
  // or resolved a conflict by deleting one.
  ghost predicate Plain(v: View, obj: Option<Obj>, c: Setup) {
    c.structured ==> PlainView(v) && (obj.Some? ==> obj.value.body.Live? && obj.value.body.entry.File?)
  }

  ghost predicate Ready(v: View, obj: Option<Obj>, c: Setup, tag: ETag) {
    && Sound(v, obj, c) && Plain(v, obj, c)
    && (v.st.Some? ==> v.st.value.etag < tag) && (obj.Some? ==> obj.value.etag < tag)
  }

  ghost predicate FleetReady(f: Fleet, cs: seq<Setup>, tag: ETag) {
    && |f.vs| == |cs| && tag != 0
    && (forall i, j :: 0 <= i < |cs| && 0 <= j < |cs| ==> cs[i].structured == cs[j].structured)
    && forall i :: 0 <= i < |cs| ==> Ready(f.vs[i], f.obj, cs[i], tag)
  }

  // No machine met a conflict or had anything waiting for confirmation.
  ghost predicate NobodyAsked(f: Fleet, cs: seq<Setup>, n: nat, tag: ETag, reports: bool)
    requires n <= |f.vs| == |cs|
  {
    forall i :: 0 <= i < n ==>
      var g := Pass(f, cs, i, tag, reports);
      !NeedsUser(g.vs[i], g.obj, cs[i])
  }

  // This machine's own changes are all in the store, or were replaced since.
  ghost predicate Clean(v: View, obj: Option<Obj>, c: Setup) {
    LocalUnchanged(v.disk, v.st, c.tracksExec) && (obj.None? ==> v.st.None?)
  }

  // A new object leaves the other machines ready: none of them knows its tag.
  lemma OthersStayReady(v: View, obj: Option<Obj>, now: Option<Obj>, c: Setup, tag: ETag)
    requires Ready(v, obj, c, tag)
    requires now == obj || (now.Some? && now.value.etag == tag && tag != 0
                            && WellFormedBody(now.value.body, c.structured)
                            && (c.structured ==> now.value.body.Live? && now.value.body.entry.File?))
    ensures Ready(v, now, c, tag + 1)
    ensures Clean(v, obj, c) ==> Clean(v, now, c)
  {
  }

  lemma RoundStaysReady(v: View, obj: Option<Obj>, c: Setup, tag: ETag, reported: ETag)
    requires Ready(v, obj, c, tag) && tag != 0 && (reported == tag || reported == 0)
    ensures var p := RoundKey(v, obj, c, tag, reported);
            && Ready(p.v, p.obj, c, tag + 1)
            && (p.obj == obj || (p.obj.Some? && p.obj.value.etag == tag))
            && (!NeedsUser(v, obj, c) ==> Clean(p.v, p.obj, c) && InStep(p.v, p.obj, c))
  {
    hide Plan.PlanKey, Plan.Absorbs, Structured.Fingerprint;
    if Planned(v, obj, c).Some? {
      PlanGrounded(v, obj, c);
      PlanLands(v, obj, c, tag, reported);
    }
    NothingPlanned(v, obj, c);
    if !NeedsUser(v, obj, c) { RoundAgrees(v, obj, c, tag, reported); }
  }

  // A machine without changes of its own writes nothing, asks nothing and
  // ends in step with the store.
  lemma CleanRound(v: View, obj: Option<Obj>, c: Setup, tag: ETag, reported: ETag)
    requires Ready(v, obj, c, tag) && Clean(v, obj, c) && tag != 0 && (reported == tag || reported == 0)
    ensures var p := RoundKey(v, obj, c, tag, reported);
            p.obj == obj && InStep(p.v, obj, c) && Agrees(p.v, obj, c)
    ensures !NeedsUser(v, obj, c)
  {
    CleanPlan(v, obj, c, tag);
    RoundAgrees(v, obj, c, tag, reported);
    hide Plan.PlanKey, Plan.Absorbs, Structured.Fingerprint;
    NothingPlanned(v, obj, c);
  }

  lemma CleanPlan(v: View, obj: Option<Obj>, c: Setup, tag: ETag)
    requires Ready(v, obj, c, tag) && Clean(v, obj, c)
    ensures var a := Planned(v, obj, c);
            a.Some? ==> a.value.kind in {Download, RemoveLocal, Record}
    ensures !DeletedStructuredLink(v, obj, c)
  {
    hide Structured.Merged, Structured.Conflicts, Structured.Fingerprint;
  }

  lemma TurnStaysReady(g: Fleet, cs: seq<Setup>, k: nat, tag: ETag, reports: bool)
    requires FleetReady(g, cs, tag) && k < |cs|
    ensures var h := Turn(g, cs, k, tag, reports);
            && FleetReady(h, cs, tag + 1)
            && (forall i :: 0 <= i < |cs| && i != k && Clean(g.vs[i], g.obj, cs[i]) ==> Clean(h.vs[i], h.obj, cs[i]))
            && (!NeedsUser(g.vs[k], g.obj, cs[k]) ==> Clean(h.vs[k], h.obj, cs[k]))
  {
    hide Ready, Clean, RoundKey, NeedsUser, InStep;
    var h := Turn(g, cs, k, tag, reports);
    RoundStaysReady(g.vs[k], g.obj, cs[k], tag, if reports then tag else 0);
    ReadyObject(h.vs[k], h.obj, cs[k], tag + 1);
    forall i | 0 <= i < |cs| && i != k
      ensures Ready(h.vs[i], h.obj, cs[i], tag + 1)
      ensures Clean(g.vs[i], g.obj, cs[i]) ==> Clean(h.vs[i], h.obj, cs[i])
    {
      OthersStayReady(g.vs[i], g.obj, h.obj, cs[i], tag);
    }
  }

  lemma {:induction false} PassStaysReady(f: Fleet, cs: seq<Setup>, n: nat, tag: ETag, reports: bool)
    requires FleetReady(f, cs, tag) && n <= |cs|
    ensures FleetReady(Pass(f, cs, n, tag, reports), cs, tag + n)
    ensures NobodyAsked(f, cs, n, tag, reports) ==>
              var g := Pass(f, cs, n, tag, reports);
              forall i :: 0 <= i < n ==> Clean(g.vs[i], g.obj, cs[i])
  {
    hide Ready, Clean, Turn, NeedsUser;
    if n > 0 {
      PassStaysReady(f, cs, n - 1, tag, reports);
      var g := Pass(f, cs, n - 1, tag, reports);
      TurnStaysReady(g, cs, n - 1, tag + n - 1, reports);
    }
  }

  lemma ReadyObject(v: View, obj: Option<Obj>, c: Setup, tag: ETag)
    requires Ready(v, obj, c, tag)
    ensures obj.Some? ==> WellFormedBody(obj.value.body, c.structured)
                          && (c.structured ==> obj.value.body.Live? && obj.value.body.entry.File?)
  {
  }

  lemma CleanTurn(g: Fleet, cs: seq<Setup>, k: nat, tag: ETag, reports: bool)
    requires FleetReady(g, cs, tag) && k < |cs| && Clean(g.vs[k], g.obj, cs[k])
    ensures var h := Turn(g, cs, k, tag, reports);
            && h.obj == g.obj && h.vs[..k] == g.vs[..k] && h.vs[k + 1..] == g.vs[k + 1..]
            && InStep(h.vs[k], h.obj, cs[k]) && Agrees(h.vs[k], h.obj, cs[k])
  {
    hide Ready, Clean, RoundKey, InStep, Agrees;
    CleanRound(g.vs[k], g.obj, cs[k], tag, if reports then tag else 0);
  }

  // A pass of machines without changes of their own leaves the store alone
  // and every machine that synced in step.
  lemma {:induction false} CleanPass(f: Fleet, cs: seq<Setup>, n: nat, tag: ETag, reports: bool)
    requires FleetReady(f, cs, tag) && n <= |cs|
    requires forall i :: 0 <= i < |cs| ==> Clean(f.vs[i], f.obj, cs[i])
    ensures var g := Pass(f, cs, n, tag, reports);
            && g.obj == f.obj && g.vs[n..] == f.vs[n..]
            && (forall i :: 0 <= i < n ==> InStep(g.vs[i], g.obj, cs[i]) && Agrees(g.vs[i], g.obj, cs[i]))
  {
    hide Ready, Clean, Turn, InStep, Agrees;
    if n > 0 {
      CleanPass(f, cs, n - 1, tag, reports);
      PassStaysReady(f, cs, n - 1, tag, reports);
      var g := Pass(f, cs, n - 1, tag, reports);
      var h := Pass(f, cs, n, tag, reports);
      assert g.vs[n - 1] == g.vs[n - 1..][0] == f.vs[n - 1..][0] == f.vs[n - 1];
      CleanTurn(g, cs, n - 1, tag + n - 1, reports);
      assert h.vs[n..] == g.vs[n..] == g.vs[n - 1..][1..] == f.vs[n - 1..][1..] == f.vs[n..];
      forall i | 0 <= i < n ensures InStep(h.vs[i], h.obj, cs[i]) && Agrees(h.vs[i], h.obj, cs[i]) {
        if i < n - 1 { assert h.vs[i] == h.vs[..n - 1][i] == g.vs[..n - 1][i] == g.vs[i]; }
      }
    }
  }

  // Two machines hold the same entry (the execute bit where both have one).
  ghost predicate SameOnDisk(a: View, ca: Setup, b: View, cb: Setup) {
    match (a.disk, b.disk)
    case (None, None) => true
    case (Some(Link(t, _)), Some(Link(u, _))) => t == u
    case (Some(File(x, e)), Some(File(y, d))) => Hash(x) == Hash(y) && (ca.tracksExec && cb.tracksExec ==> e == d)
    case _ => false
  }

  lemma AgreeingMachines(a: View, ca: Setup, b: View, cb: Setup, obj: Option<Obj>)
    requires Agrees(a, obj, ca) && Agrees(b, obj, cb)
    ensures SameOnDisk(a, ca, b, cb)
  {
    hide Structured.Fingerprint;
  }

  // The next round decides nothing, or records an ETag that was not reported.
  ghost predicate OnlyRecords(v: View, obj: Option<Obj>, c: Setup) {
    var a := Planned(v, obj, c);
    a.None? || (a.value.kind == Record && v.st.Some? && v.st.value.etag == 0)
  }

  // The convergence theorem: one pass in which nobody was asked anything and
  // one more, with no edits in between. The second pass stores nothing, all
  // machines then hold the same entry, and a third has at most ETags to record.
  lemma FleetConverges(f: Fleet, cs: seq<Setup>, tag: ETag, reports: bool)
    requires FleetReady(f, cs, tag) && NobodyAsked(f, cs, |cs|, tag, reports)
    ensures var once := Pass(f, cs, |cs|, tag, reports);
            var twice := Pass(once, cs, |cs|, tag + |cs|, reports);
            && twice.obj == once.obj
            && (forall i :: 0 <= i < |cs| ==> Agrees(twice.vs[i], twice.obj, cs[i]))
            && (forall i, j :: 0 <= i < |cs| && 0 <= j < |cs| ==> SameOnDisk(twice.vs[i], cs[i], twice.vs[j], cs[j]))
            && (forall i :: 0 <= i < |cs| ==> OnlyRecords(twice.vs[i], twice.obj, cs[i]))
  {
    hide InStep, Agrees, Clean, SameOnDisk, Planned, Ready, Turn;
    PassStaysReady(f, cs, |cs|, tag, reports);
    var once := Pass(f, cs, |cs|, tag, reports);
    CleanPass(once, cs, |cs|, tag + |cs|, reports);
    PassStaysReady(once, cs, |cs|, tag + |cs|, reports);
    var twice := Pass(once, cs, |cs|, tag + |cs|, reports);
    forall i, j | 0 <= i < |cs| && 0 <= j < |cs| ensures SameOnDisk(twice.vs[i], cs[i], twice.vs[j], cs[j]) {
      AgreeingMachines(twice.vs[i], cs[i], twice.vs[j], cs[j], twice.obj);
    }
    forall i | 0 <= i < |cs| ensures OnlyRecords(twice.vs[i], twice.obj, cs[i]) {
      ReadyIsSound(twice.vs[i], twice.obj, cs[i], tag + |cs| + |cs|);
      Quiescent(twice.vs[i], twice.obj, cs[i], 1, 0);
    }
  }

  lemma ReadyIsSound(v: View, obj: Option<Obj>, c: Setup, tag: ETag)
    requires Ready(v, obj, c, tag)
    ensures Sound(v, obj, c)
  {
  }
}
