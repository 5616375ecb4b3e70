// The steps of the protocol, taken by one machine while nobody else writes,
// do what an uncontended round does: what Round and Outcomes prove of rounds
// holds of the protocol's runs, from every state they reach.
module Progress {
  import opened Options
  import opened Structured
  import opened Plan
  import opened Round
  import opened Protocol
  import opened Safety
  import opened Outcomes
  import Interruption = Crash

  // In every reachable state, every key of every machine is sound.
  lemma ReachableIsSound(s: System, i: nat, k: Key, adopt: bool)
    requires Inv(s) && i < |s.machines|
    ensures var m := s.machines[i];
            var v, c := SavedView(m.sides(k)), SetupOf(s, m, k, adopt);
            Sound(v, s.store(k), c) && Fresh(v, s.next, s.next)
  {
    var m := s.machines[i];
    var side, h, c := m.sides(k), s.history(k), SetupOf(s, m, k, adopt);
    SideOf(s, i, k);
    assert HistoryOk(s, k);
    StateIsConsistent(s, k, side.saved, m.tracksExec, side.synced);
    SavedIsOld(s, k, side, m.tracksExec);
    hide Inv, StateOk, UploadOk, KnownOk, RemoteOk, MergeBaseOk, Consistent, Describes;
    if s.store(k).Some? { assert VersionOk(h, |h| - 1, c.structured); }
  }

  lemma StateIsConsistent(s: System, k: Key, st: Option<EntryState>, tracksExec: bool, synced: set<ETag>)
    requires HistoryOk(s, k) && StateOk(s.history(k), st, tracksExec, synced)
    ensures Consistent(View(None, st, None, {}), s.store(k), tracksExec)
  {
    hide VersionOk, Describes;
  }

  lemma SavedIsOld(s: System, k: Key, side: Side, tracksExec: bool)
    requires HistoryOk(s, k) && SideOk(s.history(k), side, s.structured(k), tracksExec, false) && s.next > 0
    ensures side.saved.Some? ==> side.saved.value.etag != s.next
  {
    hide VersionOk, Describes, UploadOk, BaseStored, RemoteOk;
  }

  function At(s: System, i: nat, n: Machine): System
    requires i < |s.machines|
  {
    s.(machines := s.machines[i := n])
  }

  function WithSide(m: Machine, phase: Phase, k: Key, side: Side): Machine {
    m.(phase := phase, sides := j => if j == k then side else m.sides(j))
  }

  lemma Lists(s: System, i: nat) returns (n: Machine)
    requires i < |s.machines| && s.machines[i].phase.Idle?
    ensures Next(s, At(s, i, n), i, n, ListStep) && n.phase.Reading?
    ensures n.tracksExec == s.machines[i].tracksExec && n.firstSync == s.machines[i].firstSync
    ensures forall j :: n.sides(j) == Cleared(s.machines[i].sides(j)).(listed := InfoOf(s.store(j)))
  {
    var m := s.machines[i];
    n := m.(phase := Reading, sides := j => Cleared(m.sides(j)).(listed := InfoOf(s.store(j))));
  }

  lemma Fetches(s: System, i: nat, k: Key) returns (n: Machine)
    requires i < |s.machines| && s.machines[i].phase.Reading? && s.store(k).Some?
    requires var m := s.machines[i];
             var side := m.sides(k);
             && side.listed.Some?
             && (NeedsFetch(side.listed.value, side.saved) || StructuredGone(SavedView(side), SetupOf(s, m, k, false)))
    ensures Next(s, At(s, i, n), i, n, FetchStep(k, s.store(k).value.etag)) && n.phase.Reading?
    ensures n.tracksExec == s.machines[i].tracksExec && n.firstSync == s.machines[i].firstSync
    ensures var m, o := s.machines[i], s.store(k).value;
            && n.sides(k) == m.sides(k).(fetched := Some(Remote(o.body, o.etag)), known := m.sides(k).known + {o.etag})
            && forall j :: j != k ==> n.sides(j) == m.sides(j)
  {
    var m, o := s.machines[i], s.store(k).value;
    n := WithSide(m, Reading, k,
                  m.sides(k).(fetched := Some(Remote(o.body, o.etag)), known := m.sides(k).known + {o.etag}));
  }

  // The local part of a run on key k alone: what it leaves of that side.
  function LocalSide(c: Setup, side: Side): Side
    requires Readable(side.listed, side.saved, side.fetched)
  {
    var a := PlanKey(SavedView(side), side.listed, side.fetched, c);
    if a.None? then Cleared(side)
    else
      var v := LocalStep(SavedView(side), a.value, c);
      Cleared(side).(disk := v.disk, live := v.st, base := v.base, aside := v.aside,
                     upload := if Uploads(a.value) then a else None,
                     mergeBase := if Uploads(a.value) then MergeBase(a.value, SavedView(side)) else [],
                     synced := side.synced + NamedETag(v.st))
  }

  lemma Applies(s: System, i: nat, k: Key, adopt: bool) returns (n: Machine)
    requires i < |s.machines| && s.machines[i].phase.Reading?
    requires var side := s.machines[i].sides(k); Readable(side.listed, side.saved, side.fetched)
    ensures Next(s, At(s, i, n), i, n, ApplyLocalStep(adopt)) && n.phase.Writing?
    ensures n.tracksExec == s.machines[i].tracksExec && n.firstSync == s.machines[i].firstSync
    ensures n.sides(k) == LocalSide(SetupOf(s, s.machines[i], k, adopt), s.machines[i].sides(k))
    ensures forall j :: j != k ==> n.sides(j) == Cleared(s.machines[i].sides(j))
  {
    var m := s.machines[i];
    var side := LocalSide(SetupOf(s, m, k, adopt), m.sides(k));
    n := m.(phase := Writing, sides := j => if j == k then side else Cleared(m.sides(j)));
    hide PlanKey, LocalStep, MergeBase;
    forall j ensures LocalPart(SetupOf(s, m, j, adopt), m.sides(j), n.sides(j)) {
    }
  }

  lemma Puts(s: System, i: nat, k: Key) returns (t: System, n: Machine)
    requires i < |s.machines| && s.machines[i].phase.Writing? && s.machines[i].sides(k).upload.Some?
    requires var a := s.machines[i].sides(k).upload.value;
             Uploads(a) && (a.kind == Upload ==> a.local.Some?) && PutAllowed(s.store(k), a.ifMatch)
    ensures Next(s, t, i, n, PutStep(k, true, s.next)) && n.phase.Writing?
    ensures var m := s.machines[i];
            var side, c := m.sides(k), SetupOf(s, m, k, false);
            var a := side.upload.value;
            var v := Uploaded(LiveView(side), a, s.next, c);
            && t.store(k) == Some(Obj(Payload(a, side.live, c), s.next))
            && n.sides(k) == side.(upload := None, live := v.st, base := v.base,
                                   known := side.known + {s.next}, synced := side.synced + {s.next})
            && (forall j :: j != k ==> n.sides(j) == m.sides(j) && t.store(j) == s.store(j))
            && |t.machines| == |s.machines| && t.machines[i] == n
  {
    var m := s.machines[i];
    var side, c := m.sides(k), SetupOf(s, m, k, false);
    var a := side.upload.value;
    var v := Uploaded(LiveView(side), a, s.next, c);
    var body := Payload(a, side.live, c);
    n := WithSide(m, Writing, k, side.(upload := None, live := v.st, base := v.base,
                                       known := side.known + {s.next}, synced := side.synced + {s.next}));
    var h := s.history(k) + [Written(s, i, k, body, a.ifMatch, false)];
    t := s.(machines := s.machines[i := n], store := j => if j == k then Some(Obj(body, s.next)) else s.store(j),
            history := j => if j == k then h else s.history(j), next := s.next + 1);
  }

  lemma Finishes(s: System, i: nat) returns (n: Machine)
    requires i < |s.machines| && s.machines[i].phase.Writing? && forall k :: s.machines[i].sides(k).upload.None?
    ensures Next(s, At(s, i, n), i, n, FinishStep) && n.phase.Idle?
    ensures forall k :: n.sides(k) == s.machines[i].sides(k).(saved := s.machines[i].sides(k).live)
  {
    var m := s.machines[i];
    n := m.(phase := Idle, sides := j => m.sides(j).(saved := m.sides(j).live));
  }

  // ------------------------------------------------------------ a whole run

  datatype Path = Path(states: seq<System>, moves: seq<Move>)

  ghost predicate Leads(s: System, p: Path, t: System) {
    && |p.states| == |p.moves| + 1 && p.states[0] == s && p.states[|p.moves|] == t
    && forall x :: 0 <= x < |p.moves| ==>
         Next(p.states[x], p.states[x + 1], p.moves[x].i, p.moves[x].machine, p.moves[x].step)
  }

  function Longer(p: Path, t: System, move: Move): Path {
    Path(p.states + [t], p.moves + [move])
  }

  lemma LeadsOn(s: System, p: Path, t: System, u: System, move: Move)
    requires Leads(s, p, t) && Next(t, u, move.i, move.machine, move.step)
    ensures Leads(s, Longer(p, u, move), u)
  {
    hide Next;
  }

  lemma LeadsNowhere(s: System)
    ensures Leads(s, Path([s], []), s)
  {
  }

  // What other keys keep.
  ghost predicate OthersStay(s: System, t: System, i: nat, k: Key) {
    && i < |s.machines| && i < |t.machines|
    && forall j :: j != k ==>
         && t.store(j) == s.store(j)
         && SavedView(t.machines[i].sides(j)) == SavedView(s.machines[i].sides(j))
  }

  // What this machine read before it decides.
  ghost predicate ReadFor(s: System, t: System, i: nat, k: Key) {
    && i < |s.machines| && i < |t.machines| && t.machines[i].phase.Reading? && t.store(k) == s.store(k)
    && t.next == s.next && t.structured == s.structured
    && t.machines[i].tracksExec == s.machines[i].tracksExec && t.machines[i].firstSync == s.machines[i].firstSync
    && OthersStay(s, t, i, k)
    && var side, after, c := s.machines[i].sides(k), t.machines[i].sides(k), SetupOf(s, s.machines[i], k, false);
       && SavedView(after) == SavedView(side) && after.listed == InfoOf(s.store(k)) && after.upload.None?
       && after.fetched == Fetched(SavedView(side), s.store(k), c)
       && forall j :: j != k ==> t.machines[i].sides(j).upload.None?
  }

  lemma ReadsForKey(s: System, i: nat, k: Key) returns (p: Path, t: System)
    requires i < |s.machines| && s.machines[i].phase.Idle?
    ensures Leads(s, p, t) && ReadFor(s, t, i, k)
  {
    var n := Lists(s, i);
    t := At(s, i, n);
    LeadsNowhere(s);
    p := Longer(Path([s], []), t, Move(i, n, ListStep));
    LeadsOn(s, Path([s], []), s, t, Move(i, n, ListStep));
    hide Leads, Next, Longer;
    var side, c := s.machines[i].sides(k), SetupOf(s, s.machines[i], k, false);
    if Fetched(SavedView(side), s.store(k), c).Some? {
      var n' := Fetches(t, i, k);
      var u := At(t, i, n');
      var step := FetchStep(k, t.store(k).value.etag);
      LeadsOn(s, p, t, u, Move(i, n', step));
      p, t := Longer(p, u, Move(i, n', step)), u;
    }
  }

  // What it has made of key k here, and what it has still to upload.
  ghost predicate AppliedFor(s: System, t: System, i: nat, k: Key, v: View, up: Option<Action>) {
    && i < |s.machines| && i < |t.machines| && t.machines[i].phase.Writing? && t.store(k) == s.store(k)
    && t.next == s.next && t.structured == s.structured
    && t.machines[i].tracksExec == s.machines[i].tracksExec && t.machines[i].firstSync == s.machines[i].firstSync
    && LiveView(t.machines[i].sides(k)) == v && t.machines[i].sides(k).upload == up
    && forall j :: j != k ==>
         && t.store(j) == s.store(j) && t.machines[i].sides(j).upload.None?
         && LiveView(t.machines[i].sides(j)) == SavedView(s.machines[i].sides(j))
  }

  function Planning(s: System, i: nat, k: Key, adopt: bool): Option<Action>
    requires i < |s.machines|
  {
    var m := s.machines[i];
    Planned(SavedView(m.sides(k)), s.store(k), SetupOf(s, m, k, adopt))
  }

  lemma AppliesForKey(s: System, u: System, i: nat, k: Key, adopt: bool) returns (n: Machine)
    requires ReadFor(s, u, i, k)
    ensures Next(u, At(u, i, n), i, n, ApplyLocalStep(adopt))
    ensures var a := Planning(s, i, k, adopt);
            var v := SavedView(s.machines[i].sides(k));
            AppliedFor(s, At(u, i, n), i, k,
                       if a.Some? then LocalStep(v, a.value, SetupOf(s, s.machines[i], k, adopt)) else v,
                       if a.Some? && Uploads(a.value) then a else None)
  {
    hide Next, PlanKey, LocalStep;
    n := Applies(u, i, k, adopt);
  }

  // The upload, if there is one, and the saved state.
  lemma EndsForKey(s: System, w: System, i: nat, k: Key, v: View, up: Option<Action>) returns (p: Path, t: System)
    requires AppliedFor(s, w, i, k, v, up)
    requires up.Some? ==> Uploads(up.value) && (up.value.kind == Upload ==> up.value.local.Some?)
                          && PutAllowed(s.store(k), up.value.ifMatch)
    ensures Leads(w, p, t) && OthersStay(s, t, i, k) && t.machines[i].phase.Idle?
    ensures var c := SetupOf(s, s.machines[i], k, false);
            Pair(SavedView(t.machines[i].sides(k)), t.store(k))
            == if up.Some? then Pair(Uploaded(v, up.value, s.next, c), Some(Obj(Payload(up.value, v.st, c), s.next)))
               else Pair(v, s.store(k))
  {
    hide Next, Leads, Longer, Uploaded, Payload;
    LeadsNowhere(w);
    p, t := Path([w], []), w;
    if up.Some? {
      var x, n := Puts(w, i, k);
      UploadedKeeps(LiveView(w.machines[i].sides(k)), up.value, s.next, SetupOf(s, s.machines[i], k, false));
      LeadsOn(w, p, w, x, Move(i, n, PutStep(k, true, w.next)));
      p, t := Longer(p, x, Move(i, n, PutStep(k, true, w.next))), x;
    }
    var last := Finishes(t, i);
    LeadsOn(w, p, t, At(t, i, last), Move(i, last, FinishStep));
    p, t := Longer(p, At(t, i, last), Move(i, last, FinishStep)), At(t, i, last);
  }

  lemma UploadedKeeps(v: View, a: Action, tag: ETag, c: Setup)
    requires Uploads(a) && (a.kind == Upload ==> a.local.Some?)
    ensures Uploaded(v, a, tag, c).disk == v.disk && Uploaded(v, a, tag, c).aside == v.aside
  {
  }

  lemma {:induction false} LeadsTogether(s: System, p: Path, t: System, q: Path, u: System)
    requires Leads(s, p, t) && Leads(t, q, u)
    ensures Leads(s, Path(p.states + q.states[1..], p.moves + q.moves), u)
  {
    hide Next;
  }

  // A run of one machine that decides about key k alone, every answer of the
  // store reported and every object as it was read, ends as the round of that
  // key does.
  lemma RoundInSteps(s: System, i: nat, k: Key, adopt: bool) returns (p: Path, t: System)
    requires Inv(s) && i < |s.machines| && s.machines[i].phase.Idle?
    ensures Leads(s, p, t) && OthersStay(s, t, i, k) && t.machines[i].phase.Idle?
    ensures var m := s.machines[i];
            var done := RoundKey(SavedView(m.sides(k)), s.store(k), SetupOf(s, m, k, adopt), s.next, s.next);
            SavedView(t.machines[i].sides(k)) == done.v && t.store(k) == done.obj
  {
    var m := s.machines[i];
    var v, obj, c := SavedView(m.sides(k)), s.store(k), SetupOf(s, m, k, adopt);
    ReachableIsSound(s, i, k, adopt);
    hide Inv, Leads, Next, Longer, PlanKey, LocalStep, Sound, Uploaded, Payload, ReadFor, AppliedFor, OthersStay;
    PlanKeyBasics(v, InfoOf(obj), Fetched(v, obj, c), c);
    var a := Planned(v, obj, c);
    if a.Some? { PlanGrounded(v, obj, c); }
    var u;
    p, u := ReadsForKey(s, i, k);
    ReadHas(s, u, i, k);
    var n := AppliesForKey(s, u, i, k, adopt);
    var w := At(u, i, n);
    var v1 := if a.Some? then LocalStep(v, a.value, c) else v;
    LeadsOn(s, p, u, w, Move(i, n, ApplyLocalStep(adopt)));
    p := Longer(p, w, Move(i, n, ApplyLocalStep(adopt)));
    var q;
    q, t := EndsForKey(s, w, i, k, v1, if a.Some? && Uploads(a.value) then a else None);
    LeadsTogether(s, p, w, q, t);
    p := Path(p.states + q.states[1..], p.moves + q.moves);
    if a.Some? && Uploads(a.value) { AdoptOrNot(v1, a.value, s.next, c, SetupOf(s, m, k, false)); }
  }

  lemma ReadHas(s: System, u: System, i: nat, k: Key)
    requires ReadFor(s, u, i, k)
    ensures i < |u.machines|
  {
  }

  lemma AdoptOrNot(v: View, a: Action, tag: ETag, c: Setup, d: Setup)
    requires Uploads(a) && (a.kind == Upload ==> a.local.Some?)
    requires c.structured == d.structured && c.tracksExec == d.tracksExec
    ensures Payload(a, v.st, c) == Payload(a, v.st, d) && Uploaded(v, a, tag, c) == Uploaded(v, a, tag, d)
  {
  }

  // ---------------------------------------------------- settling a conflict

  // Settling starts only where something differs, and not from a state that
  // names the very version.
  lemma OnlyDifferencesAreSettled(s: System, t: System, i: nat, n: Machine, k: Key, keepLocal: bool, reported: ETag)
    requires Next(s, t, i, n, ResolveStartStep(k, keepLocal, reported))
    ensures i < |s.machines| && s.store(k).Some?
    ensures var v := SavedView(s.machines[i].sides(k));
            && !Agrees(v, s.store(k), SetupOf(s, s.machines[i], k, false))
            && (v.st.Some? ==> v.st.value.etag != reported)
  {
  }

  lemma StartsSettling(s: System, i: nat, k: Key, keepLocal: bool) returns (n: Machine)
    requires i < |s.machines| && s.machines[i].phase.Idle? && s.store(k).Some?
    requires !SameContent(s.machines[i].sides(k).disk, s.store(k).value.body, s.machines[i].tracksExec)
    requires var st := s.machines[i].sides(k).saved; st.Some? ==> st.value.etag != s.store(k).value.etag
    ensures Next(s, At(s, i, n), i, n, ResolveStartStep(k, keepLocal, s.store(k).value.etag))
    ensures n.tracksExec == s.machines[i].tracksExec && n.firstSync == s.machines[i].firstSync
    ensures n.phase == Resolving(k, keepLocal)
    ensures var side, o := s.machines[i].sides(k), s.store(k).value;
            n.sides(k) == Cleared(side).(fetched := Some(Remote(o.body, o.etag)), known := side.known + {o.etag})
    ensures forall j :: j != k ==> n.sides(j) == s.machines[i].sides(j)
  {
    var m, o := s.machines[i], s.store(k).value;
    n := WithSide(m, Resolving(k, keepLocal), k,
                  Cleared(m.sides(k)).(fetched := Some(Remote(o.body, o.etag)), known := m.sides(k).known + {o.etag}));
    hide SameContent;
  }

  // The base that goes with an entry of a structured file.
  function BaseOf(e: Option<Entry>): Option<seq<Item>> {
    if e.Some? && e.value.File? then Some(ItemsOf(e.value)) else None
  }

  lemma KeepsOwn(s: System, i: nat, k: Key) returns (t: System, n: Machine)
    requires i < |s.machines| && s.machines[i].phase == Resolving(k, true)
    requires var r := s.machines[i].sides(k).fetched;
             && r.Some? && r.value.etag != 0 && s.store(k).Some? && s.store(k).value.etag == r.value.etag
    ensures Next(s, t, i, n, ResolveKeepStep(k, s.next)) && n.tracksExec == s.machines[i].tracksExec
    ensures t.store(k).Some? && t.store(k).value.etag == s.next && t.structured == s.structured
    ensures n.sides(k).saved.Some? && n.sides(k).saved.value.etag == s.next
    ensures n.sides(k).disk == s.machines[i].sides(k).disk && |t.machines| == |s.machines| && t.machines[i] == n
    ensures s.structured(k) ==> n.sides(k).base == BaseOf(n.sides(k).disk)
  {
    var m := s.machines[i];
    var side, c := m.sides(k), SetupOf(s, m, k, false);
    var a := Settlement(side, true);
    var v := Uploaded(SavedView(side), a, s.next, c);
    var body := Payload(a, side.saved, c);
    n := WithSide(m, Idle, k, Cleared(side).(saved := v.st, live := v.st, base := v.base,
                                             known := side.known + {s.next}, synced := side.synced + {s.next}));
    var h := s.history(k) + [Written(s, i, k, body, a.ifMatch, true)];
    t := s.(machines := s.machines[i := n], store := j => if j == k then Some(Obj(body, s.next)) else s.store(j),
            history := j => if j == k then h else s.history(j), next := s.next + 1);
  }

  lemma TakesOther(s: System, i: nat, k: Key) returns (t: System, n: Machine)
    requires i < |s.machines| && s.machines[i].phase == Resolving(k, false) && s.machines[i].sides(k).fetched.Some?
    ensures Next(s, t, i, n, ResolveTakeStep(k)) && t == At(s, i, n) && n.tracksExec == s.machines[i].tracksExec
    ensures s.structured(k) && !(n.sides(k).disk.Some? && n.sides(k).disk.value.Link?) ==>
              n.sides(k).base == BaseOf(n.sides(k).disk)
  {
    var m := s.machines[i];
    var side := m.sides(k);
    var v := LocalStep(SavedView(side), Settlement(side, false), SetupOf(s, m, k, false));
    n := WithSide(m, Idle, k, Cleared(side).(disk := v.disk, saved := v.st, live := v.st, base := v.base,
                                             synced := side.synced + NamedETag(v.st)));
    t := At(s, i, n);
    hide Fingerprint;
  }

  // A side where settling has started on the version read from the store.
  ghost predicate SettlingOn(s: System, i: nat, k: Key, keepLocal: bool) {
    && i < |s.machines| && s.machines[i].phase == Resolving(k, keepLocal) && s.store(k).Some?
    && var r := s.machines[i].sides(k).fetched;
       r.Some? && r.value.etag != 0 && r.value == Remote(s.store(k).value.body, s.store(k).value.etag)
  }

  lemma KeepingSettles(s: System, i: nat, k: Key, adopt: bool) returns (t: System, n: Machine)
    requires Inv(s) && SettlingOn(s, i, k, true)
    ensures Next(s, t, i, n, ResolveKeepStep(k, s.next))
    ensures |t.machines| == |s.machines| && t.machines[i] == n && n.sides(k).disk == s.machines[i].sides(k).disk
    ensures s.structured(k) ==> n.sides(k).base == BaseOf(n.sides(k).disk)
    ensures Agrees(SavedView(n.sides(k)), t.store(k), SetupOf(t, n, k, adopt)) && Planning(t, i, k, adopt).None?
  {
    assert s.next > 0;
    t, n := KeepsOwn(s, i, k);
    ResolveKeepPublishes(s, t, i, n, k, s.next);
    hide Inv, Planning, SameContent, ResolveKeep, LocalUnchanged, Describes;
    SettledIsQuiet(t, i, k, adopt);
  }

  lemma TakingSettles(s: System, i: nat, k: Key, adopt: bool) returns (t: System, n: Machine)
    requires Inv(s) && SettlingOn(s, i, k, false)
    ensures Next(s, t, i, n, ResolveTakeStep(k))
    ensures |t.machines| == |s.machines| && t.machines[i] == n && t.store(k) == s.store(k)
    ensures s.structured(k) && !(n.sides(k).disk.Some? && n.sides(k).disk.value.Link?) ==>
              n.sides(k).base == BaseOf(n.sides(k).disk)
    ensures Agrees(SavedView(n.sides(k)), t.store(k), SetupOf(t, n, k, adopt)) && Planning(t, i, k, adopt).None?
  {
    t, n := TakesOther(s, i, k);
    ResolveTakeBrings(s, t, i, n, k);
    hide Inv, Planning, SameContent, ResolveTake, LocalUnchanged, Describes;
    SameIsUnchanged(n.sides(k), s.store(k).value.body, n.tracksExec);
    SettledIsQuiet(t, i, k, adopt);
  }

  // Every conflict a round would report can be settled, either way, in two
  // steps: this machine's version stays and is stored, or the stored one comes
  // here; then both hold the same, nothing is left to decide, and the base of
  // a structured file is what both hold, but for a link in its place.
  lemma ConflictIsSettled(s: System, i: nat, k: Key, keepLocal: bool, adopt: bool)
    returns (mid: Machine, t: System, n: Machine)
    requires Inv(s) && i < |s.machines| && s.machines[i].phase.Idle?
    requires Planning(s, i, k, adopt).Some? && Planning(s, i, k, adopt).value.kind == Conflict
    ensures s.store(k).Some?
    ensures Next(s, At(s, i, mid), i, mid, ResolveStartStep(k, keepLocal, s.store(k).value.etag))
    ensures Next(At(s, i, mid), t, i, n, if keepLocal then ResolveKeepStep(k, s.next) else ResolveTakeStep(k))
    ensures |t.machines| == |s.machines| && t.machines[i] == n
    ensures if keepLocal then n.sides(k).disk == s.machines[i].sides(k).disk else t.store(k) == s.store(k)
    ensures s.structured(k) && !(n.sides(k).disk.Some? && n.sides(k).disk.value.Link?) ==>
              n.sides(k).base == BaseOf(n.sides(k).disk)
    ensures Agrees(SavedView(n.sides(k)), t.store(k), SetupOf(t, n, k, adopt)) && Planning(t, i, k, adopt).None?
  {
    hide Inv, Planning, SameContent, Next, Agrees;
    ConflictDiffers(s, i, k, adopt);
    mid := StartsSettling(s, i, k, keepLocal);
    StepKeeps(s, At(s, i, mid), i, mid, ResolveStartStep(k, keepLocal, s.store(k).value.etag));
    if keepLocal {
      t, n := KeepingSettles(At(s, i, mid), i, k, adopt);
    } else {
      t, n := TakingSettles(At(s, i, mid), i, k, adopt);
    }
  }

  lemma ConflictDiffers(s: System, i: nat, k: Key, adopt: bool)
    requires Inv(s) && i < |s.machines| && Planning(s, i, k, adopt).Some?
    requires Planning(s, i, k, adopt).value.kind == Conflict
    ensures s.store(k).Some? && s.store(k).value.etag != 0
    ensures !SameContent(s.machines[i].sides(k).disk, s.store(k).value.body, s.machines[i].tracksExec)
    ensures var st := s.machines[i].sides(k).saved; st.Some? ==> st.value.etag != s.store(k).value.etag
  {
    var m := s.machines[i];
    AskedExactly(SavedView(m.sides(k)), s.store(k), SetupOf(s, m, k, adopt));
    ReachableIsSound(s, i, k, adopt);
    hide Inv, Planned, SameContent, LocalUnchanged, ValueOf;
  }

  lemma SameIsUnchanged(side: Side, body: Body, tracksExec: bool)
    requires SameContent(side.disk, body, tracksExec)
    requires side.saved.Some? && Describes(side.saved.value.snap, body, tracksExec)
    ensures LocalUnchanged(side.disk, side.saved, tracksExec)
  {
    hide Fingerprint;
  }

  lemma SettledIsQuiet(t: System, i: nat, k: Key, adopt: bool)
    requires i < |t.machines| && t.store(k).Some? && t.store(k).value.etag != 0
    requires var m := t.machines[i];
             var side := m.sides(k);
             && LocalUnchanged(side.disk, side.saved, m.tracksExec)
             && side.saved.Some? && side.saved.value.etag == t.store(k).value.etag
    ensures Planning(t, i, k, adopt).None?
  {
    var m := t.machines[i];
    NothingPlanned(SavedView(m.sides(k)), t.store(k), SetupOf(t, m, k, adopt));
    hide Planned, LocalUnchanged;
  }

  // ------------------------------------------------ what steps leave alone

  // A step changes one machine; the store only by a write or from outside; a
  // saved state only when a run ends or a conflict was settled; the base only
  // with what is synced; and nothing set aside is ever dropped.
  lemma StepsTouch(s: System, t: System, i: nat, n: Machine, step: Step, j: nat, k: Key)
    requires Next(s, t, i, n, step) && j < |s.machines|
    ensures |t.machines| == |s.machines| && (j != i ==> t.machines[j] == s.machines[j])
    ensures t.store(k) != s.store(k) ==>
              || step == VanishStep(k) || (step.PutStep? && step.k == k) || (step.ResolveKeepStep? && step.k == k)
    ensures var before, after := s.machines[j].sides(k), t.machines[j].sides(k);
            && (after.saved != before.saved ==>
                  step.FinishStep? || (step.ResolveKeepStep? && step.k == k) || (step.ResolveTakeStep? && step.k == k))
            && (after.base != before.base ==>
                  || step.ApplyLocalStep? || (step.PutStep? && step.k == k && step.acked)
                  || (step.ResolveKeepStep? && step.k == k) || (step.ResolveTakeStep? && step.k == k))
            && before.aside <= after.aside
  {
    hide PlanKey, Fingerprint, Payload, SameContent;
    if !step.VanishStep? && j == i { StepOnSide(s, t, i, n, step, k); }
  }

  lemma StepOnSide(s: System, t: System, i: nat, n: Machine, step: Step, k: Key)
    requires Next(s, t, i, n, step) && !step.VanishStep? && i < |s.machines|
    ensures var before, after := s.machines[i].sides(k), n.sides(k);
            && (after.saved != before.saved ==>
                  step.FinishStep? || (step.ResolveKeepStep? && step.k == k) || (step.ResolveTakeStep? && step.k == k))
            && (after.base != before.base ==>
                  || step.ApplyLocalStep? || (step.PutStep? && step.k == k && step.acked)
                  || (step.ResolveKeepStep? && step.k == k) || (step.ResolveTakeStep? && step.k == k))
            && before.aside <= after.aside
  {
    hide PlanKey, Fingerprint, Payload, SameContent, Uploaded;
  }

  // ------------------------------------------------------ where a run stops

  // What the run decides about key k when it has read what it needs.
  function Decided(s: System, i: nat, k: Key, adopt: bool): Option<Action>
    requires i < |s.machines|
    requires var side := s.machines[i].sides(k); Readable(side.listed, side.saved, side.fetched)
  {
    var m := s.machines[i];
    PlanKey(SavedView(m.sides(k)), m.sides(k).listed, m.sides(k).fetched, SetupOf(s, m, k, adopt))
  }

  // A run that stops after its local part leaves what the theorems on
  // interrupted runs start from: the key as it was, or its file written.
  lemma StopsAfterLocalPart(s: System, t: System, u: System, i: nat, n: Machine, n': Machine, k: Key, adopt: bool)
    requires Next(s, t, i, n, ApplyLocalStep(adopt)) && Next(t, u, i, n', CrashStep)
    requires var side := s.machines[i].sides(k); Readable(side.listed, side.saved, side.fetched)
    requires Decided(s, i, k, adopt).Some?
    requires var a := Decided(s, i, k, adopt).value; a.kind == Upload ==> a.local.Some?
    ensures var v, c, a := SavedView(s.machines[i].sides(k)), SetupOf(s, s.machines[i], k, adopt),
                           Decided(s, i, k, adopt).value;
            exists stage, baseSaved ::
              && (stage == Interruption.Untouched || stage == Interruption.DiskWritten)
              && Pair(SavedView(n'.sides(k)), u.store(k))
                 == Interruption.Interrupted(v, s.store(k), a, c, s.next, stage, baseSaved)
  {
    hide PlanKey, LocalStep, LocalPart, Interruption.Interrupted, Readable;
    var c, a := SetupOf(s, s.machines[i], k, adopt), Decided(s, i, k, adopt).value;
    var before, after := s.machines[i].sides(k), t.machines[i].sides(k);
    assert LocalPart(c, before, after) && n'.sides(k) == Cleared(after) && u.store(k) == s.store(k);
    var stage, baseSaved := LeftAfterLocalPart(c, before, after, a, s.store(k), s.next);
    hide Next;
    assert Pair(SavedView(n'.sides(k)), u.store(k))
           == Interruption.Interrupted(SavedView(before), s.store(k), a, c, s.next, stage, baseSaved);
  }

  lemma LeftAfterLocalPart(c: Setup, before: Side, after: Side, a: Action, obj: Option<Obj>, tag: ETag)
    returns (stage: Interruption.Stage, baseSaved: bool)
    requires LocalPart(c, before, after) && Readable(before.listed, before.saved, before.fetched)
    requires PlanKey(SavedView(before), before.listed, before.fetched, c) == Some(a)
    requires a.kind == Upload ==> a.local.Some?
    ensures stage == Interruption.Untouched || stage == Interruption.DiskWritten
    ensures Pair(SavedView(Cleared(after)), obj)
            == Interruption.Interrupted(SavedView(before), obj, a, c, tag, stage, baseSaved)
  {
    hide PlanKey, LocalStep;
    var v := SavedView(before);
    stage := if SavedView(Cleared(after)) == v then Interruption.Untouched else Interruption.DiskWritten;
    baseSaved := after.base == LocalStep(v, a, c).base;
  }

  // One that stops after its write was stored, acknowledged or not, leaves the
  // object written as well.
  lemma StopsAfterPut(s: System, t: System, u: System, w: System, i: nat, n: Machine, n': Machine, n'': Machine,
                      k: Key, adopt: bool, acked: bool, reported: ETag)
    requires Next(s, t, i, n, ApplyLocalStep(adopt)) && Next(t, u, i, n', PutStep(k, acked, reported))
    requires Next(u, w, i, n'', CrashStep)
    requires var side := s.machines[i].sides(k); Readable(side.listed, side.saved, side.fetched)
    ensures Decided(s, i, k, adopt).Some? && Uploads(Decided(s, i, k, adopt).value)
    ensures var v, c, a := SavedView(s.machines[i].sides(k)), SetupOf(s, s.machines[i], k, adopt),
                           Decided(s, i, k, adopt).value;
            && (a.kind == Upload ==> a.local.Some?)
            && exists baseSaved ::
                 && SavedView(n''.sides(k))
                    == Interruption.Interrupted(v, s.store(k), a, c, s.next, Interruption.Stored, baseSaved).v
                 && w.store(k)
                    == Interruption.Interrupted(v, s.store(k), a, c, s.next, Interruption.Stored, baseSaved).obj
  {
    hide PlanKey, LocalStep, Uploaded, Payload, LocalPart, Interruption.Interrupted, Readable;
    var v, c := SavedView(s.machines[i].sides(k)), SetupOf(s, s.machines[i], k, adopt);
    var before, after, put := s.machines[i].sides(k), t.machines[i].sides(k), u.machines[i].sides(k);
    assert LocalPart(c, before, after) && after.upload.Some?;
    AppliedForUpload(c, before, after);
    var a := Decided(s, i, k, adopt).value;
    PutLeaves(v, a, c, SetupOf(t, t.machines[i], k, false), reported, s.next);
    InterruptedIs(v, s.store(k), a, c, s.next, put.base != v.base);
    assert put.base == v.base || put.base == Uploaded(LocalStep(v, a, c), a, s.next, c).base;
    assert SavedView(n''.sides(k)) == SavedView(put) && put.saved == v.st;
    hide Next;
    assert SavedView(n''.sides(k))
           == Interruption.Interrupted(v, s.store(k), a, c, s.next, Interruption.Stored, put.base != v.base).v;
  }

  lemma AppliedForUpload(c: Setup, before: Side, after: Side)
    requires LocalPart(c, before, after) && after.upload.Some? && Readable(before.listed, before.saved, before.fetched)
    ensures PlanKey(SavedView(before), before.listed, before.fetched, c) == after.upload
    ensures var w := LocalStep(SavedView(before), after.upload.value, c);
            && after.disk == w.disk && after.live == w.st && after.aside == w.aside && after.saved == before.saved
            && (after.base == w.base || after.base == before.base)
  {
    hide PlanKey, LocalStep, Readable;
  }

  lemma InterruptedIs(v: View, obj: Option<Obj>, a: Action, c: Setup, tag: ETag, baseSaved: bool)
    requires Uploads(a) && (a.kind == Upload ==> a.local.Some?)
    ensures var w, p := LocalStep(v, a, c), Interruption.Interrupted(v, obj, a, c, tag, Interruption.Stored, baseSaved);
            && p.obj == Some(Obj(Payload(a, w.st, c), tag))
            && p.v == View(Uploaded(w, a, tag, c).disk, v.st, if baseSaved then Uploaded(w, a, tag, c).base else v.base,
                           Uploaded(w, a, tag, c).aside)
  {
    hide LocalStep, Uploaded, Payload;
  }

  // What a write stores does not depend on what it reports, and before it no
  // base was touched.
  lemma PutLeaves(v: View, a: Action, c: Setup, c': Setup, reported: ETag, tag: ETag)
    requires Uploads(a) && (a.kind == Upload ==> a.local.Some?)
    requires c'.structured == c.structured && c'.tracksExec == c.tracksExec
    ensures var w := LocalStep(v, a, c);
            && w.base == v.base
            && Payload(a, w.st, c') == Payload(a, w.st, c)
            && Uploaded(w, a, reported, c').base == Uploaded(w, a, tag, c).base
            && Uploaded(w, a, tag, c).disk == w.disk && Uploaded(w, a, tag, c).aside == w.aside
  {
    hide Fingerprint;
  }
}
