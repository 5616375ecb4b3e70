// internal/engine/plan.go, apply.go and structured.go, for one key: what a
// sync decides, and what each decision does to this machine and to the store.
module Plan {
  import opened Options
  import opened Structured

  // ETags are unique per write; 0 stands for one the backend did not report.
  type ETag = nat

  datatype Content = Blob(data: string) | Items(items: seq<Item>)

  // Content hashes compare files, item fingerprints compare structured files.
  datatype Print = BlobPrint(data: string) | ItemsPrint(pairs: multiset<(string, string)>)

  function Hash(c: Content): Print {
    match c
    case Blob(d) => BlobPrint(d)
    case Items(items) => ItemsPrint(Fingerprint(items))
  }

  datatype Entry = File(content: Content, exec: bool) | Link(target: string, isDir: bool)

  // What a stored object says.
  datatype Body = Tombstone | Live(entry: Entry)

  datatype Remote = Remote(body: Body, etag: ETag)

  // An entry as the last sync left it on both sides.
  datatype Snapshot = SnapTombstone | SnapFile(hash: Print, exec: bool) | SnapLink(target: string, isDir: bool)

  datatype EntryState = EntryState(etag: ETag, snap: Snapshot)

  datatype Kind = Download | RemoveLocal | Upload | UploadDelete | Record | Forget | Conflict | Pending | Merge

  datatype Action = Action(kind: Kind, local: Option<Entry>, remote: Option<Remote>, ifMatch: ETag,
                           keepLocalCopy: bool, merged: seq<Item>)

  // What a run knows about a key besides its contents: whether the key has a
  // structured format, whether the file system has an execute bit, and
  // whether a first sync may upload on its own.
  datatype Setup = Setup(structured: bool, tracksExec: bool, firstSync: bool, adoptLocal: bool)

  function NeedsFetch(info: ETag, s: Option<EntryState>): bool {
    s.None? || s.value.etag == 0 || s.value.etag != info
  }

  function LocalUnchanged(l: Option<Entry>, s: Option<EntryState>, tracksExec: bool): bool {
    if s.None? || s.value.snap.SnapTombstone? then l.None?
    else if l.None? then false
    else
      match (l.value, s.value.snap)
      case (Link(t, _), SnapLink(st, _)) => t == st
      case (File(c, x), SnapFile(h, sx)) => Hash(c) == h && (!tracksExec || x == sx)
      case _ => false
  }

  function RemoteUnchanged(info: Option<ETag>, s: Option<EntryState>): bool {
    if s.None? then info.None? else info.Some? && s.value.etag != 0 && info.value == s.value.etag
  }

  // The entry on disk and a stored body hold the same thing.
  function SameContent(l: Option<Entry>, r: Body, tracksExec: bool): bool {
    if l.None? then r.Tombstone?
    else
      match (l.value, r)
      case (Link(t, _), Live(Link(rt, _))) => t == rt
      case (File(c, x), Live(File(rc, rx))) => Hash(c) == Hash(rc) && (!tracksExec || x == rx)
      case _ => false
  }

  // decide reads the remote entry in every branch that looks at it because
  // the planner skips a key whose object it needed and could not read.
  ghost predicate Readable(info: Option<ETag>, s: Option<EntryState>, r: Option<Remote>) {
    info.Some? && NeedsFetch(info.value, s) ==> r.Some?
  }

  function Decide(l: Option<Entry>, info: Option<ETag>, s: Option<EntryState>, r: Option<Remote>,
                  c: Setup): Option<Action>
    requires Readable(info, s, r)
  {
    var localSame := LocalUnchanged(l, s, c.tracksExec);
    var remoteSame := RemoteUnchanged(info, s);
    var a := Action(Record, l, r, 0, false, []);
    if localSame && remoteSame then None
    else if localSame then
      if info.None? && s.value.snap.SnapTombstone? then Some(a.(kind := Forget))
      else if info.None? then Some(a.(kind := Upload))
      else if r.value.body.Tombstone? && l.None? then Some(a)
      else if r.value.body.Tombstone? then Some(a.(kind := RemoveLocal))
      else if SameContent(l, r.value.body, c.tracksExec) then Some(a)
      else Some(a.(kind := Download))
    else if remoteSame then
      if s.None? && c.firstSync && !c.adoptLocal then Some(a.(kind := Pending))
      else if s.None? then Some(a.(kind := Upload))
      else if l.None? then Some(a.(kind := UploadDelete, ifMatch := s.value.etag))
      else Some(a.(kind := Upload, ifMatch := s.value.etag))
    else if info.None? && l.None? then Some(a.(kind := Forget))
    else if info.None? then Some(a.(kind := Upload))
    else if SameContent(l, r.value.body, c.tracksExec) then Some(a)
    else if s.None? && r.value.body.Tombstone? then
      if c.firstSync && !c.adoptLocal then Some(a.(kind := Pending))
      else Some(a.(kind := Upload, ifMatch := r.value.etag))
    else if s.None? then Some(a.(kind := Download, keepLocalCopy := true))
    else if l.None? then Some(a.(kind := Download))
    else if r.value.body.Tombstone? then Some(a.(kind := Upload, ifMatch := r.value.etag))
    else Some(a.(kind := Conflict, ifMatch := r.value.etag))
  }

  // The items of a scanned entry; a link has no content, which parses as none.
  function ItemsOf(e: Entry): seq<Item> {
    if e.File? && e.content.Items? then e.content.items else []
  }

  function PrintOf(e: Entry): Option<Print> {
    if e.File? then Some(Hash(e.content)) else None
  }

  ghost predicate Mergeable(a: Action, structured: bool) {
    && structured && a.local.Some? && a.remote.Some? && a.remote.value.body.Live?
    && a.remote.value.body.entry.File?
    && (a.kind == Conflict || (a.kind == Download && a.keepLocalCopy))
  }

  // The merge of a structured file, where its changes touch different items.
  function MergeStructured(a: Action, structured: bool, base: seq<Item>): Action {
    if !structured || a.local.None? || a.remote.None? || a.remote.value.body.Tombstone? then a
    else if !a.remote.value.body.entry.File? then a
    else
      var firstSync := a.kind == Download && a.keepLocalCopy;
      if a.kind != Conflict && !firstSync then a
      else
        var local, remote := ItemsOf(a.local.value), ItemsOf(a.remote.value.body.entry);
        var b := if firstSync then [] else base;
        if Conflicts(b, local, remote, firstSync) != [] then a
        else
          Settle(a, Merged(b, local, remote, firstSync), firstSync)
  }

  // How a merge without conflicts is carried out.
  function Settle(a: Action, merged: seq<Item>, firstSync: bool): Action
    requires a.local.Some? && a.remote.Some? && a.remote.value.body.Live?
  {
    var says := Some(ItemsPrint(Fingerprint(merged)));
    if says == PrintOf(a.remote.value.body.entry) then
      a.(kind := Download, ifMatch := 0, keepLocalCopy := firstSync)
    else if says == PrintOf(a.local.value) then
      a.(kind := Upload, ifMatch := a.remote.value.etag, keepLocalCopy := firstSync)
    else
      a.(kind := Merge, ifMatch := a.remote.value.etag, merged := merged, keepLocalCopy := firstSync)
  }

  // Sync never deletes a structured file.
  function ProtectStructured(a: Action, structured: bool): Action {
    if !structured then a
    else if a.kind == UploadDelete then
      if a.remote.Some? && a.remote.value.body.Live? && a.remote.value.body.entry.File? then a.(kind := Download)
      else a.(kind := Forget)
    else if a.kind == RemoveLocal && a.local.Some? && a.remote.Some? then
      a.(kind := Upload, ifMatch := a.remote.value.etag)
    else a
  }

  // ------------------------------------------------------- what actions do

  // This machine's side of a key: the entry on disk, the state kept in
  // memory during a run, the base of a structured file, and every local
  // version ever set aside.
  datatype View = View(disk: Option<Entry>, st: Option<EntryState>, base: Option<seq<Item>>, aside: set<Entry>)

  function BaseItems(v: View): seq<Item> {
    if v.base.Some? then v.base.value else []
  }

  function PlanKey(v: View, info: Option<ETag>, r: Option<Remote>, c: Setup): Option<Action>
    requires Readable(info, v.st, r)
  {
    match Decide(v.disk, info, v.st, r, c)
    case None => None
    case Some(a) => Some(ProtectStructured(MergeStructured(a, c.structured, BaseItems(v)), c.structured))
  }

  function StateOf(e: Entry, etag: ETag): EntryState {
    match e
    case Link(t, d) => EntryState(etag, SnapLink(t, d))
    case File(c, x) => EntryState(etag, SnapFile(Hash(c), x))
  }

  function StructuredFile(e: Entry): bool {
    e.File? && e.content.Items?
  }

  // applyLocal for a download: the entry written, its state and base.
  function Downloaded(v: View, e: Entry, etag: ETag, c: Setup): View {
    match e
    case Link(_, _) => v.(disk := Some(e), st := Some(StateOf(e, etag)))
    case File(content, x) =>
      if c.structured then
        var items := ItemsOf(e);
        v.(disk := Some(File(Items(items), false)),
           st := Some(EntryState(etag, SnapFile(ItemsPrint(Fingerprint(items)), false))),
           base := Some(items))
      else
        // A file system without the bit reads it back as not set.
        v.(disk := Some(File(content, c.tracksExec && x)), st := Some(EntryState(etag, SnapFile(Hash(content), x))))
  }

  // What one action does on this machine before any upload.
  function LocalStep(v: View, a: Action, c: Setup): View {
    var aside := if a.keepLocalCopy && a.local.Some? then v.aside + {a.local.value} else v.aside;
    match a.kind
    case Download =>
      if a.remote.Some? && a.remote.value.body.Live? then
        Downloaded(v, a.remote.value.body.entry, a.remote.value.etag, c).(aside := aside)
      else v
    case Merge => v.(disk := Some(File(Items(a.merged), false)), aside := aside)
    case RemoveLocal =>
      if a.remote.Some? then
        v.(disk := None, base := None, st := Some(EntryState(a.remote.value.etag, SnapTombstone)))
      else v
    case Record =>
      var etag := if a.remote.Some? then a.remote.value.etag else 0;
      if a.local.None? then v.(base := None, st := Some(EntryState(etag, SnapTombstone)))
      else if StructuredFile(a.local.value) then
        v.(st := Some(StateOf(a.local.value, etag)), base := Some(a.local.value.content.items))
      else v.(st := Some(StateOf(a.local.value, etag)))
    case Forget => v.(st := None, base := None)
    case _ => v
  }

  predicate Uploads(a: Action) {
    a.kind == Upload || a.kind == UploadDelete || a.kind == Merge
  }

  function PrevExec(st: Option<EntryState>): bool {
    st.Some? && st.value.snap.SnapFile? && st.value.snap.exec
  }

  // The object an upload stores; prev is the state before the uploads.
  function Payload(a: Action, prev: Option<EntryState>, c: Setup): Body
    requires Uploads(a) && (a.kind == Upload ==> a.local.Some?)
  {
    if a.kind == UploadDelete then Tombstone
    else if a.kind == Merge then Live(File(Items(a.merged), false))
    else
      match a.local.value
      case Link(_, _) => Live(a.local.value)
      // Without an execute bit here, keep what was synced.
      case File(content, x) => Live(File(content, if c.tracksExec then x else PrevExec(prev)))
  }

  // This machine after its upload was stored and acknowledged with etag.
  function Uploaded(v: View, a: Action, etag: ETag, c: Setup): View
    requires Uploads(a) && (a.kind == Upload ==> a.local.Some?)
  {
    match Payload(a, v.st, c)
    case Tombstone => v.(st := Some(EntryState(etag, SnapTombstone)), base := if c.structured then None else v.base)
    case Live(e) =>
      v.(st := Some(StateOf(e, etag)),
         base := if !c.structured then v.base else if e.File? then Some(ItemsOf(e)) else None)
  }

  // -------------------------------------------------------- well-formedness

  // Structured keys hold items with distinct names and no execute bit, other
  // files hold bytes.
  ghost predicate WellFormedEntry(e: Entry, structured: bool) {
    match e
    case Link(_, _) => true
    case File(c, x) =>
      if structured then c.Items? && Distinct(c.items) && !x else c.Blob?
  }

  ghost predicate WellFormedBody(b: Body, structured: bool) {
    b.Live? ==> WellFormedEntry(b.entry, structured)
  }

  ghost predicate WellFormedView(v: View, c: Setup) {
    && (v.disk.Some? ==> WellFormedEntry(v.disk.value, c.structured))
    && (v.disk.Some? && v.disk.value.File? && !c.tracksExec ==> !v.disk.value.exec)
    && (v.base.Some? ==> Distinct(v.base.value))
  }

  lemma EmptyIsDistinct()
    ensures Distinct([])
  {
  }

  // The list a mergeable action would merge into.
  function MergeResult(a: Action, base: seq<Item>): seq<Item>
    requires a.local.Some? && a.remote.Some? && a.remote.value.body.Live?
  {
    var firstSync := a.kind == Download;
    Merged(if firstSync then [] else base, ItemsOf(a.local.value), ItemsOf(a.remote.value.body.entry), firstSync)
  }

  lemma SettleSays(a: Action, m: seq<Item>, firstSync: bool, structured: bool)
    requires structured && a.local.Some? && a.remote.Some? && a.remote.value.body.Live?
    requires a.remote.value.body.entry.File? && Distinct(m)
    requires WellFormedEntry(a.local.value, structured) && WellFormedBody(a.remote.value.body, structured)
    ensures var p := Settle(a, m, firstSync);
            && (p.kind == Download || p.kind == Upload || p.kind == Merge)
            && (p.kind == Download <==> SameValues(m, ItemsOf(a.remote.value.body.entry)))
            && (p.kind == Upload ==> a.local.value.File? && SameValues(m, ItemsOf(a.local.value)))
            && (p.kind == Merge ==> p.merged == m && (a.local.value.File? ==> !SameValues(m, ItemsOf(a.local.value))))
  {
    FingerprintIdentifies(m, ItemsOf(a.remote.value.body.entry));
    if a.local.value.File? { FingerprintIdentifies(m, ItemsOf(a.local.value)); }
  }

  // A merge that is carried out reports no conflict and gives every name the
  // value its three sides owe it.
  lemma MergePlanned(a: Action, structured: bool, base: seq<Item>)
    requires Mergeable(a, structured)
    requires WellFormedEntry(a.local.value, structured) && WellFormedBody(a.remote.value.body, structured)
    requires MergeStructured(a, structured, base) != a
    ensures var m := MergeResult(a, base);
            && MergeStructured(a, structured, base) == Settle(a, m, a.kind == Download)
            && Distinct(m)
            && Conflicts(if a.kind == Download then [] else base, ItemsOf(a.local.value),
                         ItemsOf(a.remote.value.body.entry), a.kind == Download) == []
  {
    EmptyIsDistinct();
    var b := if a.kind == Download then [] else base;
    MergeIsThreeWay(b, ItemsOf(a.local.value), ItemsOf(a.remote.value.body.entry), a.kind == Download);
  }

  // ------------------------------------------------ what a decision rests on

  // Every item that one side changed from the base is in the result as that
  // side left it.
  ghost predicate Absorbs(base: seq<Item>, side: seq<Item>, result: seq<Item>) {
    forall n :: ValueOf(side, n) != ValueOf(base, n) ==> ValueOf(result, n) == ValueOf(side, n)
  }

  ghost predicate DecisionRests(a: Action, l: Option<Entry>, info: Option<ETag>, s: Option<EntryState>,
                                r: Option<Remote>, c: Setup) {
    && a.local == l && a.remote == r && a.merged == []
    && (a.keepLocalCopy ==> a.kind == Download && s.None?)
    && match a.kind
       case Download => r.Some? && r.value.body.Live? && !SameContent(l, r.value.body, c.tracksExec)
                        && (l.None? || LocalUnchanged(l, s, c.tracksExec) || a.keepLocalCopy)
       case RemoveLocal => r.Some? && r.value.body.Tombstone? && l.Some? && LocalUnchanged(l, s, c.tracksExec)
       case Record => r.Some? && SameContent(l, r.value.body, c.tracksExec)
       case Forget => info.None? && l.None? && a.ifMatch == 0
       case Upload => l.Some?
                      && ((info.None? && a.ifMatch == 0)
                          || (RemoteUnchanged(info, s) && s.Some? && a.ifMatch == s.value.etag)
                          || (r.Some? && r.value.body.Tombstone? && a.ifMatch == r.value.etag
                              && !RemoteUnchanged(info, s)))
       case UploadDelete => l.None? && s.Some? && !s.value.snap.SnapTombstone? && RemoteUnchanged(info, s)
                            && a.ifMatch == s.value.etag
       case Conflict => l.Some? && s.Some? && r.Some? && r.value.body.Live? && a.ifMatch == r.value.etag
                        && !SameContent(l, r.value.body, c.tracksExec) && !RemoteUnchanged(info, s)
                        && !LocalUnchanged(l, s, c.tracksExec)
       case Pending => s.None? && l.Some? && (info.None? || (r.Some? && r.value.body.Tombstone?))
       case Merge => false
  }

  lemma DecideRests(l: Option<Entry>, info: Option<ETag>, s: Option<EntryState>, r: Option<Remote>, c: Setup)
    requires Readable(info, s, r)
    requires r.Some? ==> info.Some?
    ensures var d := Decide(l, info, s, r, c);
            d.Some? ==> DecisionRests(d.value, l, info, s, r, c)
  {
  }

  // What a planned action was merged against: nothing at a first sync, which
  // alone keeps a copy of the local version.
  function MergeBase(a: Action, v: View): seq<Item> {
    if a.keepLocalCopy then [] else BaseItems(v)
  }

  // What every planned action rests on: the reason its write, here or in the
  // store, destroys nothing.
  ghost predicate PlanRests(a: Action, v: View, info: Option<ETag>, r: Option<Remote>, c: Setup) {
    var l, s, base := v.disk, v.st, BaseItems(v);
    && a.local == l && a.remote == r
    && match a.kind
       case Download => r.Some? && r.value.body.Live?
                        && (l.None? || LocalUnchanged(l, s, c.tracksExec) || a.keepLocalCopy
                            || (c.structured && r.value.body.entry.File?
                                && Absorbs(base, ItemsOf(l.value), ItemsOf(r.value.body.entry))))
       case Merge => c.structured && l.Some? && r.Some? && r.value.body.Live? && r.value.body.entry.File?
                     && Distinct(a.merged) && a.ifMatch == r.value.etag
                     && !SameValues(a.merged, ItemsOf(r.value.body.entry))
                     && (a.keepLocalCopy || Absorbs(base, ItemsOf(l.value), a.merged))
                     && Absorbs(MergeBase(a, v), ItemsOf(r.value.body.entry), a.merged)
       case RemoveLocal => !c.structured && r.Some? && r.value.body.Tombstone? && l.Some?
                           && LocalUnchanged(l, s, c.tracksExec)
       case Record => r.Some? && SameContent(l, r.value.body, c.tracksExec)
       case Forget => l.None?
                      && (info.None?
                          || (c.structured && RemoteUnchanged(info, s)
                              && !(r.Some? && r.value.body.Live? && r.value.body.entry.File?)
                              && !s.value.snap.SnapTombstone?))
       case Upload => l.Some?
                      && ((info.None? && a.ifMatch == 0)
                          || (RemoteUnchanged(info, s) && s.Some? && a.ifMatch == s.value.etag)
                          || (r.Some? && a.ifMatch == r.value.etag
                              && (r.value.body.Tombstone?
                                  || (c.structured && r.value.body.entry.File? && l.value.File?
                                      && Absorbs(MergeBase(a, v), ItemsOf(r.value.body.entry), ItemsOf(l.value))))))
       case UploadDelete => !c.structured && l.None? && RemoteUnchanged(info, s) && s.Some?
                            && a.ifMatch == s.value.etag && !s.value.snap.SnapTombstone?
       case Conflict => l.Some? && s.Some? && r.Some? && r.value.body.Live?
       case Pending => s.None? && l.Some? && (info.None? || (r.Some? && r.value.body.Tombstone?))
  }

  lemma PlanKeyBasics(v: View, info: Option<ETag>, r: Option<Remote>, c: Setup)
    requires Readable(info, v.st, r) && (r.Some? ==> info.Some?)
    ensures var a := PlanKey(v, info, r, c);
            a.Some? ==> a.value.local == v.disk && a.value.remote == r && (a.value.kind == Upload ==> v.disk.Some?)
  {
    hide Structured.Merged, Structured.Conflicts, Structured.Fingerprint, Decide;
    DecideRests(v.disk, info, v.st, r, c);
  }

  lemma MergeAbsorbs(base: seq<Item>, local: seq<Item>, remote: seq<Item>, p: bool)
    requires Distinct(local) && Distinct(remote)
    requires Conflicts(base, local, remote, p) == []
    requires p ==> base == []
    ensures var m := Merged(base, local, remote, p);
            Absorbs(base, remote, m) && (!p ==> Absorbs(base, local, m))
  {
    NoConflictsMeans(base, local, remote, p);
    MergeIsThreeWay(base, local, remote, p);
  }

  lemma MergedPlanRests(d: Action, v: View, info: Option<ETag>, r: Option<Remote>, c: Setup)
    requires Mergeable(d, c.structured) && d.local == v.disk && d.remote == r && d.merged == []
    requires d.kind == Conflict ==> !d.keepLocalCopy
    requires WellFormedView(v, c) && WellFormedBody(r.value.body, c.structured)
    requires MergeStructured(d, c.structured, BaseItems(v)) != d
    ensures PlanRests(MergeStructured(d, c.structured, BaseItems(v)), v, info, r, c)
    ensures MergeStructured(d, c.structured, BaseItems(v)).kind in {Download, Upload, Merge}
  {
    hide Structured.Merged, Structured.Conflicts, Structured.Fingerprint;
    var base := BaseItems(v);
    MergePlanned(d, c.structured, base);
    var m := MergeResult(d, base);
    EmptyIsDistinct();
    MergeAbsorbs(if d.kind == Download then [] else base, ItemsOf(v.disk.value), ItemsOf(r.value.body.entry),
                 d.kind == Download);
    SettleSays(d, m, d.kind == Download, c.structured);
  }

  lemma PlanKeyRests(v: View, info: Option<ETag>, r: Option<Remote>, c: Setup)
    requires Readable(info, v.st, r) && (r.Some? ==> info.Some?)
    requires WellFormedView(v, c) && (r.Some? ==> WellFormedBody(r.value.body, c.structured))
    ensures var a := PlanKey(v, info, r, c);
            a.Some? ==> PlanRests(a.value, v, info, r, c)
  {
    hide Structured.Merged, Structured.Conflicts, Structured.Fingerprint, Structured.ValueOf, Decide;
    DecideRests(v.disk, info, v.st, r, c);
    var d := Decide(v.disk, info, v.st, r, c);
    if d.Some? && Mergeable(d.value, c.structured) && MergeStructured(d.value, c.structured, BaseItems(v)) != d.value {
      MergedPlanRests(d.value, v, info, r, c);
    }
  }
}
