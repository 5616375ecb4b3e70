// internal/storage/memstore/memstore.go and internal/engine (engine.go,
// apply.go, state.go): the conditional store and one machine's engine as the
// objects they are. A round with nobody else writing is proved to do, for
// every key, what Round.RoundKey says.
module Engine {
  import opened Options
  import opened Structured
  import opened Plan
  import opened Round
  import opened Outcomes

  type Key = string

  // An empty ETag and false ask for an unconditional write.
  datatype Precondition = Precondition(ifMatch: ETag, ifNoneMatch: bool)

  datatype StoreError = PreconditionFailed | NotFound

  // The object store: every write gets an ETag of its own.
  class MemStore {
    var objects: map<Key, Obj>
    var next: ETag

    ghost predicate Valid()
      reads this
    {
      next > 0 && forall k :: k in objects ==> 0 < objects[k].etag < next
    }

    constructor ()
      ensures Valid() && objects == map[]
    {
      objects, next := map[], 1;
    }

    method Put(key: Key, body: Body, pre: Precondition) returns (r: Result<ETag, StoreError>)
      requires Valid()
      modifies this
      ensures Valid()
      ensures var cur := old(Lookup(objects, key));
              r.Err? <==> (pre.ifNoneMatch && cur.Some?)
                          || (pre.ifMatch != 0 && (cur.None? || cur.value.etag != pre.ifMatch))
      ensures r.Err? ==> r.error == PreconditionFailed && objects == old(objects) && next == old(next)
      ensures r.Ok? ==> objects == old(objects)[key := Obj(body, r.value)] && r.value == old(next) < next
    {
      if pre.ifNoneMatch && key in objects { return Err(PreconditionFailed); }
      if pre.ifMatch != 0 && (key !in objects || objects[key].etag != pre.ifMatch) { return Err(PreconditionFailed); }
      r := Ok(next);
      objects := objects[key := Obj(body, next)];
      next := next + 1;
    }

    method Get(key: Key) returns (r: Result<Obj, StoreError>)
      ensures key in objects ==> r == Ok(objects[key])
      ensures key !in objects ==> r == Err(NotFound)
    {
      r := if key in objects then Ok(objects[key]) else Err(NotFound);
    }

    method List(prefix: string) returns (listing: map<Key, ETag>)
      ensures forall k :: k in listing <==> k in objects && prefix <= k
      ensures forall k :: k in listing ==> listing[k] == objects[k].etag
    {
      listing := map k | k in objects && prefix <= k :: objects[k].etag;
    }
  }

  datatype Mode = Both | PullOnly | PushOnly

  datatype RunOptions = RunOptions(mode: Mode, adoptLocal: bool)

  predicate Allowed(mode: Mode, kind: Kind) {
    match mode
    case Both => true
    case PullOnly => kind !in {Upload, UploadDelete, Pending, Merge}
    case PushOnly => kind !in {Download, RemoveLocal, Conflict, Merge}
  }

  function With<V>(m: map<Key, V>, k: Key, v: Option<V>): map<Key, V> {
    if v.Some? then m[k := v.value] else m - {k}
  }

  // What a round means for one key: the plan, unless the direction of the run
  // leaves it out, carried out on both sides.
  function KeyAfter(v: View, obj: Option<Obj>, c: Setup, mode: Mode, tag: ETag): Pair {
    var plan := Planned(v, obj, c);
    if plan.Some? && !Allowed(mode, plan.value.kind) then Pair(v, obj) else RoundKey(v, obj, c, tag, tag)
  }

  class Machine {
    const structured: set<Key>
    const tracksExec: bool
    var disk: map<Key, Entry>
    var entries: map<Key, EntryState>
    var base: map<Key, seq<Item>>
    var aside: map<Key, set<Entry>>
    var settled: Option<bool>

    constructor (structured: set<Key>, tracksExec: bool, disk: map<Key, Entry>)
      ensures this.structured == structured && this.tracksExec == tracksExec && this.disk == disk
      ensures entries == map[] && base == map[] && aside == map[] && settled == Some(false)
    {
      this.structured, this.tracksExec, this.disk := structured, tracksExec, disk;
      entries, base, aside, settled := map[], map[], map[], Some(false);
    }

    // State files written before the field existed decide by their entries.
    predicate FirstSync()
      reads this
    {
      if settled.None? then entries == map[] else !settled.value
    }

    function SetupFor(k: Key, firstSync: bool, opts: RunOptions): Setup {
      Setup(k in structured, tracksExec, firstSync, opts.adoptLocal)
    }

    function ViewAt(k: Key): View
      reads this
    {
      View(Lookup(disk, k), Lookup(entries, k), Lookup(base, k), if k in aside then aside[k] else {})
    }

    method SetView(k: Key, v: View)
      modifies this`disk, this`entries, this`base, this`aside
      ensures ViewAt(k) == v && forall j :: j != k ==> ViewAt(j) == old(ViewAt(j))
      ensures old(entries).Keys - {k} <= entries.Keys <= old(entries).Keys + {k}
    {
      disk := With(disk, k, v.disk);
      entries := With(entries, k, v.st);
      base := With(base, k, v.base);
      aside := aside[k := v.aside];
    }

    // fetch: read every listed object a decision depends on.
    method FetchAll(store: MemStore, listing: map<Key, ETag>, firstSync: bool, opts: RunOptions)
      returns (fetched: map<Key, Remote>)
      requires listing.Keys == store.objects.Keys && forall k :: k in listing ==> listing[k] == store.objects[k].etag
      ensures forall k ::
                Lookup(fetched, k) == Fetched(ViewAt(k), Lookup(store.objects, k), SetupFor(k, firstSync, opts))
    {
      fetched := map[];
      var todo := listing.Keys;
      while todo != {}
        invariant todo <= listing.Keys
        invariant forall k :: Lookup(fetched, k)
                              == if k in todo then None
                                 else Fetched(ViewAt(k), Lookup(store.objects, k), SetupFor(k, firstSync, opts))
        decreases |todo|
      {
        var key :| key in todo;
        todo := todo - {key};
        var c := SetupFor(key, firstSync, opts);
        if NeedsFetch(listing[key], Lookup(entries, key)) || StructuredGone(ViewAt(key), c) {
          var o := store.Get(key);
          if o.Ok? { fetched := fetched[key := Remote(o.value.body, o.value.etag)]; }
        }
      }
    }

    // The action of one key, if the direction of the run allows it.
    function DecidedFor(k: Key, listing: map<Key, ETag>, fetched: map<Key, Remote>, firstSync: bool,
                        opts: RunOptions): Option<Action>
      requires Readable(Lookup(listing, k), Lookup(entries, k), Lookup(fetched, k))
      reads this
    {
      var plan := PlanKey(ViewAt(k), Lookup(listing, k), Lookup(fetched, k), SetupFor(k, firstSync, opts));
      if plan.Some? && !Allowed(opts.mode, plan.value.kind) then None else plan
    }

    // plan: decide every key of the disk, the listing and the state.
    method PlanAll(listing: map<Key, ETag>, fetched: map<Key, Remote>, firstSync: bool, opts: RunOptions)
      returns (actions: map<Key, Action>)
      requires forall k :: Readable(Lookup(listing, k), Lookup(entries, k), Lookup(fetched, k))
      ensures forall k :: Lookup(actions, k) == DecidedFor(k, listing, fetched, firstSync, opts)
    {
      var keys := disk.Keys + listing.Keys + entries.Keys;
      forall k | k !in keys ensures DecidedFor(k, listing, fetched, firstSync, opts).None? {
        AbsentKey(ViewAt(k), Lookup(fetched, k), SetupFor(k, firstSync, opts));
      }
      hide DecidedFor, ViewAt, Readable;
      actions := map[];
      var todo := keys;
      while todo != {}
        invariant todo <= keys
        invariant forall k :: k !in todo ==> Lookup(actions, k) == DecidedFor(k, listing, fetched, firstSync, opts)
        invariant forall k :: k in todo ==> k !in actions
        decreases |todo|
      {
        var key :| key in todo;
        todo := todo - {key};
        var a := DecidedFor(key, listing, fetched, firstSync, opts);
        if a.Some? { actions := actions[key := a.value]; }
      }
    }

    // apply, first part: the changes on this machine.
    method ApplyAll(actions: map<Key, Action>, firstSync: bool, opts: RunOptions)
      modifies this`disk, this`entries, this`base, this`aside
      ensures forall k ::
                ViewAt(k) == if k in actions then LocalStep(old(ViewAt(k)), actions[k], SetupFor(k, firstSync, opts))
                             else old(ViewAt(k))
    {
      hide Plan.LocalStep;
      var todo := actions.Keys;
      while todo != {}
        invariant todo <= actions.Keys
        invariant forall k ::
                    ViewAt(k) == if k in actions && k !in todo
                                 then LocalStep(old(ViewAt(k)), actions[k], SetupFor(k, firstSync, opts))
                                 else old(ViewAt(k))
        decreases |todo|
      {
        var key :| key in todo;
        todo := todo - {key};
        SetView(key, LocalStep(ViewAt(key), actions[key], SetupFor(key, firstSync, opts)));
      }
    }

    // uploadAll: conditional writes; one that finds the object changed is a
    // lost race.
    method UploadAll(store: MemStore, actions: map<Key, Action>, firstSync: bool, opts: RunOptions)
      returns (retry: bool)
      requires store.Valid()
      requires forall k :: k in actions ==> (actions[k].kind == Upload ==> actions[k].local.Some?)
      modifies this`disk, this`entries, this`base, this`aside, store
      ensures store.Valid() && old(store.next) <= store.next
      ensures forall k :: UploadDone(old(ViewAt(k)), old(Lookup(store.objects, k)), ViewAt(k), Lookup(store.objects, k),
                                     Lookup(actions, k), SetupFor(k, firstSync, opts), old(store.next))
      ensures retry <==> exists k :: k in actions && Uploads(actions[k])
                                     && !PutAllowed(old(Lookup(store.objects, k)), actions[k].ifMatch)
    {
      hide Plan.Payload, Plan.Uploaded, ViewAt, UploadDone;
      retry := false;
      var todo := actions.Keys;
      forall k | k !in actions {
        NoUpload(ViewAt(k), Lookup(store.objects, k), SetupFor(k, firstSync, opts), store.next);
      }
      while todo != {}
        invariant todo <= actions.Keys && store.Valid() && old(store.next) <= store.next
        invariant forall k :: k in todo ==>
                    ViewAt(k) == old(ViewAt(k)) && Lookup(store.objects, k) == old(Lookup(store.objects, k))
        invariant forall k :: k !in todo ==>
                    UploadDone(old(ViewAt(k)), old(Lookup(store.objects, k)), ViewAt(k), Lookup(store.objects, k),
                               Lookup(actions, k), SetupFor(k, firstSync, opts), old(store.next))
        invariant retry <==> exists k :: k in actions && k !in todo && Uploads(actions[k])
                                         && !PutAllowed(old(Lookup(store.objects, k)), actions[k].ifMatch)
        decreases |todo|
      {
        var key :| key in todo;
        todo := todo - {key};
        retry := UploadOne(store, key, actions[key], SetupFor(key, firstSync, opts), retry, old(store.next));
      }
    }

    // upload: one conditional write, and the state it leaves.
    method UploadOne(store: MemStore, key: Key, a: Action, c: Setup, retried: bool, ghost next: ETag)
      returns (retry: bool)
      requires store.Valid() && next <= store.next && (a.kind == Upload ==> a.local.Some?)
      modifies this`disk, this`entries, this`base, this`aside, store
      ensures store.Valid() && old(store.next) <= store.next
      ensures UploadDone(old(ViewAt(key)), old(Lookup(store.objects, key)), ViewAt(key), Lookup(store.objects, key),
                         Some(a), c, next)
      ensures forall k :: k != key ==>
                ViewAt(k) == old(ViewAt(k)) && Lookup(store.objects, k) == old(Lookup(store.objects, k))
      ensures retry == (retried || (Uploads(a) && !PutAllowed(old(Lookup(store.objects, key)), a.ifMatch)))
    {
      hide Plan.Payload, Plan.Uploaded;
      retry := retried;
      if Uploads(a) {
        var r := store.Put(key, Payload(a, Lookup(entries, key), c), Precondition(a.ifMatch, a.ifMatch == 0));
        if r.Ok? {
          SetView(key, Uploaded(ViewAt(key), a, r.value, c));
        } else {
          retry := true;
        }
      }
    }

    // The scan, the listing, the reads and the decisions of a round. The scan
    // and the store's answers are one moment: nobody else writes.
    method PlanRound(store: MemStore, firstSync: bool, opts: RunOptions)
      returns (actions: map<Key, Action>, pending: set<Key>, conflicts: set<Key>)
      ensures forall k :: Lookup(actions, k) == Chosen(ViewAt(k), Lookup(store.objects, k),
                                                       SetupFor(k, firstSync, opts), opts.mode)
      ensures forall k :: k in actions && actions[k].kind == Upload ==> actions[k].local.Some?
      ensures forall k ::
                k in pending
                <==> Waiting(Chosen(ViewAt(k), Lookup(store.objects, k), SetupFor(k, firstSync, opts), opts.mode))
      ensures forall k ::
                k in conflicts
                <==> Clashing(Chosen(ViewAt(k), Lookup(store.objects, k), SetupFor(k, firstSync, opts), opts.mode))
    {
      hide Plan.PlanKey, ViewAt, DecidedFor, Readable, Fetched, Chosen;
      // Keys are named without the prefix all entries have in the store.
      var listing := store.List("");
      var fetched := FetchAll(store, listing, firstSync, opts);
      forall k ensures Readable(Lookup(listing, k), Lookup(entries, k), Lookup(fetched, k)) {
        ReadableAt(store, k, listing, fetched, firstSync, opts);
      }
      actions := PlanAll(listing, fetched, firstSync, opts);
      forall k ensures Lookup(actions, k) == Chosen(ViewAt(k), Lookup(store.objects, k),
                                                    SetupFor(k, firstSync, opts), opts.mode) {
        DecidedIsPlanned(store, k, listing, fetched, firstSync, opts);
      }
      forall k | k in actions ensures actions[k].kind == Upload ==> actions[k].local.Some? {
        assert Lookup(actions, k) == Some(actions[k]);
        ChosenHasLocal(ViewAt(k), Lookup(store.objects, k), SetupFor(k, firstSync, opts), opts.mode);
      }
      pending := set k | k in actions && actions[k].kind == Pending;
      conflicts := set k | k in actions && actions[k].kind == Conflict;
      forall k
        ensures k in pending <==> Waiting(Lookup(actions, k))
        ensures k in conflicts <==> Clashing(Lookup(actions, k))
      {
      }
    }

    // Every key is sound, and the state names no ETag the store did not give
    // out.
    ghost predicate InOrder(store: MemStore)
      reads this, store
    {
      store.next > 0 &&
      forall k :: KeyInOrder(ViewAt(k), Lookup(store.objects, k), SetupFor(k, false, RunOptions(Both, false)),
                             store.next)
    }

    // One round, from the scan to the saved state.
    method OneRound(store: MemStore, opts: RunOptions)
      returns (retry: bool, pending: set<Key>, conflicts: set<Key>)
      requires store.Valid()
      modifies this, store
      ensures store.Valid() && old(store.next) <= store.next
      ensures forall k :: SyncDone(old(ViewAt(k)), old(Lookup(store.objects, k)), ViewAt(k), Lookup(store.objects, k),
                                   SetupFor(k, old(FirstSync()), opts), opts.mode, old(store.next))
      ensures forall k :: Lookup(store.objects, k) != old(Lookup(store.objects, k)) ==>
                            k in store.objects && old(store.next) <= store.objects[k].etag
      ensures retry <==> exists k ::
                Refused(Chosen(old(ViewAt(k)), old(Lookup(store.objects, k)), SetupFor(k, old(FirstSync()), opts),
                               opts.mode), old(Lookup(store.objects, k)))
      ensures old(InOrder(store)) ==>
                && !retry && InOrder(store)
                && forall k :: KeySettled(old(ViewAt(k)), old(Lookup(store.objects, k)), ViewAt(k),
                                          Lookup(store.objects, k), SetupFor(k, old(FirstSync()), opts), opts.mode,
                                          store.next)
      ensures settled == if pending == {} && opts.mode != PullOnly then Some(true) else old(settled)
      ensures forall k ::
                k in pending
                <==> Waiting(Chosen(old(ViewAt(k)), old(Lookup(store.objects, k)), SetupFor(k, old(FirstSync()), opts),
                                    opts.mode))
      ensures forall k ::
                k in conflicts
                <==> Clashing(Chosen(old(ViewAt(k)), old(Lookup(store.objects, k)), SetupFor(k, old(FirstSync()), opts),
                                     opts.mode))
    {
      var firstSync := FirstSync();
      hide Plan.LocalStep, ViewAt, UploadDone, SyncDone, FirstSync, Chosen, KeySettled, KeyInOrder;
      var actions;
      actions, pending, conflicts := PlanRound(store, firstSync, opts);
      ApplyAll(actions, firstSync, opts);
      retry := UploadAll(store, actions, firstSync, opts);
      forall k
        ensures SyncDone(old(ViewAt(k)), old(Lookup(store.objects, k)), ViewAt(k), Lookup(store.objects, k),
                         SetupFor(k, firstSync, opts), opts.mode, old(store.next))
        ensures Lookup(store.objects, k) != old(Lookup(store.objects, k)) ==>
                  k in store.objects && old(store.next) <= store.objects[k].etag
      {
        KeyComposed(old(ViewAt(k)), old(Lookup(store.objects, k)), ViewAt(k), Lookup(store.objects, k),
                    Lookup(actions, k), SetupFor(k, firstSync, opts), opts.mode, old(store.next));
        UnwrittenStays(old(ViewAt(k)), old(Lookup(store.objects, k)), ViewAt(k), Lookup(store.objects, k),
                       SetupFor(k, firstSync, opts), opts.mode, old(store.next));
      }
      if old(InOrder(store)) {
        forall k
          ensures KeySettled(old(ViewAt(k)), old(Lookup(store.objects, k)), ViewAt(k), Lookup(store.objects, k),
                             SetupFor(k, firstSync, opts), opts.mode, store.next)
          ensures KeyInOrder(ViewAt(k), Lookup(store.objects, k), SetupFor(k, false, RunOptions(Both, false)),
                             store.next)
          ensures !Refused(Chosen(old(ViewAt(k)), old(Lookup(store.objects, k)), SetupFor(k, firstSync, opts),
                                  opts.mode), old(Lookup(store.objects, k)))
        {
          KeyRound(old(ViewAt(k)), old(Lookup(store.objects, k)), ViewAt(k), Lookup(store.objects, k),
                   SetupFor(k, firstSync, opts), SetupFor(k, false, RunOptions(Both, false)), opts.mode,
                   old(store.next), store.next);
        }
      }
      if pending == {} && opts.mode != PullOnly { MarkSettled(); }
    }

    // What a round comes to. From a machine in order it loses no race and
    // leaves it in order; in both directions it brings every key nobody was
    // asked about in step.
    method Sync(store: MemStore, opts: RunOptions)
      returns (retry: bool, pending: set<Key>, conflicts: set<Key>)
      requires store.Valid()
      modifies this, store
      ensures store.Valid() && old(store.next) <= store.next
      ensures forall k ::
                SyncDone(old(ViewAt(k)), old(Lookup(store.objects, k)), ViewAt(k), Lookup(store.objects, k),
                         Setup(k in structured, tracksExec, old(FirstSync()), opts.adoptLocal), opts.mode,
                         old(store.next))
      ensures forall k :: Lookup(store.objects, k) != old(Lookup(store.objects, k)) ==>
                            k in store.objects && old(store.next) <= store.objects[k].etag
      ensures retry <==> exists k ::
                Refused(Chosen(old(ViewAt(k)), old(Lookup(store.objects, k)),
                               Setup(k in structured, tracksExec, old(FirstSync()), opts.adoptLocal), opts.mode),
                        old(Lookup(store.objects, k)))
      ensures old(InOrder(store)) ==>
                && !retry && InOrder(store)
                && forall k ::
                     KeySettled(old(ViewAt(k)), old(Lookup(store.objects, k)), ViewAt(k), Lookup(store.objects, k),
                                Setup(k in structured, tracksExec, old(FirstSync()), opts.adoptLocal), opts.mode,
                                store.next)
      // It waits for the user exactly at a first sync that may not upload and
      // does not only pull, where something here was never synced or stored.
      ensures forall k ::
                k in pending
                <==> && opts.mode != PullOnly && !opts.adoptLocal
                     && old(settled == Some(false) || (settled.None? && entries == map[]))
                     && k in old(disk) && k !in old(entries)
                     && (k in old(store.objects) ==> old(store.objects)[k].body.Tombstone?)
      // It reports the conflicts there are, unless it only pushes.
      ensures forall k ::
                k in conflicts
                <==> && opts.mode != PushOnly
                     && Disputed(View(old(Lookup(disk, k)), old(Lookup(entries, k)), old(Lookup(base, k)), {}),
                                 old(Lookup(store.objects, k)),
                                 Setup(k in structured, tracksExec, false, opts.adoptLocal))
      ensures settled == if pending == {} && opts.mode != PullOnly then Some(true) else old(settled)
      ensures opts.mode == PullOnly ==> store.objects == old(store.objects)
      ensures opts.mode == PushOnly ==> disk == old(disk)
    {
      ghost var firstSync := FirstSync();
      assert firstSync == (settled == Some(false) || (settled.None? && entries == map[]));
      retry, pending, conflicts := OneRound(store, opts);
      hide ViewAt, SyncDone, FirstSync, Chosen, KeySettled, KeyInOrder, InOrder, Waiting, Clashing, Refused, Disputed;
      forall k
        ensures Waiting(Chosen(old(ViewAt(k)), old(Lookup(store.objects, k)), SetupFor(k, firstSync, opts), opts.mode))
                <==> && opts.mode != PullOnly && !opts.adoptLocal && firstSync
                     && k in old(disk) && k !in old(entries)
                     && (k in old(store.objects) ==> old(store.objects)[k].body.Tombstone?)
        ensures Clashing(Chosen(old(ViewAt(k)), old(Lookup(store.objects, k)), SetupFor(k, firstSync, opts), opts.mode))
                <==> && opts.mode != PushOnly
                     && Disputed(View(old(Lookup(disk, k)), old(Lookup(entries, k)), old(Lookup(base, k)), {}),
                                 old(Lookup(store.objects, k)),
                                 Setup(k in structured, tracksExec, false, opts.adoptLocal))
        ensures opts.mode == PullOnly ==> Lookup(store.objects, k) == old(Lookup(store.objects, k))
        ensures opts.mode == PushOnly ==> Lookup(disk, k) == old(Lookup(disk, k))
      {
        WaitsExactly(old(ViewAt(k)), old(Lookup(store.objects, k)), SetupFor(k, firstSync, opts), opts.mode);
        OneWay(old(ViewAt(k)), old(Lookup(store.objects, k)), ViewAt(k), Lookup(store.objects, k),
               SetupFor(k, firstSync, opts), opts.mode, old(store.next));
        OldViewIs(k);
        ClashesExactly(old(ViewAt(k)), old(Lookup(store.objects, k)), SetupFor(k, firstSync, opts), opts.mode,
                       View(old(Lookup(disk, k)), old(Lookup(entries, k)), old(Lookup(base, k)), {}),
                       Setup(k in structured, tracksExec, false, opts.adoptLocal));
        ViewIs(k);
      }
      if opts.mode == PullOnly { SameLookups(store.objects, old(store.objects)); }
      if opts.mode == PushOnly { SameLookups(disk, old(disk)); }
    }

    lemma ViewIs(k: Key)
      ensures ViewAt(k).disk == Lookup(disk, k) && ViewAt(k).st == Lookup(entries, k)
    {
    }

    twostate lemma OldViewIs(k: Key)
      ensures old(ViewAt(k)).disk == old(Lookup(disk, k)) && old(ViewAt(k)).st == old(Lookup(entries, k))
      ensures old(ViewAt(k)).base == old(Lookup(base, k))
    {
    }

    method MarkSettled()
      modifies this`settled
      ensures settled == Some(true) && disk == old(disk)
      ensures forall k :: ViewAt(k) == old(ViewAt(k))
    {
      settled := Some(true);
    }

    lemma ReadableAt(store: MemStore, k: Key, listing: map<Key, ETag>, fetched: map<Key, Remote>, firstSync: bool,
                     opts: RunOptions)
      requires listing.Keys == store.objects.Keys && forall j :: j in listing ==> listing[j] == store.objects[j].etag
      requires Lookup(fetched, k) == Fetched(ViewAt(k), Lookup(store.objects, k), SetupFor(k, firstSync, opts))
      ensures Readable(Lookup(listing, k), Lookup(entries, k), Lookup(fetched, k))
      ensures Lookup(listing, k) == InfoOf(Lookup(store.objects, k))
    {
    }

    lemma DecidedIsPlanned(store: MemStore, k: Key, listing: map<Key, ETag>, fetched: map<Key, Remote>,
                           firstSync: bool, opts: RunOptions)
      requires listing.Keys == store.objects.Keys && forall j :: j in listing ==> listing[j] == store.objects[j].etag
      requires Lookup(fetched, k) == Fetched(ViewAt(k), Lookup(store.objects, k), SetupFor(k, firstSync, opts))
      requires Readable(Lookup(listing, k), Lookup(entries, k), Lookup(fetched, k))
      ensures DecidedFor(k, listing, fetched, firstSync, opts)
              == Chosen(ViewAt(k), Lookup(store.objects, k), SetupFor(k, firstSync, opts), opts.mode)
    {
      hide Plan.PlanKey;
    }
  }

  // The planned action of a key, if the direction of the run allows it.
  function Chosen(v: View, obj: Option<Obj>, c: Setup, mode: Mode): Option<Action> {
    var plan := Planned(v, obj, c);
    if plan.Some? && !Allowed(mode, plan.value.kind) then None else plan
  }

  predicate Waiting(a: Option<Action>) {
    a.Some? && a.value.kind == Pending
  }

  predicate Clashing(a: Option<Action>) {
    a.Some? && a.value.kind == Conflict
  }

  lemma ClashesExactly(v: View, obj: Option<Obj>, c: Setup, mode: Mode, w: View, any: Setup)
    requires w.disk == v.disk && w.st == v.st && w.base == v.base
    requires any.structured == c.structured && any.tracksExec == c.tracksExec
    ensures Clashing(Chosen(v, obj, c, mode)) <==> mode != PushOnly && Disputed(w, obj, any)
  {
    AskedExactly(v, obj, c);
    hide Planned, LocalUnchanged, SameContent, ValueOf;
  }

  lemma WaitsExactly(v: View, obj: Option<Obj>, c: Setup, mode: Mode)
    ensures Waiting(Chosen(v, obj, c, mode))
            <==> && mode != PullOnly && !c.adoptLocal && c.firstSync
                 && v.disk.Some? && v.st.None? && (obj.Some? ==> obj.value.body.Tombstone?)
  {
    PendingExactly(v, obj, c);
    hide Planned;
  }

  lemma SameLookups<V>(a: map<Key, V>, b: map<Key, V>)
    requires forall k :: Lookup(a, k) == Lookup(b, k)
    ensures a == b
  {
    forall k ensures k in a <==> k in b { assert Lookup(a, k) == Lookup(b, k); }
    forall k | k in a ensures a[k] == b[k] { assert Lookup(a, k) == Lookup(b, k); }
  }

  lemma ChosenHasLocal(v: View, obj: Option<Obj>, c: Setup, mode: Mode)
    ensures var a := Chosen(v, obj, c, mode);
            a.Some? && a.value.kind == Upload ==> a.value.local.Some?
  {
    hide Plan.PlanKey;
    PlanKeyBasics(v, InfoOf(obj), Fetched(v, obj, c), c);
  }

  lemma KeyComposed(v: View, obj: Option<Obj>, v': View, obj': Option<Obj>, a: Option<Action>, c: Setup, mode: Mode,
                    next: ETag)
    requires a == Chosen(v, obj, c, mode)
    requires a.Some? && a.value.kind == Upload ==> a.value.local.Some?
    requires UploadDone(if a.Some? then LocalStep(v, a.value, c) else v, obj, v', obj', a, c, next)
    ensures SyncDone(v, obj, v', obj', c, mode, next)
  {
    hide Plan.PlanKey, Plan.LocalStep, Plan.Payload, Plan.Uploaded;
  }

  function TagOf(obj: Option<Obj>): ETag {
    if obj.Some? then obj.value.etag else 0
  }

  predicate Writes(a: Option<Action>, obj: Option<Obj>) {
    a.Some? && Uploads(a.value) && PutAllowed(obj, a.value.ifMatch)
  }

  predicate Refused(a: Option<Action>, obj: Option<Obj>) {
    a.Some? && Uploads(a.value) && !PutAllowed(obj, a.value.ifMatch)
  }

  // The upload of a key, done with an ETag given out from next on.
  ghost predicate UploadDone(v: View, obj: Option<Obj>, v': View, obj': Option<Obj>, a: Option<Action>, c: Setup,
                             next: ETag)
    requires a.Some? && a.value.kind == Upload ==> a.value.local.Some?
  {
    && Pair(v', obj') == UploadedPair(v, obj, a, c, TagOf(obj'))
    && (Writes(a, obj) ==> next <= TagOf(obj'))
  }

  lemma NoUpload(v: View, obj: Option<Obj>, c: Setup, next: ETag)
    ensures UploadDone(v, obj, v, obj, None, c, next)
  {
  }

  // A key went from one pair to the other in a round; what was written got an
  // ETag given out from next on.
  ghost predicate SyncDone(v: View, obj: Option<Obj>, v': View, obj': Option<Obj>, c: Setup, mode: Mode, next: ETag) {
    && Pair(v', obj') == KeyAfter(v, obj, c, mode, TagOf(obj'))
    && (Writes(Chosen(v, obj, c, mode), obj) ==> next <= TagOf(obj'))
  }

  lemma UnwrittenStays(v: View, obj: Option<Obj>, v': View, obj': Option<Obj>, c: Setup, mode: Mode, next: ETag)
    requires SyncDone(v, obj, v', obj', c, mode, next)
    ensures obj' != obj ==> obj'.Some? && next <= obj'.value.etag
    ensures !Writes(Chosen(v, obj, c, mode), obj) ==> Pair(v', obj') == KeyAfter(v, obj, c, mode, next)
  {
    hide Plan.PlanKey, Plan.LocalStep, Plan.Payload, Plan.Uploaded;
  }

  // A run in one direction changes nothing on the other side.
  lemma OneWay(v: View, obj: Option<Obj>, v': View, obj': Option<Obj>, c: Setup, mode: Mode, next: ETag)
    requires SyncDone(v, obj, v', obj', c, mode, next)
    ensures mode == PullOnly ==> obj' == obj
    ensures mode == PushOnly ==> v'.disk == v.disk
  {
    hide Plan.PlanKey, Plan.Payload, Structured.Fingerprint;
    PlanKeyBasics(v, InfoOf(obj), Fetched(v, obj, c), c);
  }

  // And for the rest it does what a run in both directions does.
  lemma OneWayDoesTheRest(v: View, obj: Option<Obj>, c: Setup, tag: ETag)
    requires Sound(v, obj, c) && Fresh(v, tag, tag) && TagOf(obj) < tag
    ensures var both := RoundKey(v, obj, c, tag, tag);
            && KeyAfter(v, obj, c, PullOnly, tag) == (if both.obj == obj then both else Pair(v, obj))
            && KeyAfter(v, obj, c, PushOnly, tag) == (if both.v.disk == v.disk then both else Pair(v, obj))
  {
    hide Plan.PlanKey, Structured.Fingerprint, Plan.LocalStep;
    if Planned(v, obj, c).Some? {
      PlanGrounded(v, obj, c);
      PlanKeyBasics(v, InfoOf(obj), Fetched(v, obj, c), c);
      DiskChanges(v, obj, c);
      NothingDone(v, Planned(v, obj, c).value, c);
    }
  }

  lemma NothingDone(v: View, a: Action, c: Setup)
    ensures a.kind == Conflict || a.kind == Pending ==> LocalStep(v, a, c) == v
  {
  }

  // Exactly what a push leaves out would change the disk.
  lemma DiskChanges(v: View, obj: Option<Obj>, c: Setup)
    requires Sound(v, obj, c) && Planned(v, obj, c).Some?
    ensures var a := Planned(v, obj, c).value;
            (a.kind == Download || a.kind == RemoveLocal || a.kind == Merge <==> LocalStep(v, a, c).disk != v.disk)
  {
    PlanGrounded(v, obj, c);
    NewContent(v, InfoOf(obj), Fetched(v, obj, c), c);
    hide Plan.PlanKey, Structured.Fingerprint, Plan.Absorbs;
  }

  lemma NewContent(v: View, info: Option<ETag>, r: Option<Remote>, c: Setup)
    requires Readable(info, v.st, r) && (r.Some? ==> info.Some?) && PlanKey(v, info, r, c).Some?
    ensures var a := PlanKey(v, info, r, c).value;
            && (a.kind == Download ==> r.Some? && !SameContent(v.disk, r.value.body, c.tracksExec))
            && (a.kind == Merge && v.disk.Some? ==> Some(ItemsPrint(Fingerprint(a.merged))) != PrintOf(v.disk.value))
  {
    hide Structured.Fingerprint, Structured.Merged, Structured.Conflicts, LocalUnchanged;
  }

  // A key in order: sound, and its ETags are ones the store has given out.
  ghost predicate KeyInOrder(v: View, obj: Option<Obj>, c: Setup, next: ETag) {
    Sound(v, obj, c) && (v.st.Some? ==> v.st.value.etag < next) && TagOf(obj) < next
  }

  // A machine that never synced starts in order, and what others write keeps
  // it so.
  lemma OrderStartsAndStays(v: View, obj: Option<Obj>, c: Setup, next: ETag, body: Body)
    requires next > 0 && WellFormedBody(body, c.structured)
    requires (v.st.None? && obj.None? && WellFormedView(v, c)) || KeyInOrder(v, obj, c, next)
    ensures KeyInOrder(v, obj, c, next) && KeyInOrder(v, Some(Obj(body, next)), c, next + 1)
  {
  }

  // A round keeps a key in order, and one in both directions that asks
  // nothing brings disk, state and store in step.
  ghost predicate KeySettled(v: View, obj: Option<Obj>, v': View, obj': Option<Obj>, c: Setup, mode: Mode, next: ETag) {
    && KeyInOrder(v', obj', c, next)
    && (mode.Both? && !NeedsUser(v, obj, c) ==>
          && (Agrees(v', obj', c) <==> !DeletedStructuredLink(v, obj, c))
          && (!DeletedStructuredLink(v, obj, c) ==> InStep(v', obj', c)))
  }

  lemma RoundKeepsTags(v: View, obj: Option<Obj>, c: Setup, tag: ETag, next: ETag)
    requires (v.st.Some? ==> v.st.value.etag < next) && TagOf(obj) < next
    requires Writes(Planned(v, obj, c), obj) ==> tag < next
    ensures var p := RoundKey(v, obj, c, tag, tag);
            p.v.st.Some? ==> p.v.st.value.etag < next
  {
    PlanKeyBasics(v, InfoOf(obj), Fetched(v, obj, c), c);
    hide Plan.PlanKey, Plan.LocalStep, Plan.Uploaded, Plan.Payload;
    var plan := Planned(v, obj, c);
    if plan.Some? {
      LocalKeepsTags(v, plan.value, c, next);
      if Writes(plan, obj) { UploadedTag(LocalStep(v, plan.value, c), plan.value, tag, c); }
    }
  }

  lemma LocalKeepsTags(v: View, a: Action, c: Setup, next: ETag)
    requires next > 0 && (v.st.Some? ==> v.st.value.etag < next) && (a.remote.Some? ==> a.remote.value.etag < next)
    ensures var st := LocalStep(v, a, c).st; st.Some? ==> st.value.etag < next
  {
    hide Structured.Fingerprint;
  }

  lemma UploadedTag(v: View, a: Action, tag: ETag, c: Setup)
    requires Uploads(a) && (a.kind == Upload ==> a.local.Some?)
    ensures var st := Uploaded(v, a, tag, c).st; st.Some? && st.value.etag == tag
  {
    hide Structured.Fingerprint;
  }

  lemma RoundIsSound(v: View, obj: Option<Obj>, c: Setup, tag: ETag)
    requires Sound(v, obj, c) && Fresh(v, tag, tag)
    ensures var p := RoundKey(v, obj, c, tag, tag); Sound(p.v, p.obj, c)
  {
    hide Plan.PlanKey, Sound, Lands, Fresh, Carried;
    var plan := Planned(v, obj, c);
    if plan.Some? {
      PlanLands(v, obj, c, tag, tag);
      LandsMeans(v, obj, plan.value, c, tag, tag);
    }
  }

  lemma KeySettles(v: View, obj: Option<Obj>, v': View, obj': Option<Obj>, c: Setup, mode: Mode, next: ETag,
                   next': ETag)
    requires SyncDone(v, obj, v', obj', c, mode, next)
    requires 0 < next <= next' && TagOf(obj') < next' && KeyInOrder(v, obj, c, next)
    ensures KeySettled(v, obj, v', obj', c, mode, next')
  {
    hide Plan.PlanKey, Sound, Agrees, InStep, DeletedStructuredLink, NeedsUser, RoundKey;
    UnwrittenStays(v, obj, v', obj', c, mode, next);
    var plan := Planned(v, obj, c);
    if plan.None? || Allowed(mode, plan.value.kind) {
      var tag := if Writes(plan, obj) then TagOf(obj') else next;
      RoundIsSound(v, obj, c, tag);
      RoundKeepsTags(v, obj, c, tag, next');
      if !NeedsUser(v, obj, c) { RoundAgrees(v, obj, c, tag, tag); }
    }
  }

  // The same for a setup that names the same key and file system.
  lemma KeyRound(v: View, obj: Option<Obj>, v': View, obj': Option<Obj>, c: Setup, any: Setup, mode: Mode, next: ETag,
                 next': ETag)
    requires SyncDone(v, obj, v', obj', c, mode, next)
    requires 0 < next <= next' && TagOf(obj') < next' && KeyInOrder(v, obj, any, next)
    requires c.structured == any.structured && c.tracksExec == any.tracksExec
    ensures KeySettled(v, obj, v', obj', c, mode, next') && KeyInOrder(v', obj', any, next')
    ensures !Refused(Chosen(v, obj, c, mode), obj)
  {
    hide Plan.PlanKey, SyncDone, Describes, WellFormedEntry;
    KeySettles(v, obj, v', obj', c, mode, next, next');
    if Planned(v, obj, c).Some? { PlanGrounded(v, obj, c); }
  }

  // The upload of a key, if it has one, on its own.
  function UploadedPair(v: View, obj: Option<Obj>, a: Option<Action>, c: Setup, tag: ETag): Pair
    requires a.Some? && a.value.kind == Upload ==> a.value.local.Some?
  {
    if a.Some? && Uploads(a.value) && PutAllowed(obj, a.value.ifMatch) then
      Pair(Uploaded(v, a.value, tag, c), Some(Obj(Payload(a.value, v.st, c), tag)))
    else Pair(v, obj)
  }

  lemma AbsentKey(v: View, r: Option<Remote>, c: Setup)
    requires v.disk.None? && v.st.None?
    ensures PlanKey(v, None, r, c).None?
  {
  }
}
