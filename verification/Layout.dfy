// internal/engine/plan.go, layoutConflicts and sortForApply: which actions a
// run drops because a path is a directory on one machine and a link or a file
// on another, and the order that keeps the disk a tree at every step.
module Layout {
  import opened Options
  import opened Plan
  import opened Structured
  import Engine

  // ------------------------------------------------------------------ paths

  // Keys are clean slash-separated paths, so the parent directory is what
  // stands before the last slash.
  function LastSlash(k: string): (n: nat)
    ensures n <= |k| && (n < |k| ==> k[n] == '/')
    ensures forall i :: n < i < |k| ==> k[i] != '/'
    ensures n == |k| ==> '/' !in k
  {
    if k == "" then 0
    else if k[|k| - 1] == '/' then |k| - 1
    else
      var n := LastSlash(k[..|k| - 1]);
      if n == |k| - 1 then |k| else n
  }

  function Dir(k: string): string {
    var n := LastSlash(k);
    if n == |k| then "." else if n == 0 then "/" else k[..n]
  }

  function Slashes(k: string): nat {
    if k == "" then 0 else if k[|k| - 1] == '/' then Slashes(k[..|k| - 1]) + 1 else Slashes(k[..|k| - 1])
  }

  // k lies inside p, where p is a directory.
  predicate Below(k: string, p: string) {
    p + "/" <= k
  }

  // An entry key names a version, a root and a path in it.
  predicate EntryKey(k: string) {
    Slashes(k) >= 2
  }

  lemma {:induction false} MoreSlashes(k: string, n: nat)
    requires n < |k| && k[n] == '/'
    ensures Slashes(k[..n]) < Slashes(k)
  {
    if n < |k| - 1 {
      MoreSlashes(k[..|k| - 1], n);
      assert k[..|k| - 1][..n] == k[..n];
    }
  }

  lemma BelowHasMore(k: string, p: string)
    requires Below(k, p)
    ensures Slashes(p) < Slashes(k) && |p| < |k|
  {
    assert k[..|p|] == p && k[|p|] == (p + "/")[|p|] == '/';
    MoreSlashes(k, |p|);
  }

  lemma BelowDir(k: string)
    requires Slashes(Dir(k)) >= 2
    ensures Below(k, Dir(k)) && |Dir(k)| < |k|
  {
    assert Slashes("") == 0;
    assert "."[..0] == "" && Slashes(".") == 0;
    assert "/"[..0] == "" && Slashes("/") == 1;
    var n := LastSlash(k);
    assert k[..n] + "/" == k[..n + 1];
  }

  // The ancestors of k are its parent and the ancestors of that.
  lemma AncestorsOf(k: string, p: string)
    requires Below(k, p) && EntryKey(p)
    ensures p == Dir(k) || Below(Dir(k), p)
  {
    assert k[..|p| + 1] == p + "/" && k[|p|] == (p + "/")[|p|];
    var n := LastSlash(k);
    assert |p| <= n < |k|;
    assert Slashes("") == 0;
    if |p| == n {
      assert p == k[..n];
    } else {
      assert k[..n][..|p| + 1] == p + "/";
    }
  }

  lemma BelowTransitive(k: string, p: string, q: string)
    requires Below(k, p) && Below(p, q)
    ensures Below(k, q)
  {
    assert k[..|q| + 1] == p[..|q| + 1] == q + "/";
  }

  // ---------------------------------------------------------- final layout

  datatype Node = FileNode | LinkNode

  function NodeOf(e: Entry): Node {
    if e.File? then FileNode else LinkNode
  }

  predicate Writes(a: Action) {
    a.kind == Download || a.kind == Merge
  }

  // What the planner's actions promise: what is written is a live remote
  // entry, and a merge or a removal meets an entry of this machine.
  ghost predicate PlannedAction(a: Action, l: Option<Entry>) {
    && (Writes(a) ==> a.remote.Some? && a.remote.value.body.Live?)
    && (a.kind == RemoveLocal ==> a.remote.Some? && l.Some?)
    && (a.kind == Merge ==> l.Some?)
  }

  ghost predicate PlannedActions(actions: map<string, Action>, local: map<string, Entry>) {
    forall k :: k in actions ==> PlannedAction(actions[k], Lookup(local, k))
  }

  lemma PlannerKeepsPromises(v: View, info: Option<ETag>, r: Option<Remote>, c: Setup)
    requires Readable(info, v.st, r) && PlanKey(v, info, r, c).Some?
    ensures PlannedAction(PlanKey(v, info, r, c).value, v.disk)
  {
    hide Conflicts, Merged, Fingerprint, Hash;
  }

  function FinalNode(k: string, actions: map<string, Action>, local: map<string, Entry>): Option<Node>
    requires k in actions && Writes(actions[k]) ==> actions[k].remote.Some?
  {
    if k in actions && Writes(actions[k]) then
      match actions[k].remote.value.body
      case Tombstone => None
      case Live(e) => Some(NodeOf(e))
    else if k in actions && actions[k].kind == RemoveLocal then None
    else if k in local then Some(NodeOf(local[k]))
    else None
  }

  // Two entries of which one would lie inside the other.
  predicate Nested(k: string, p: string) {
    Below(k, p) || Below(p, k)
  }

  ghost predicate InFinal(k: string, actions: map<string, Action>, local: map<string, Entry>)
    requires PlannedActions(actions, local)
  {
    FinalNode(k, actions, local).Some?
  }

  ghost predicate Cancelled(k: string, actions: map<string, Action>, local: map<string, Entry>)
    requires PlannedActions(actions, local)
  {
    InFinal(k, actions, local) && exists p :: InFinal(p, actions, local) && Nested(k, p)
  }

  // A cancelled key is explained by an entry it would lie in, or by itself
  // where an entry would lie in it.
  ghost predicate Explains(k: string, outer: string, actions: map<string, Action>, local: map<string, Entry>)
    requires PlannedActions(actions, local)
  {
    InFinal(outer, actions, local)
    && (Below(k, outer) || (outer == k && exists q :: InFinal(q, actions, local) && Below(q, k)))
  }

  ghost predicate EntryKeys(actions: map<string, Action>, local: map<string, Entry>) {
    (forall k :: k in actions ==> EntryKey(k)) && (forall k :: k in local ==> EntryKey(k))
  }

  method FinalLayout(actions: map<string, Action>, local: map<string, Entry>) returns (final: map<string, Node>)
    requires PlannedActions(actions, local)
    ensures forall k :: Lookup(final, k) == FinalNode(k, actions, local)
  {
    final := map k | k in local :: NodeOf(local[k]);
    var rest := actions.Keys;
    while rest != {}
      invariant rest <= actions.Keys
      invariant forall k :: k in rest ==> Lookup(final, k) == if k in local then Some(NodeOf(local[k])) else None
      invariant forall k :: k !in rest ==> Lookup(final, k) == FinalNode(k, actions, local)
      decreases |rest|
    {
      var k :| k in rest;
      var a := actions[k];
      if Writes(a) {
        match a.remote.value.body
        case Tombstone => final := final - {k};
        case Live(e) => final := final[k := NodeOf(e)];
      } else if a.kind == RemoveLocal {
        final := final - {k};
      }
      rest := rest - {k};
    }
  }

  // The ancestors p, Dir(p), ... of k that are not keys yet to be looked at
  // are recorded.
  method CancelBelow(k: string, final: map<string, Node>, cancel0: map<string, string>)
    returns (cancel: map<string, string>)
    requires k in final && forall q :: q in final ==> EntryKey(q)
    ensures forall q :: q in cancel <==>
              q in cancel0 || (q in final && Below(k, q)) || (q == k && exists p :: p in final && Below(k, p))
    ensures forall q :: q in cancel ==>
              || (q in cancel0 && cancel[q] == cancel0[q])
              || (cancel[q] == q && q in final && Below(k, q))
              || (q == k && cancel[q] in final && Below(k, cancel[q]))
  {
    cancel := cancel0;
    var p := Dir(k);
    if Slashes(p) >= 2 { BelowDir(k); }
    forall q | q in final && Below(k, q) ensures q == p || Below(p, q) { AncestorsOf(k, q); }
    while Slashes(p) >= 2
      invariant Slashes(p) >= 2 ==> Below(k, p)
      invariant forall q :: q in final && Below(k, q) ==> q in cancel || q == p || Below(p, q)
      invariant forall q :: q in cancel0 ==> q in cancel
      invariant forall q :: q in final && Below(k, q) && !(q == p || Below(p, q)) ==> q in cancel && k in cancel
      invariant forall q :: q in cancel ==>
                  || (q in cancel0 && cancel[q] == cancel0[q])
                  || (cancel[q] == q && q in final && Below(k, q))
                  || (q == k && cancel[q] in final && Below(k, cancel[q]))
      decreases |p|
    {
      if p in final {
        cancel := cancel[k := p][p := p];
      }
      var d := Dir(p);
      forall q | q in final && Below(p, q) ensures q == d || Below(d, q) { AncestorsOf(p, q); }
      if Slashes(d) >= 2 {
        BelowDir(p);
        BelowTransitive(k, p, d);
      } else {
        NoneAbove(d, final);
      }
      p := d;
    }
    NoneAbove(p, final);
  }

  lemma NoneAbove(p: string, final: map<string, Node>)
    requires Slashes(p) < 2 && forall q :: q in final ==> EntryKey(q)
    ensures p !in final && forall q :: q in final ==> !Below(p, q)
  {
    forall q | q in final ensures !Below(p, q) {
      if Below(p, q) { BelowHasMore(p, q); }
    }
  }

  method LayoutConflicts(actions: map<string, Action>, local: map<string, Entry>) returns (cancel: map<string, string>)
    requires PlannedActions(actions, local) && EntryKeys(actions, local)
    ensures forall k :: k in cancel <==> Cancelled(k, actions, local)
    ensures forall k :: k in cancel ==> Explains(k, cancel[k], actions, local)
  {
    hide FinalNode, Cancelled, Below, Slashes, Hit;
    var final := FinalLayout(actions, local);
    forall k ensures (k in final <==> InFinal(k, actions, local)) && (k in final ==> EntryKey(k)) {
      assert Lookup(final, k) == FinalNode(k, actions, local);
      FinalIsKey(k, actions, local);
    }
    cancel := map[];
    NothingHit(final);
    var rest := final.Keys;
    while rest != {}
      invariant rest <= final.Keys
      invariant forall q :: q in cancel <==> Hit(q, final, final.Keys - rest)
      invariant forall q :: q in cancel ==>
                  cancel[q] in final
                  && (Below(q, cancel[q]) || (cancel[q] == q && exists o :: o in final && Below(o, q)))
      decreases |rest|
    {
      var k :| k in rest;
      ghost var done := final.Keys - rest;
      cancel := CancelBelow(k, final, cancel);
      rest := rest - {k};
      assert final.Keys - rest == done + {k};
      forall q ensures q in cancel <==> Hit(q, final, done + {k}) { HitOneMore(q, k, final, done); }
    }
    assert final.Keys - rest == final.Keys;
    forall q ensures q in cancel <==> Cancelled(q, actions, local) { HitIsCancelled(q, final, actions, local); }
  }

  // q was reached from one of the keys looked at so far.
  ghost predicate Hit(q: string, final: map<string, Node>, seen: set<string>) {
    && q in final
    && ((exists k :: k in seen && Below(k, q)) || (q in seen && exists p :: p in final && Below(q, p)))
  }

  lemma NothingHit(final: map<string, Node>)
    ensures forall q :: !Hit(q, final, final.Keys - final.Keys)
  {
  }

  lemma FinalIsKey(k: string, actions: map<string, Action>, local: map<string, Entry>)
    requires PlannedActions(actions, local) && EntryKeys(actions, local)
    ensures InFinal(k, actions, local) ==> EntryKey(k)
  {
  }

  lemma HitOneMore(q: string, k: string, final: map<string, Node>, seen: set<string>)
    requires k in final
    ensures Hit(q, final, seen + {k}) <==>
              Hit(q, final, seen) || (q in final && Below(k, q)) || (q == k && exists p :: p in final && Below(k, p))
  {
    if q in final && Below(k, q) { assert k in seen + {k}; }
    if Hit(q, final, seen) && exists j :: j in seen && Below(j, q) {
      var j :| j in seen && Below(j, q);
      assert j in seen + {k};
    }
  }

  lemma HitIsCancelled(q: string, final: map<string, Node>, actions: map<string, Action>, local: map<string, Entry>)
    requires PlannedActions(actions, local)
    requires forall k :: k in final <==> InFinal(k, actions, local)
    ensures Hit(q, final, final.Keys) <==> Cancelled(q, actions, local)
  {
  }

  // A live entry the run writes, or one of this machine it does not remove.
  ghost predicate EndsThere(k: string, actions: map<string, Action>, local: map<string, Entry>) {
    if k in actions && (actions[k].kind == Download || actions[k].kind == Merge) then
      actions[k].remote.Some? && actions[k].remote.value.body.Live?
    else k in local && !(k in actions && actions[k].kind == RemoveLocal)
  }

  // A key is cancelled exactly where two entries the run would leave cannot
  // both stand, one lying in the other.
  lemma CancelledExactly(k: string, actions: map<string, Action>, local: map<string, Entry>)
    requires PlannedActions(actions, local)
    ensures Cancelled(k, actions, local)
            <==> && EndsThere(k, actions, local)
                 && exists p :: EndsThere(p, actions, local) && (p + "/" <= k || k + "/" <= p)
  {
    hide Below;
    forall p ensures InFinal(p, actions, local) <==> EndsThere(p, actions, local) { }
    forall p ensures Nested(k, p) <==> p + "/" <= k || k + "/" <= p { BelowIs(k, p); BelowIs(p, k); }
  }

  lemma BelowIs(k: string, p: string)
    ensures Below(k, p) <==> p + "/" <= k
  {
  }

  // Keys of entries have two slashes: a version, a root and a path.
  lemma EntryKeysHave(version: string, root: string, path: string)
    requires '/' !in version && '/' !in root
    ensures EntryKey(version + "/" + root + "/" + path) && !EntryKey(version + "/" + root)
  {
    SlashesOfBoth(version + "/" + root + "/", path);
    SlashesOfBoth(version + "/" + root, "/");
    SlashesOfBoth(version + "/", root);
    SlashesOfBoth(version, "/");
    NoSlashes(version);
    NoSlashes(root);
    assert "/"[..0] == "";
  }

  lemma {:induction false} SlashesOfBoth(a: string, b: string)
    ensures Slashes(a + b) == Slashes(a) + Slashes(b)
  {
    if b == "" {
      assert a + b == a;
    } else {
      SlashesOfBoth(a, b[..|b| - 1]);
      assert (a + b)[..|a + b| - 1] == a + b[..|b| - 1];
    }
  }

  lemma {:induction false} NoSlashes(a: string)
    requires '/' !in a
    ensures Slashes(a) == 0
  {
    if a != "" { NoSlashes(a[..|a| - 1]); }
  }

  // ------------------------------------------------------------------ order

  datatype Step = Step(key: string, action: Action)

  // Keys compare byte by byte.
  predicate Less(x: string, y: string)
    decreases |x|
  {
    if y == "" then false
    else if x == "" then true
    else if x[0] != y[0] then x[0] < y[0]
    else Less(x[1..], y[1..])
  }

  // Removals, then files, then links, whose targets may have just arrived.
  function Rank(a: Action): nat
    requires Writes(a) ==> a.remote.Some?
  {
    if a.kind == RemoveLocal then 0
    else if Writes(a) && a.remote.value.body.Live? && a.remote.value.body.entry.File? then 1
    else if a.kind == Download then 2
    else 3
  }

  predicate Sortable(x: Step) {
    Writes(x.action) ==> x.action.remote.Some?
  }

  // Removals go deepest first, all else in ascending order.
  predicate Before(x: Step, y: Step)
    requires Sortable(x) && Sortable(y)
  {
    var rx, ry := Rank(x.action), Rank(y.action);
    if rx != ry then rx < ry else if rx == 0 then Less(y.key, x.key) else Less(x.key, y.key)
  }

  ghost predicate AllSortable(s: seq<Step>) {
    forall x :: x in s ==> Sortable(x)
  }

  ghost predicate Sorted(s: seq<Step>)
    requires AllSortable(s)
  {
    forall i, j :: 0 <= i < j < |s| ==> !Before(s[j], s[i])
  }

  lemma {:induction false} LessIsTotal(x: string, y: string)
    ensures Less(x, y) || Less(y, x) || x == y
    ensures !(Less(x, y) && Less(y, x)) && !Less(x, x)
  {
    if x != "" && y != "" {
      LessIsTotal(x[1..], y[1..]);
      LessIsTotal(x[1..], x[1..]);
      assert x == [x[0]] + x[1..] && y == [y[0]] + y[1..];
    } else if x != "" {
      LessIsTotal(x[1..], x[1..]);
    }
  }

  // The order of keys is that of their first different bytes, a beginning
  // coming before what it begins.
  lemma {:induction false} LessIsBytewise(x: string, y: string)
    ensures Less(x, y)
            <==> exists n :: 0 <= n <= |x| && n < |y| && x[..n] == y[..n] && (n == |x| || x[n] < y[n])
  {
    if x == "" || y == "" {
      if y != "" { assert x[..0] == y[..0]; }
    } else {
      LessIsBytewise(x[1..], y[1..]);
      if x[0] == y[0] {
        if n :| 0 <= n <= |x| && n < |y| && x[..n] == y[..n] && (n == |x| || x[n] < y[n]) {
          assert n > 0;
          assert x[1..][..n - 1] == x[..n][1..] && y[1..][..n - 1] == y[..n][1..];
        }
        if n :| 0 <= n <= |x| - 1 && n < |y| - 1 && x[1..][..n] == y[1..][..n]
                && (n == |x| - 1 || x[1..][n] < y[1..][n]) {
          assert x[..n + 1] == [x[0]] + x[1..][..n] && y[..n + 1] == [y[0]] + y[1..][..n];
        }
      } else {
        forall n | 0 < n <= |x| && n < |y| ensures x[..n] != y[..n] { assert x[..n][0] == x[0] && y[..n][0] == y[0]; }
        assert x[..0] == y[..0];
      }
    }
  }

  lemma {:induction false} LessIsTransitive(x: string, y: string, z: string)
    requires !Less(y, x) && !Less(z, y)
    ensures !Less(z, x)
  {
    if x != "" && y != "" && z != "" && x[0] == y[0] && y[0] == z[0] {
      LessIsTransitive(x[1..], y[1..], z[1..]);
    }
  }

  lemma NotBeforeIsTransitive(x: Step, y: Step, z: Step)
    requires Sortable(x) && Sortable(y) && Sortable(z) && !Before(y, x) && !Before(z, y)
    ensures !Before(z, x)
  {
    hide Less;
    if Rank(x.action) == Rank(y.action) && Rank(y.action) == Rank(z.action) {
      if Rank(x.action) == 0 {
        LessIsTransitive(z.key, y.key, x.key);
      } else {
        LessIsTransitive(x.key, y.key, z.key);
      }
    }
  }

  // The library's stable sort, as an insertion from the left.
  method SortForApply(steps: seq<Step>) returns (r: seq<Step>)
    requires AllSortable(steps)
    ensures multiset(r) == multiset(steps)
    ensures AllSortable(r) && Sorted(r)
  {
    r := [];
    for i := 0 to |steps|
      invariant multiset(r) == multiset(steps[..i])
      invariant AllSortable(r) && Sorted(r)
    {
      assert steps[..i + 1] == steps[..i] + [steps[i]];
      r := Insert(r, steps[i]);
    }
    assert steps[..|steps|] == steps;
  }

  method Insert(s: seq<Step>, x: Step) returns (r: seq<Step>)
    requires AllSortable(s) && Sorted(s) && Sortable(x)
    ensures multiset(r) == multiset(s) + multiset{x}
    ensures AllSortable(r) && Sorted(r)
  {
    hide Before;
    var i := |s|;
    while i > 0 && Before(x, s[i - 1])
      invariant 0 <= i <= |s|
      invariant forall k :: i <= k < |s| ==> Before(x, s[k])
    {
      i := i - 1;
    }
    r := s[..i] + [x] + s[i..];
    assert s == s[..i] + s[i..];
    forall y | y in r ensures Sortable(y) { assert y in s || y == x; }
    InsertedIsSorted(s, x, i);
  }

  lemma InsertedIsSorted(s: seq<Step>, x: Step, i: nat)
    requires AllSortable(s) && Sorted(s) && Sortable(x) && i <= |s|
    requires i > 0 ==> !Before(x, s[i - 1])
    requires forall k :: i <= k < |s| ==> Before(x, s[k])
    ensures var r := s[..i] + [x] + s[i..]; AllSortable(r) && Sorted(r)
  {
    hide Before;
    var r := s[..i] + [x] + s[i..];
    forall y | y in r ensures Sortable(y) { assert y in s || y == x; }
    forall k | 0 <= k < i ensures !Before(x, s[k]) {
      if k < i - 1 { NotBeforeIsTransitive(s[k], s[i - 1], x); }
    }
    forall k | i <= k < |s| ensures !Before(s[k], x) { BeforeIsStrict(x, s[k]); }
    forall a, b | 0 <= a < b < |r| ensures !Before(r[b], r[a]) {
      var sa := if a < i then a else a - 1;
      var sb := if b < i then b else b - 1;
      if a != i && b != i { assert r[a] == s[sa] && r[b] == s[sb]; }
    }
  }

  lemma BeforeIsStrict(x: Step, y: Step)
    requires Sortable(x) && Sortable(y)
    ensures !(Before(x, y) && Before(y, x))
    ensures x.key != y.key ==> Before(x, y) || Before(y, x)
  {
    LessIsTotal(x.key, y.key);
  }

  ghost predicate DistinctKeys(s: seq<Step>) {
    forall i, j :: 0 <= i < j < |s| ==> s[i].key != s[j].key
  }

  lemma SameFirst(a: seq<Step>, b: seq<Step>)
    requires AllSortable(a) && AllSortable(b) && Sorted(a) && Sorted(b)
    requires multiset(a) == multiset(b) && DistinctKeys(a) && DistinctKeys(b)
    requires a != [] && b != []
    ensures a[0] == b[0]
  {
    hide Before;
    assert a[0] in multiset(b) && b[0] in multiset(a);
    var i: nat :| i < |b| && b[i] == a[0];
    var j: nat :| j < |a| && a[j] == b[0];
    BeforeIsStrict(a[0], b[0]);
  }

  lemma SameRest(a: seq<Step>, b: seq<Step>)
    requires multiset(a) == multiset(b) && a != [] && b != [] && a[0] == b[0]
    ensures multiset(a[1..]) == multiset(b[1..])
  {
    assert a == [a[0]] + a[1..] && b == [b[0]] + b[1..];
    assert multiset(a[1..]) == multiset(a) - multiset{a[0]};
    assert multiset(b[1..]) == multiset(b) - multiset{b[0]};
  }

  // Whatever order the actions come in, one order is the sorted one.
  lemma {:induction false} OneSortedOrder(a: seq<Step>, b: seq<Step>)
    requires AllSortable(a) && AllSortable(b) && Sorted(a) && Sorted(b)
    requires multiset(a) == multiset(b) && DistinctKeys(a) && DistinctKeys(b)
    ensures a == b
  {
    hide Before;
    assert |multiset(b)| == |multiset(a)|;
    if a != [] {
      SameFirst(a, b);
      SameRest(a, b);
      OneSortedOrder(a[1..], b[1..]);
      assert a == [a[0]] + a[1..] && b == [b[0]] + b[1..];
    }
  }

  // ------------------------------------------------------- the disk's shape

  // What a step does to the files on disk.
  function Landed(disk: map<string, Entry>, x: Step, c: Setup): map<string, Entry> {
    match LocalStep(View(Lookup(disk, x.key), None, None, {}), x.action, c).disk
    case None => disk - {x.key}
    case Some(e) => disk[x.key := e]
  }

  function After(disk: map<string, Entry>, steps: seq<Step>, c: string -> Setup): map<string, Entry> {
    if steps == [] then disk
    else
      var x := steps[|steps| - 1];
      Landed(After(disk, steps[..|steps| - 1], c), x, c(x.key))
  }

  ghost predicate Tree(disk: map<string, Entry>) {
    forall k, p :: k in disk && p in disk ==> !Below(k, p)
  }

  // The steps a run carries out, in the order it does.
  ghost predicate RunSteps(steps: seq<Step>, actions: map<string, Action>, local: map<string, Entry>, mode: Engine.Mode)
    requires PlannedActions(actions, local)
  {
    && AllSortable(steps) && Sorted(steps) && DistinctKeys(steps)
    && (forall k, a :: Step(k, a) in steps <==>
          k in actions && a == actions[k] && !Cancelled(k, actions, local) && Engine.Allowed(mode, a.kind))
  }

  method PlanSteps(actions: map<string, Action>, local: map<string, Entry>, mode: Engine.Mode)
    returns (steps: seq<Step>, problems: map<string, string>)
    requires PlannedActions(actions, local) && EntryKeys(actions, local)
    ensures RunSteps(steps, actions, local, mode)
    ensures forall k :: k in problems <==> Cancelled(k, actions, local)
    ensures forall k :: k in problems ==> Explains(k, problems[k], actions, local)
  {
    hide Cancelled, Explains, Before, Engine.Allowed, EntryKeys;
    problems := LayoutConflicts(actions, local);
    steps := KeptSteps(actions - problems.Keys, mode);
    assert forall x :: x in steps ==> x.key in actions && x.action == actions[x.key];
    ghost var out := steps;
    steps := SortForApply(steps);
    SortedSteps(out, steps);
  }

  // Map iteration comes in any order.
  method KeptSteps(kept: map<string, Action>, mode: Engine.Mode) returns (out: seq<Step>)
    ensures DistinctKeys(out)
    ensures forall x :: x in out <==>
              x.key in kept && x.action == kept[x.key] && Engine.Allowed(mode, x.action.kind)
  {
    hide Engine.Allowed;
    out := [];
    var rest := kept.Keys;
    while rest != {}
      invariant rest <= kept.Keys
      invariant forall x :: x in out <==>
                  x.key in kept && x.key !in rest && x.action == kept[x.key] && Engine.Allowed(mode, x.action.kind)
      invariant DistinctKeys(out)
      decreases |rest|
    {
      var k :| k in rest;
      if Engine.Allowed(mode, kept[k].kind) {
        forall i | 0 <= i < |out| ensures out[i].key != k { assert out[i] in out; }
        out := out + [Step(k, kept[k])];
      }
      rest := rest - {k};
    }
  }

  lemma SortedSteps(out: seq<Step>, steps: seq<Step>)
    requires multiset(out) == multiset(steps) && DistinctKeys(out)
    ensures DistinctKeys(steps) && forall x :: x in steps <==> x in out
  {
    forall x ensures x in steps <==> x in out {
      assert x in multiset(steps) <==> x in steps;
      assert x in multiset(out) <==> x in out;
    }
    forall i, j | 0 <= i < j < |steps| ensures steps[i].key != steps[j].key {
      if steps[i].key == steps[j].key {
        assert steps[i] in out && steps[j] in out;
        assert steps[i] == steps[j];
        TwiceInMultiset(steps, i, j);
        OnceInMultiset(out, steps[i]);
      }
    }
  }

  lemma TwiceInMultiset(s: seq<Step>, i: nat, j: nat)
    requires i < j < |s| && s[i] == s[j]
    ensures multiset(s)[s[i]] >= 2
  {
    assert s == s[..j] + [s[j]] + s[j + 1..];
    assert s[i] in s[..j];
  }

  lemma {:induction false} OnceInMultiset(s: seq<Step>, x: Step)
    requires DistinctKeys(s)
    ensures multiset(s)[x] <= 1
  {
    if s != [] {
      var n := |s| - 1;
      assert s == s[..n] + [s[n]];
      OnceInMultiset(s[..n], x);
      if x == s[n] { assert x !in s[..n]; }
    }
  }

  lemma LandedElsewhere(disk: map<string, Entry>, x: Step, c: Setup, k: string)
    requires x.key != k
    ensures Lookup(Landed(disk, x, c), k) == Lookup(disk, k)
  {
    hide LocalStep;
  }

  lemma LandedHere(disk: map<string, Entry>, x: Step, c: Setup)
    ensures Lookup(Landed(disk, x, c), x.key) == LocalStep(View(Lookup(disk, x.key), None, None, {}), x.action, c).disk
  {
    hide LocalStep;
  }

  lemma {:induction false} AfterOthers(disk: map<string, Entry>, steps: seq<Step>, c: string -> Setup, k: string)
    requires forall i :: 0 <= i < |steps| ==> steps[i].key != k
    ensures Lookup(After(disk, steps, c), k) == Lookup(disk, k)
  {
    hide Landed;
    if steps != [] {
      var n := |steps| - 1;
      AfterOthers(disk, steps[..n], c, k);
      LandedElsewhere(After(disk, steps[..n], c), steps[n], c(steps[n].key), k);
    }
  }

  // A key with a step is as that step leaves it, whatever the others did.
  lemma {:induction false} AfterOwn(disk: map<string, Entry>, steps: seq<Step>, c: string -> Setup, i: nat)
    requires DistinctKeys(steps) && i < |steps|
    ensures Lookup(After(disk, steps, c), steps[i].key)
            == LocalStep(View(Lookup(disk, steps[i].key), None, None, {}), steps[i].action, c(steps[i].key)).disk
  {
    hide Landed, LocalStep;
    var n := |steps| - 1;
    if i == n {
      AfterOthers(disk, steps[..n], c, steps[n].key);
      LandedHere(After(disk, steps[..n], c), steps[n], c(steps[n].key));
    } else {
      AfterOwn(disk, steps[..n], c, i);
      LandedElsewhere(After(disk, steps[..n], c), steps[n], c(steps[n].key), steps[i].key);
    }
  }

  // Which entries stand after the steps, and what they are.
  lemma {:induction false} AfterPerKey(disk: map<string, Entry>, steps: seq<Step>, c: string -> Setup, k: string)
    requires DistinctKeys(steps)
    ensures (forall i :: 0 <= i < |steps| ==> steps[i].key != k) ==>
              Lookup(After(disk, steps, c), k) == Lookup(disk, k)
    ensures forall i :: 0 <= i < |steps| && steps[i].key == k ==>
              Lookup(After(disk, steps, c), k)
              == LocalStep(View(Lookup(disk, k), None, None, {}), steps[i].action, c(k)).disk
  {
    hide After, LocalStep;
    if forall i :: 0 <= i < |steps| ==> steps[i].key != k { AfterOthers(disk, steps, c, k); }
    forall i | 0 <= i < |steps| && steps[i].key == k
      ensures Lookup(After(disk, steps, c), k)
              == LocalStep(View(Lookup(disk, k), None, None, {}), steps[i].action, c(k)).disk
    {
      AfterOwn(disk, steps, c, i);
    }
  }

  // ------------------------------------------------- the disk stays a tree

  // Where a key that stands after some steps comes from.
  ghost predicate CameFrom(k: string, disk: map<string, Entry>, steps: seq<Step>) {
    || (k in disk && forall i :: 0 <= i < |steps| && steps[i].key == k ==> steps[i].action.kind != RemoveLocal)
    || (exists i :: 0 <= i < |steps| && steps[i].key == k && Writes(steps[i].action))
  }

  lemma StandsAfter(disk: map<string, Entry>, steps: seq<Step>, c: string -> Setup, k: string)
    requires DistinctKeys(steps) && k in After(disk, steps, c)
    requires forall x :: x in steps ==> PlannedAction(x.action, Lookup(disk, x.key))
    ensures CameFrom(k, disk, steps)
  {
    AfterPerKey(disk, steps, c, k);
    if exists i :: 0 <= i < |steps| && steps[i].key == k {
      var i :| 0 <= i < |steps| && steps[i].key == k;
      assert steps[i] in steps;
      StandsAfterStep(View(Lookup(disk, k), None, None, {}), steps[i].action, c(k));
      forall j | 0 <= j < |steps| && steps[j].key == k ensures j == i {}
    }
  }

  lemma StandsAfterStep(v: View, a: Action, c: Setup)
    requires LocalStep(v, a, c).disk.Some? && PlannedAction(a, v.disk)
    ensures a.kind != RemoveLocal && (v.disk.None? ==> Writes(a))
  {
  }

  lemma RemovalIsDone(local: map<string, Entry>, actions: map<string, Action>, mode: Engine.Mode, steps: seq<Step>,
                      n: nat, w: nat, k: string)
    requires PlannedActions(actions, local) && RunSteps(steps, actions, local, mode)
    requires w < n <= |steps| && Writes(steps[w].action)
    requires k in actions && actions[k].kind == RemoveLocal
    ensures Step(k, actions[k]) in steps[..n]
  {
    hide Less;
    assert Step(steps[w].key, steps[w].action) in steps;
    NeverCancelled(k, actions, local);
    assert Step(k, actions[k]) in steps;
    var i: nat :| i < |steps| && steps[i] == Step(k, actions[k]);
    OrderOfSteps(steps, i, w);
    assert steps[..n][i] == steps[i];
  }

  // Once anything was written, every removal of the plan was done: what
  // stands then is part of the final layout.
  lemma StandsInFinal(local: map<string, Entry>, actions: map<string, Action>, mode: Engine.Mode, steps: seq<Step>,
                      n: nat, w: nat, k: string)
    requires PlannedActions(actions, local) && RunSteps(steps, actions, local, mode)
    requires w < n <= |steps| && Writes(steps[w].action)
    requires CameFrom(k, local, steps[..n])
    ensures InFinal(k, actions, local)
  {
    hide Less;
    var done := steps[..n];
    assert Step(steps[w].key, steps[w].action) in steps;
    if exists i :: 0 <= i < n && done[i].key == k && Writes(done[i].action) {
      var i :| 0 <= i < n && done[i].key == k && Writes(done[i].action);
      assert Step(k, done[i].action) == steps[i] && steps[i] in steps;
    } else {
      if k in actions && actions[k].kind == RemoveLocal {
        RemovalIsDone(local, actions, mode, steps, n, w, k);
      }
    }
  }

  // A key that is to be removed leaves the final layout, so nothing about
  // the layout can stop its removal.
  lemma NeverCancelled(k: string, actions: map<string, Action>, local: map<string, Entry>)
    requires PlannedActions(actions, local) && k in actions && actions[k].kind == RemoveLocal
    ensures !Cancelled(k, actions, local)
  {
  }

  // From a disk that is a tree, every prefix of a run leaves a tree.
  lemma TreeAtEveryStep(local: map<string, Entry>, actions: map<string, Action>, mode: Engine.Mode, steps: seq<Step>,
                        n: nat, c: string -> Setup)
    requires PlannedActions(actions, local) && RunSteps(steps, actions, local, mode)
    requires Tree(local) && n <= |steps|
    ensures Tree(After(local, steps[..n], c))
  {
    hide Before, Less, Cancelled, CameFrom;
    var done := steps[..n];
    var disk := After(local, done, c);
    StepsArePlanned(local, actions, mode, steps, n);
    forall k, p | k in disk && p in disk ensures !Below(k, p) {
      StandsAfter(local, done, c, k);
      StandsAfter(local, done, c, p);
      if w: nat :| w < n && Writes(steps[w].action) {
        StandsInFinal(local, actions, mode, steps, n, w, k);
        StandsInFinal(local, actions, mode, steps, n, w, p);
        if Below(k, p) {
          NestedStayed(local, actions, mode, steps, n, k, p);
          NestedStayed(local, actions, mode, steps, n, p, k);
        }
      } else {
        NothingWritten(local, steps, n, k);
        NothingWritten(local, steps, n, p);
      }
    }
  }

  lemma StepsArePlanned(local: map<string, Entry>, actions: map<string, Action>, mode: Engine.Mode, steps: seq<Step>,
                        n: nat)
    requires PlannedActions(actions, local) && RunSteps(steps, actions, local, mode) && n <= |steps|
    ensures DistinctKeys(steps[..n])
    ensures forall x :: x in steps[..n] ==> PlannedAction(x.action, Lookup(local, x.key))
  {
    forall x | x in steps[..n] ensures PlannedAction(x.action, Lookup(local, x.key)) {
      assert x in steps && x == Step(x.key, x.action);
    }
  }

  lemma NothingWritten(local: map<string, Entry>, steps: seq<Step>, n: nat, k: string)
    requires n <= |steps| && (forall w: nat :: w < n ==> !Writes(steps[w].action)) && CameFrom(k, local, steps[..n])
    ensures k in local
  {
  }

  // Of two nested keys of the final layout neither has a step.
  lemma NestedStayed(local: map<string, Entry>, actions: map<string, Action>, mode: Engine.Mode, steps: seq<Step>,
                     n: nat, k: string, p: string)
    requires PlannedActions(actions, local) && RunSteps(steps, actions, local, mode) && n <= |steps|
    requires InFinal(k, actions, local) && InFinal(p, actions, local) && Nested(k, p)
    requires CameFrom(k, local, steps[..n])
    ensures k in local
  {
    assert Cancelled(k, actions, local);
    forall i | 0 <= i < n ensures steps[i].key != k {
      assert Step(steps[i].key, steps[i].action) == steps[i] && steps[i] in steps;
    }
  }

  // What the run leaves at each key: the result of its own action, or what
  // was there, if it has none, is cancelled, or goes the other way.
  lemma RunLeaves(local: map<string, Entry>, actions: map<string, Action>, mode: Engine.Mode, steps: seq<Step>,
                  c: string -> Setup, k: string)
    requires PlannedActions(actions, local) && RunSteps(steps, actions, local, mode)
    ensures Lookup(After(local, steps, c), k)
            == if k in actions && !Cancelled(k, actions, local) && Engine.Allowed(mode, actions[k].kind)
               then LocalStep(View(Lookup(local, k), None, None, {}), actions[k], c(k)).disk
               else Lookup(local, k)
  {
    hide LocalStep, Cancelled, Before, Engine.Allowed;
    AfterPerKey(local, steps, c, k);
    if k in actions && !Cancelled(k, actions, local) && Engine.Allowed(mode, actions[k].kind) {
      assert Step(k, actions[k]) in steps;
    } else {
      forall i | 0 <= i < |steps| ensures steps[i].key != k {
        assert Step(steps[i].key, steps[i].action) == steps[i] && steps[i] in steps;
      }
    }
  }

  predicate WritesNode(a: Action, n: Node) {
    && Writes(a) && a.remote.Some? && a.remote.value.body.Live? && NodeOf(a.remote.value.body.entry) == n
  }

  // The order: removals before everything written, an inner entry before the
  // one it lies in, files before links, both by their keys, and last what
  // changes no file here.
  lemma OrderOfSteps(steps: seq<Step>, i: nat, j: nat)
    requires AllSortable(steps) && Sorted(steps) && i < |steps| && j < |steps|
    requires var x, y := steps[i], steps[j];
             || (x.action.kind == RemoveLocal && Writes(y.action))
             || (x.action.kind == RemoveLocal && y.action.kind == RemoveLocal && Below(x.key, y.key))
             || (WritesNode(x.action, FileNode) && y.action.kind == Download && WritesNode(y.action, LinkNode))
             || (WritesNode(x.action, FileNode) && WritesNode(y.action, FileNode) && Less(x.key, y.key))
             || ((x.action.kind == RemoveLocal || x.action.kind == Download)
                 && y.action.kind !in {RemoveLocal, Download, Merge})
    ensures i < j
  {
    var x, y := steps[i], steps[j];
    if Below(x.key, y.key) { PrefixIsLess(y.key, x.key); }
    if x.key == y.key { LessIsTotal(x.key, y.key); }
    assert Before(x, y);
    BeforeIsStrict(x, y);
    if i == j { BeforeIsStrict(x, x); }
  }

  lemma {:induction false} PrefixIsLess(x: string, y: string)
    requires x + "/" <= y
    ensures Less(x, y)
  {
    if x != "" {
      assert y[..|x| + 1] == x + "/";
      assert y[1..][..|x|] == x[1..] + "/";
      PrefixIsLess(x[1..], y[1..]);
    }
  }
}
