// internal/engine/backup.go: what a run records before it touches a path, and
// undoing the run from that.
module Backup {
  import opened Options

  type Path = seq<string>

  datatype Leaf = FileLeaf(data: string, mode: nat) | LinkLeaf(target: string)

  // Files and links by path. A directory is where something lies inside it.
  type Files = map<Path, Leaf>

  // A path's saved content. The copy of a directory keeps what lies in it.
  datatype Saved = Absent | AFile(data: string, mode: nat) | ALink(target: string) | ADir(tree: Files)

  datatype Item = Item(path: Path, saved: Saved)

  // Nothing lies inside a file or a link.
  ghost predicate Shaped(fs: Files) {
    forall p, q :: p in fs && q in fs ==> !(p < q)
  }

  // A file or a link stands where a directory above p would have to be.
  predicate Blocked(fs: Files, p: Path) {
    exists a :: a in fs && a < p
  }

  function Copied(fs: Files, p: Path): Saved {
    if p in fs then
      match fs[p]
      case FileLeaf(d, m) => AFile(d, m)
      case LinkLeaf(t) => ALink(t)
    else
      var tree := map q | q in fs && p < q :: fs[q];
      if tree == map[] then Absent else ADir(tree)
  }

  function Cleared(fs: Files, p: Path): Files {
    map q | q in fs && !(p <= q) :: fs[q]
  }

  function Restored(fs: Files, item: Item): Files {
    var rest := Cleared(fs, item.path);
    match item.saved
    case Absent => rest
    case AFile(d, m) => rest[item.path := FileLeaf(d, m)]
    case ALink(t) => rest[item.path := LinkLeaf(t)]
    case ADir(tree) => rest + tree
  }

  datatype Outcome = Outcome(fs: Files, ok: bool)

  // Every saved path is put back, newest first, up to the first that fails.
  function RestoredAll(fs: Files, items: seq<Item>): Outcome
    decreases |items|
  {
    if items == [] then Outcome(fs, true)
    else
      var n := |items| - 1;
      if Blocked(fs, items[n].path) then Outcome(fs, false)
      else RestoredAll(Restored(fs, items[n]), items[..n])
  }

  // ------------------------------------------------------------- histories

  datatype Event = Save(path: Path) | Change(to: Files)

  predicate Covered(q: Path, items: seq<Item>) {
    exists i :: 0 <= i < |items| && items[i].path <= q
  }

  ghost predicate SameOutside(a: Files, b: Files, items: seq<Item>) {
    forall q :: !Covered(q, items) ==> Lookup(a, q) == Lookup(b, q)
  }

  function FilesAfter(fs: Files, h: seq<Event>): Files {
    if h == [] then fs
    else
      match h[|h| - 1]
      case Save(_) => FilesAfter(fs, h[..|h| - 1])
      case Change(to) => to
  }

  function ItemsAfter(fs: Files, h: seq<Event>): seq<Item> {
    if h == [] then []
    else
      var init := h[..|h| - 1];
      match h[|h| - 1]
      case Save(p) => ItemsAfter(fs, init) + [Item(p, Copied(FilesAfter(fs, init), p))]
      case Change(_) => ItemsAfter(fs, init)
  }

  // Saves that succeed, and changes at or below paths saved before.
  ghost predicate History(fs: Files, h: seq<Event>) {
    if h == [] then Shaped(fs)
    else
      var init := h[..|h| - 1];
      && History(fs, init)
      && match h[|h| - 1]
         case Save(p) => !Blocked(FilesAfter(fs, init), p)
         case Change(to) => Shaped(to) && SameOutside(FilesAfter(fs, init), to, ItemsAfter(fs, init))
  }

  lemma {:induction false} HistoryIsShaped(fs: Files, h: seq<Event>)
    requires History(fs, h)
    ensures Shaped(FilesAfter(fs, h))
  {
    if h != [] { HistoryIsShaped(fs, h[..|h| - 1]); }
  }

  lemma LookupsEqual(a: Files, b: Files)
    requires forall q :: Lookup(a, q) == Lookup(b, q)
    ensures a == b
  {
    forall q ensures q in a <==> q in b { assert Lookup(a, q) == Lookup(b, q); }
    forall q | q in a ensures a[q] == b[q] { assert Lookup(a, q) == Lookup(b, q); }
  }

  // Putting a path back makes everything at or below it what it was.
  lemma RestoredAsSaved(now: Files, was: Files, p: Path, q: Path)
    requires Shaped(was)
    ensures Lookup(Restored(now, Item(p, Copied(was, p))), q) == if p <= q then Lookup(was, q) else Lookup(now, q)
  {
    var s := Copied(was, p);
    assert p <= q && p != q ==> p < q by { if p <= q && |p| == |q| { assert p == q; } }
    if s.ADir? {
      assert q in s.tree <==> q in was && p < q;
    } else if s.Absent? {
      var tree := map q | q in was && p < q :: was[q];
      assert q !in tree;
    }
  }

  // ------------------------------------------------------ the exact inverse

  // From any disk that differs from the end of a history only at or below the
  // saved paths, putting all of them back gives the disk of the beginning.
  lemma {:induction false} RestoreUndoes(fs: Files, h: seq<Event>, now: Files)
    requires History(fs, h) && SameOutside(now, FilesAfter(fs, h), ItemsAfter(fs, h))
    ensures var o := RestoredAll(now, ItemsAfter(fs, h)); o.ok ==> o.fs == fs
    decreases |h|
  {
    hide Copied, Restored, Blocked;
    if h == [] {
      forall q ensures Lookup(now, q) == Lookup(fs, q) { assert !Covered(q, []); }
      LookupsEqual(now, fs);
    } else {
      var init := h[..|h| - 1];
      var mid, items := FilesAfter(fs, init), ItemsAfter(fs, init);
      match h[|h| - 1]
      case Change(to) =>
        RestoreUndoes(fs, init, now);
      case Save(p) =>
        HistoryIsShaped(fs, init);
        var item := Item(p, Copied(mid, p));
        var all := items + [item];
        assert all[..|all| - 1] == items;
        forall q | !Covered(q, items) ensures Lookup(Restored(now, item), q) == Lookup(mid, q) {
          RestoredAsSaved(now, mid, p, q);
          CoveredSnoc(q, items, item);
        }
        RestoreUndoes(fs, init, Restored(now, item));
    }
  }

  lemma CoveredSnoc(q: Path, items: seq<Item>, item: Item)
    ensures Covered(q, items + [item]) <==> Covered(q, items) || item.path <= q
  {
    var all := items + [item];
    assert all[|items|] == item;
    if Covered(q, items) {
      var i :| 0 <= i < |items| && items[i].path <= q;
      assert all[i].path <= q;
    }
  }

  // A run that is undone leaves the disk as it was before the first save.
  lemma UndoIsExact(fs: Files, h: seq<Event>)
    requires History(fs, h) && RestoredAll(FilesAfter(fs, h), ItemsAfter(fs, h)).ok
    ensures RestoredAll(FilesAfter(fs, h), ItemsAfter(fs, h)).fs == fs
  {
    RestoreUndoes(fs, h, FilesAfter(fs, h));
  }

  // --------------------------------------------------- when an undo succeeds

  // No path was saved inside one saved before it.
  ghost predicate NoneInside(paths: seq<Path>) {
    forall i, j :: 0 <= j < i < |paths| ==> !(paths[j] < paths[i])
  }

  function SavedPaths(h: seq<Event>): seq<Path> {
    if h == [] then []
    else
      match h[|h| - 1]
      case Save(p) => SavedPaths(h[..|h| - 1]) + [p]
      case Change(_) => SavedPaths(h[..|h| - 1])
  }

  lemma {:induction false} ItemPaths(fs: Files, h: seq<Event>)
    ensures |ItemsAfter(fs, h)| == |SavedPaths(h)|
    ensures forall i :: 0 <= i < |SavedPaths(h)| ==> ItemsAfter(fs, h)[i].path == SavedPaths(h)[i]
  {
    if h != [] { ItemPaths(fs, h[..|h| - 1]); }
  }

  lemma {:induction false} UnnestedSucceeds(fs: Files, h: seq<Event>, now: Files)
    requires History(fs, h) && SameOutside(now, FilesAfter(fs, h), ItemsAfter(fs, h))
    requires NoneInside(SavedPaths(h))
    ensures RestoredAll(now, ItemsAfter(fs, h)).ok
    decreases |h|
  {
    hide Copied, Restored;
    if h != [] {
      var init := h[..|h| - 1];
      var mid, items := FilesAfter(fs, init), ItemsAfter(fs, init);
      assert NoneInside(SavedPaths(init)) by { InitUnnested(h); }
      match h[|h| - 1]
      case Change(to) =>
        UnnestedSucceeds(fs, init, now);
      case Save(p) =>
        HistoryIsShaped(fs, init);
        var item := Item(p, Copied(mid, p));
        var all := items + [item];
        assert all[..|all| - 1] == items;
        forall q | !Covered(q, items) ensures Lookup(Restored(now, item), q) == Lookup(mid, q) {
          RestoredAsSaved(now, mid, p, q);
          CoveredSnoc(q, items, item);
        }
        NotBlockedByOthers(fs, h, now);
        UnnestedSucceeds(fs, init, Restored(now, item));
    }
  }

  lemma InitUnnested(h: seq<Event>)
    requires h != [] && NoneInside(SavedPaths(h))
    ensures NoneInside(SavedPaths(h[..|h| - 1]))
  {
    var s, t := SavedPaths(h), SavedPaths(h[..|h| - 1]);
    forall i, j | 0 <= j < i < |t| ensures !(t[j] < t[i]) {
      assert s[j] == t[j] && s[i] == t[i];
    }
  }

  lemma PrefixChain(x: Path, a: Path, p: Path)
    requires a < p
    ensures x <= a ==> x < p
  {
  }

  // What stands above a path saved last is as it was when the path was saved.
  lemma NotBlockedByOthers(fs: Files, h: seq<Event>, now: Files)
    requires History(fs, h) && h != [] && h[|h| - 1].Save? && NoneInside(SavedPaths(h))
    requires SameOutside(now, FilesAfter(fs, h), ItemsAfter(fs, h))
    ensures !Blocked(now, h[|h| - 1].path)
  {
    var p, s := h[|h| - 1].path, SavedPaths(h);
    ItemPaths(fs, h);
    forall a | a < p ensures a !in now {
      assert s[|s| - 1] == p;
      forall i | 0 <= i < |s| ensures !(s[i] <= a) { PrefixChain(s[i], a, p); }
      assert Lookup(now, a) == Lookup(FilesAfter(fs, h), a);
    }
  }

  // A run that only saves, in this order.
  function Saves(ps: seq<Path>): seq<Event> {
    if ps == [] then [] else Saves(ps[..|ps| - 1]) + [Save(ps[|ps| - 1])]
  }

  ghost predicate SavedMore(fs: Files, h: seq<Event>, more: seq<Event>, ps: seq<Path>) {
    && History(fs, more) && FilesAfter(fs, more) == FilesAfter(fs, h)
    && SavedPaths(more) == SavedPaths(h) + ps
    && (RestoredAll(FilesAfter(fs, h), ItemsAfter(fs, more)).ok ==>
          RestoredAll(FilesAfter(fs, h), ItemsAfter(fs, h)).ok)
  }

  // One more save of a disk that did not change.
  lemma SaveStep(fs: Files, h: seq<Event>, more: seq<Event>, ps: seq<Path>, p: Path)
    requires SavedMore(fs, h, more, ps) && !Blocked(FilesAfter(fs, h), p)
    ensures SavedMore(fs, h, more + [Save(p)], ps + [p])
  {
    hide Copied, Restored, Blocked;
    var all := more + [Save(p)];
    assert all[..|all| - 1] == more;
    var disk, items := FilesAfter(fs, h), ItemsAfter(fs, more);
    var item := Item(p, Copied(disk, p));
    assert (items + [item])[..|items|] == items;
    HistoryIsShaped(fs, more);
    RestoredToItself(disk, p);
  }

  // After a history, more saves of a disk that no longer changes.
  lemma {:induction false} SavesOnly(fs: Files, h: seq<Event>, ps: seq<Path>)
    requires History(fs, h) && forall p :: p in ps ==> !Blocked(FilesAfter(fs, h), p)
    ensures SavedMore(fs, h, h + Saves(ps), ps)
  {
    if ps == [] {
      assert h + [] == h;
    } else {
      var n := |ps| - 1;
      assert ps == ps[..n] + [ps[n]];
      assert h + Saves(ps) == h + Saves(ps[..n]) + [Save(ps[n])];
      hide *;
      SavesOnly(fs, h, ps[..n]);
      SaveStep(fs, h, h + Saves(ps[..n]), ps[..n], ps[n]);
    }
  }

  lemma RestoredToItself(disk: Files, p: Path)
    requires Shaped(disk)
    ensures Restored(disk, Item(p, Copied(disk, p))) == disk
  {
    hide Copied, Restored;
    forall q ensures Lookup(Restored(disk, Item(p, Copied(disk, p))), q) == Lookup(disk, q) {
      RestoredAsSaved(disk, disk, p, q);
    }
    LookupsEqual(Restored(disk, Item(p, Copied(disk, p))), disk);
  }

  // The directory at p replaced by a file.
  function FileAt(fs: Files, p: Path): Files {
    Cleared(fs, p)[p := FileLeaf("", 0)]
  }

  lemma FileAtShape(fs: Files, p: Path)
    requires Shaped(fs) && !Blocked(fs, p)
    ensures Shaped(FileAt(fs, p))
    ensures forall q :: !(p <= q) ==> Lookup(FileAt(fs, p), q) == Lookup(fs, q)
    ensures forall q :: Blocked(FileAt(fs, p), q) ==> Blocked(fs, q) || p < q
    ensures forall q :: p < q ==> Blocked(FileAt(fs, p), q)
  {
    var to := FileAt(fs, p);
    forall q | Blocked(to, q) ensures Blocked(fs, q) || p < q {
      var a :| a in to && a < q;
      if a != p { assert a in fs && a < q; }
    }
    forall q | p < q ensures Blocked(to, q) { assert p in to; }
    assert p <= p;
  }

  lemma SavedOf(fs: Files, h: seq<Event>, more: seq<Event>, ps: seq<Path>)
    requires SavedMore(fs, h, more, ps)
    ensures History(fs, more) && FilesAfter(fs, more) == FilesAfter(fs, h) && SavedPaths(more) == SavedPaths(h) + ps
  {
  }

  lemma OutsideOne(a: Files, b: Files, items: seq<Item>, j: nat)
    requires j < |items| && forall q :: !(items[j].path <= q) ==> Lookup(b, q) == Lookup(a, q)
    ensures SameOutside(a, b, items)
  {
  }

  lemma ChangeStep(fs: Files, h: seq<Event>, to: Files)
    requires History(fs, h) && Shaped(to) && SameOutside(FilesAfter(fs, h), to, ItemsAfter(fs, h))
    ensures var more := h + [Change(to)];
            && History(fs, more) && FilesAfter(fs, more) == to
            && ItemsAfter(fs, more) == ItemsAfter(fs, h) && SavedPaths(more) == SavedPaths(h)
  {
    var more := h + [Change(to)];
    assert more[..|more| - 1] == h;
  }

  // The outer path saved, then the inner one, then the outer directory
  // becomes a file.
  lemma ChangedAfter(fs: Files, ps: seq<Path>, j: nat)
    requires Shaped(fs) && (forall p :: p in ps ==> !Blocked(fs, p)) && j < |ps| && ps[j] < ps[|ps| - 1]
    ensures var h := Saves(ps) + [Change(FileAt(fs, ps[j]))];
            && History(fs, h) && SavedPaths(h) == ps && FilesAfter(fs, h) == FileAt(fs, ps[j])
            && !RestoredAll(FileAt(fs, ps[j]), ItemsAfter(fs, h)).ok
  {
    var to, saved := FileAt(fs, ps[j]), Saves(ps);
    FileAtShape(fs, ps[j]);
    assert History(fs, []) && FilesAfter(fs, []) == fs && SavedPaths([]) == [];
    hide *;
    SavesOnly(fs, [], ps);
    assert [] + saved == saved && [] + ps == ps;
    SavedOf(fs, [], saved, ps);
    ItemPaths(fs, saved);
    OutsideAndBlocked(fs, to, ItemsAfter(fs, saved), ps, j);
    ChangeStep(fs, saved, to);
  }

  // The inner path, saved last, is blocked by the file its outer one became.
  lemma OutsideAndBlocked(fs: Files, to: Files, items: seq<Item>, ps: seq<Path>, j: nat)
    requires |items| == |ps| && (forall i :: 0 <= i < |ps| ==> items[i].path == ps[i]) && j < |ps|
    requires (forall q :: !(ps[j] <= q) ==> Lookup(to, q) == Lookup(fs, q)) && Blocked(to, ps[|ps| - 1])
    ensures SameOutside(fs, to, items) && !RestoredAll(to, items).ok
  {
    hide *;
    OutsideOne(fs, to, items, j);
    LastBlocked(to, items);
  }

  lemma LastBlocked(now: Files, items: seq<Item>)
    requires items != [] && Blocked(now, items[|items| - 1].path)
    ensures !RestoredAll(now, items).ok
  {
  }

  lemma SavedFails(fs: Files, h: seq<Event>, more: seq<Event>, ps: seq<Path>)
    requires SavedMore(fs, h, more, ps) && !RestoredAll(FilesAfter(fs, h), ItemsAfter(fs, h)).ok
    ensures !RestoredAll(FilesAfter(fs, more), ItemsAfter(fs, more)).ok
  {
    hide RestoredAll, ItemsAfter, FilesAfter, History, SavedPaths;
  }

  // Where a path was saved inside one saved before, some run that saves these
  // paths cannot be undone.
  lemma NestedCanFail(fs: Files, ps: seq<Path>) returns (h: seq<Event>)
    requires Shaped(fs) && (forall p :: p in ps ==> !Blocked(fs, p)) && !NoneInside(ps)
    ensures History(fs, h) && SavedPaths(h) == ps && !RestoredAll(FilesAfter(fs, h), ItemsAfter(fs, h)).ok
  {
    var i := LastNested(ps);
    var j: nat :| j < i && ps[j] < ps[i];
    RestIsFree(fs, ps, i, j);
    FirstAreFree(fs, ps, i, j);
    hide *;
    h := NestedFails(fs, ps[..i + 1], ps[i + 1..], j);
    assert ps[..i + 1] + ps[i + 1..] == ps;
  }

  lemma NestedFails(fs: Files, first: seq<Path>, rest: seq<Path>, j: nat) returns (h: seq<Event>)
    requires Shaped(fs) && (forall p :: p in first ==> !Blocked(fs, p)) && j < |first| && first[j] < first[|first| - 1]
    requires forall p :: p in rest ==> !Blocked(FileAt(fs, first[j]), p)
    ensures History(fs, h) && SavedPaths(h) == first + rest
    ensures !RestoredAll(FilesAfter(fs, h), ItemsAfter(fs, h)).ok
  {
    hide *;
    ChangedAfter(fs, first, j);
    var changed := Saves(first) + [Change(FileAt(fs, first[j]))];
    SavesOnly(fs, changed, rest);
    h := changed + Saves(rest);
    SavedOf(fs, changed, h, rest);
    SavedFails(fs, changed, h, rest);
  }

  lemma FirstAreFree(fs: Files, ps: seq<Path>, i: nat, j: nat)
    requires (forall p :: p in ps ==> !Blocked(fs, p)) && j < i < |ps| && ps[j] < ps[i]
    ensures var first := ps[..i + 1];
            (forall p :: p in first ==> !Blocked(fs, p)) && first[j] == ps[j] && first[j] < first[|first| - 1]
  {
    hide Blocked;
  }

  lemma {:induction false} RestIsFree(fs: Files, ps: seq<Path>, i: nat, j: nat)
    requires Shaped(fs) && (forall p :: p in ps ==> !Blocked(fs, p)) && j < i < |ps|
    requires forall k, j :: i < k < |ps| && 0 <= j < k ==> !(ps[j] < ps[k])
    ensures forall p :: p in ps[i + 1..] ==> !Blocked(FileAt(fs, ps[j]), p)
  {
    hide Blocked, FileAt;
    FileAtShape(fs, ps[j]);
    var rest := ps[i + 1..];
    forall p | p in rest ensures !Blocked(FileAt(fs, ps[j]), p) {
      var k :| 0 <= k < |rest| && rest[k] == p;
      assert ps[i + 1 + k] == p;
    }
  }

  lemma {:induction false} LastNested(ps: seq<Path>) returns (i: nat)
    requires !NoneInside(ps)
    ensures i < |ps| && exists j :: 0 <= j < i && ps[j] < ps[i]
    ensures forall k, j :: i < k < |ps| && 0 <= j < k ==> !(ps[j] < ps[k])
  {
    var n := |ps| - 1;
    if exists j :: 0 <= j < n && ps[j] < ps[n] {
      i := n;
    } else {
      assert !NoneInside(ps[..n]) by {
        var a, b :| 0 <= b < a < |ps| && ps[b] < ps[a];
        assert ps[..n][b] < ps[..n][a];
      }
      i := LastNested(ps[..n]);
      forall k, j | i < k < |ps| && 0 <= j < k ensures !(ps[j] < ps[k]) {
        if k < n { assert ps[..n][j] == ps[j] && ps[..n][k] == ps[k]; }
      }
      var j :| 0 <= j < i && ps[..n][j] < ps[..n][i];
      assert ps[j] < ps[i];
    }
  }

  ghost predicate AlwaysUndoable(fs: Files, ps: seq<Path>) {
    forall h :: History(fs, h) && SavedPaths(h) == ps ==> RestoredAll(FilesAfter(fs, h), ItemsAfter(fs, h)).ok
  }

  // The runs that save these paths can all be undone exactly when no path is
  // saved inside one saved before it.
  lemma UndoSucceedsExactly(fs: Files, ps: seq<Path>)
    requires Shaped(fs) && forall p :: p in ps ==> !Blocked(fs, p)
    ensures AlwaysUndoable(fs, ps) <==> NoneInside(ps)
  {
    if NoneInside(ps) {
      forall h | History(fs, h) && SavedPaths(h) == ps
        ensures RestoredAll(FilesAfter(fs, h), ItemsAfter(fs, h)).ok
      {
        UnnestedSucceeds(fs, h, FilesAfter(fs, h));
      }
    } else {
      var h := NestedCanFail(fs, ps);
    }
  }

  // ------------------------------------------------------- run after run

  function FilesThrough(fs: Files, runs: seq<seq<Event>>): Files {
    if runs == [] then fs else FilesAfter(FilesThrough(fs, runs[..|runs| - 1]), runs[|runs| - 1])
  }

  ghost predicate Runs(fs: Files, runs: seq<seq<Event>>) {
    runs == [] || (Runs(fs, runs[..|runs| - 1]) && History(FilesThrough(fs, runs[..|runs| - 1]), runs[|runs| - 1]))
  }

  // Undo the newest run, then the one before it, and so on.
  function UndoneThrough(fs: Files, runs: seq<seq<Event>>, now: Files): Outcome
    decreases |runs|
  {
    if runs == [] then Outcome(now, true)
    else
      var init := runs[..|runs| - 1];
      var o := RestoredAll(now, ItemsAfter(FilesThrough(fs, init), runs[|runs| - 1]));
      if !o.ok then o else UndoneThrough(fs, init, o.fs)
  }

  lemma {:induction false} UndoWorksBack(fs: Files, runs: seq<seq<Event>>)
    requires Runs(fs, runs) && UndoneThrough(fs, runs, FilesThrough(fs, runs)).ok
    ensures UndoneThrough(fs, runs, FilesThrough(fs, runs)).fs == fs
  {
    if runs != [] {
      var init := runs[..|runs| - 1];
      UndoIsExact(FilesThrough(fs, init), runs[|runs| - 1]);
      UndoWorksBack(fs, init);
    }
  }

  // ------------------------------------------------------- the backup sets

  class Disk {
    var files: Files

    constructor (files: Files)
      ensures this.files == files
    {
      this.files := files;
    }
  }

  class BackupSet {
    const id: string
    var items: seq<Item>
    var undone: bool

    constructor (id: string)
      ensures this.id == id && items == [] && !undone
    {
      this.id := id;
      items := [];
      undone := false;
    }

    // Fails, and records nothing, where a file or a link stands above p.
    method Save(disk: Disk, p: Path) returns (ok: bool)
      modifies this`items
      ensures ok == !Blocked(disk.files, p)
      ensures items == if ok then old(items) + [Item(p, Copied(disk.files, p))] else old(items)
    {
      if Blocked(disk.files, p) { return false; }
      items := items + [Item(p, Copied(disk.files, p))];
      return true;
    }

    method RestoreAll(disk: Disk) returns (ok: bool)
      modifies disk
      ensures Outcome(disk.files, ok) == RestoredAll(old(disk.files), items)
    {
      var i := |items|;
      assert items[..i] == items;
      while i > 0
        invariant 0 <= i <= |items|
        invariant RestoredAll(disk.files, items[..i]) == RestoredAll(old(disk.files), items)
      {
        i := i - 1;
        assert items[..i + 1][..i] == items[..i];
        if Blocked(disk.files, items[i].path) { return false; }
        disk.files := Restored(disk.files, items[i]);
      }
      return true;
    }
  }

  datatype UndoError = UndoneAlready | NoSuchBackup | NothingToUndo | RestoreFailed

  // The newest match, unless it is undone already.
  method FindBackup(sets: seq<BackupSet>, id: string) returns (r: Result<BackupSet, UndoError>)
    ensures r.Ok? ==>
              exists i :: 0 <= i < |sets| && sets[i] == r.value && !sets[i].undone && (id != "" ==> sets[i].id == id)
                          && forall k :: i < k < |sets| ==> if id == "" then sets[k].undone else sets[k].id != id
    ensures r == Err(UndoneAlready) <==>
              id != "" && exists i :: 0 <= i < |sets| && sets[i].id == id && sets[i].undone
                                      && forall k :: i < k < |sets| ==> sets[k].id != id
    ensures r == Err(NoSuchBackup) <==> id != "" && forall i :: 0 <= i < |sets| ==> sets[i].id != id
    ensures r == Err(NothingToUndo) <==> id == "" && forall i :: 0 <= i < |sets| ==> sets[i].undone
    ensures r != Err(RestoreFailed)
  {
    var i := |sets|;
    while i > 0
      invariant 0 <= i <= |sets|
      invariant forall k :: i <= k < |sets| ==> if id == "" then sets[k].undone else sets[k].id != id
    {
      i := i - 1;
      if id == "" && !sets[i].undone { return Ok(sets[i]); }
      if id != "" && sets[i].id == id {
        if sets[i].undone { return Err(UndoneAlready); }
        return Ok(sets[i]);
      }
    }
    return Err(if id != "" then NoSuchBackup else NothingToUndo);
  }

  // Only a set whose paths were all put back is marked as undone.
  method Undo(sets: seq<BackupSet>, id: string, disk: Disk) returns (r: Result<BackupSet, UndoError>)
    modifies disk, set b | b in sets :: b`undone
    ensures r.Ok? ==> r.value in sets && !old(r.value.undone) && r.value.undone
                      && RestoredAll(old(disk.files), r.value.items) == Outcome(disk.files, true)
    ensures r.Err? && r.error != RestoreFailed ==> disk.files == old(disk.files)
    ensures r == Err(RestoreFailed) ==>
              exists b :: b in sets && RestoredAll(old(disk.files), b.items) == Outcome(disk.files, false)
    ensures forall b :: b in sets ==> b.items == old(b.items) && (r != Ok(b) ==> b.undone == old(b.undone))
  {
    var found := FindBackup(sets, id);
    if found.Err? { return found; }
    var ok := found.value.RestoreAll(disk);
    if !ok { return Err(RestoreFailed); }
    found.value.undone := true;
    return found;
  }
}
