// internal/storage/webdav/webdav.go: listing a WebDAV collection with one
// Depth: infinity request, or by walking it with Depth: 1 requests.
module WebDav {
  import opened Options
  import Layout

  type Key = string

  datatype Info = Info(key: Key, etag: string, size: nat)

  // One entry of a PROPFIND answer; an href outside the collection has no key.
  datatype Response = Response(key: Option<Key>, collection: bool, etag: string, size: nat)

  // What a PROPFIND of a collection comes to: a multi-status body, another
  // status, or no usable answer. A collection without an answer is a 404.
  datatype Answer = MultiStatus(responses: seq<Response>) | Status(code: nat) | Broken

  datatype Failure = HttpStatus(code: nat) | Unusable

  type Answers = map<Key, Answer>

  predicate Missing(answers: Answers, d: Key) {
    d !in answers || answers[d] == Status(404)
  }

  predicate Fails(answers: Answers, d: Key) {
    !Missing(answers, d) && !answers[d].MultiStatus?
  }

  predicate IsObject(r: Response) {
    !r.collection && r.key.Some? && r.key.value != ""
  }

  predicate IsInner(r: Response) {
    r.collection && r.key.Some? && r.key.value != ""
  }

  function Objects(rs: seq<Response>): seq<Info> {
    if rs == [] then []
    else
      var r := rs[|rs| - 1];
      var init := Objects(rs[..|rs| - 1]);
      if IsObject(r) then init + [Info(r.key.value, r.etag, r.size)] else init
  }

  function Inner(rs: seq<Response>): seq<Key> {
    if rs == [] then []
    else
      var r := rs[|rs| - 1];
      var init := Inner(rs[..|rs| - 1]);
      if IsInner(r) then init + [r.key.value] else init
  }

  function Links(answers: Answers, d: Key): seq<Key> {
    if d in answers && answers[d].MultiStatus? then Inner(answers[d].responses) else []
  }

  function ObjectsAt(answers: Answers, d: Key): seq<Info> {
    if d in answers && answers[d].MultiStatus? then Objects(answers[d].responses) else []
  }

  function ObjectsOf(answers: Answers, order: seq<Key>): seq<Info> {
    if order == [] then [] else ObjectsOf(answers, order[..|order| - 1]) + ObjectsAt(answers, order[|order| - 1])
  }

  // ----------------------------------------------------------------- reach

  ghost predicate Chain(answers: Answers, p: seq<Key>) {
    p != [] && forall i :: 0 <= i < |p| - 1 ==> p[i + 1] in Links(answers, p[i])
  }

  ghost predicate Reaches(answers: Answers, start: Key, d: Key) {
    exists p :: Chain(answers, p) && p[0] == start && p[|p| - 1] == d
  }

  lemma ReachesItself(answers: Answers, start: Key)
    ensures Reaches(answers, start, start)
  {
    assert Chain(answers, [start]) && [start][0] == start;
  }

  lemma ReachesOn(answers: Answers, start: Key, d: Key, c: Key)
    requires Reaches(answers, start, d) && c in Links(answers, d)
    ensures Reaches(answers, start, c)
  {
    var p :| Chain(answers, p) && p[0] == start && p[|p| - 1] == d;
    var q := p + [c];
    assert Chain(answers, q) && q[0] == start && q[|q| - 1] == c;
  }

  ghost predicate Closed(answers: Answers, seen: set<Key>) {
    forall d, c :: d in seen && c in Links(answers, d) ==> c in seen
  }

  lemma {:induction false} ChainStaysInside(answers: Answers, seen: set<Key>, p: seq<Key>)
    requires Closed(answers, seen) && Chain(answers, p) && p[0] in seen
    ensures p[|p| - 1] in seen
    decreases |p|
  {
    if |p| > 1 {
      var init := p[..|p| - 1];
      assert Chain(answers, init);
      ChainStaysInside(answers, seen, init);
      assert p[|p| - 2 + 1] in Links(answers, p[|p| - 2]);
    }
  }

  // ------------------------------------------------------------- the walk

  ghost predicate NoRepeats(order: seq<Key>) {
    forall i, j :: 0 <= i < j < |order| ==> order[i] != order[j]
  }

  // A walk that ends well asks each collection it can reach exactly once and
  // lists what they answer; it fails exactly when one of them does.
  ghost predicate Walked(answers: Answers, start: Key, order: seq<Key>) {
    && NoRepeats(order)
    && forall d :: d in order <==> Reaches(answers, start, d) && !Missing(answers, d)
  }

  method ListRecursive(answers: Answers, start: Key) returns (r: Result<seq<Info>, Failure>, ghost order: seq<Key>)
    ensures r.Ok? ==> Walked(answers, start, order) && r.value == ObjectsOf(answers, order)
    ensures r.Err? <==> exists d :: Reaches(answers, start, d) && Fails(answers, d)
    ensures r.Err? ==> exists d :: Reaches(answers, start, d) && Fails(answers, d) && r.error == FailureOf(answers[d])
  {
    hide Inner, Objects, Reaches, Progress, Walked, ObjectsOf;
    var objects: seq<Info> := [];
    var queue := [start];
    var visited: set<Key> := {};
    order := [];
    ProgressStarts(answers, start);
    while queue != []
      invariant Progress(answers, start, queue, visited, order)
      invariant objects == ObjectsOf(answers, order)
      decreases |answers.Keys - visited|, |queue|
    {
      var d := queue[0];
      ghost var before := queue;
      queue := queue[1..];
      if d in visited {
        SkipStep(answers, start, before, visited, order);
        continue;
      }
      ghost var seen := visited;
      visited := visited + {d};
      if d in answers { FewerLeft(answers, seen, d); } else { assert answers.Keys - visited == answers.Keys - seen; }
      if Missing(answers, d) {
        MissingStep(answers, start, before, seen, order);
        continue;
      }
      if !answers[d].MultiStatus? {
        QueuedIsReached(answers, start, before, seen, order);
        return Err(FailureOf(answers[d])), order;
      }
      objects, queue := ReadResponses(answers[d].responses, objects, queue);
      VisitStep(answers, start, before, seen, order);
      ObjectsOneMore(answers, order, d);
      order := order + [d];
    }
    AllVisited(answers, start, visited, order);
    return Ok(objects), order;
  }

  function FailureOf(a: Answer): Failure
    requires !a.MultiStatus?
  {
    if a.Broken? then Unusable else HttpStatus(a.code)
  }

  lemma FewerLeft(answers: Answers, seen: set<Key>, d: Key)
    requires d in answers && d !in seen
    ensures |answers.Keys - (seen + {d})| < |answers.Keys - seen|
  {
    assert answers.Keys - seen == (answers.Keys - (seen + {d})) + {d};
  }

  method ReadResponses(rs: seq<Response>, objects0: seq<Info>, queue0: seq<Key>)
    returns (objects: seq<Info>, queue: seq<Key>)
    ensures objects == objects0 + Objects(rs) && queue == queue0 + Inner(rs)
  {
    objects, queue := objects0, queue0;
    for i := 0 to |rs|
      invariant objects == objects0 + Objects(rs[..i]) && queue == queue0 + Inner(rs[..i])
    {
      assert rs[..i + 1][..i] == rs[..i];
      var r := rs[i];
      if r.key.None? || r.key.value == "" { continue; }
      if r.collection {
        queue := queue + [r.key.value];
        continue;
      }
      objects := objects + [Info(r.key.value, r.etag, r.size)];
    }
    assert rs[..|rs|] == rs;
  }

  // What the walk keeps: everything queued or visited can be reached, what a
  // visited collection names is visited or queued, and no visit failed.
  ghost predicate Progress(answers: Answers, start: Key, queue: seq<Key>, visited: set<Key>, order: seq<Key>) {
    && (forall d :: d in queue || d in visited ==> Reaches(answers, start, d))
    && (start in queue || start in visited)
    && (forall d, c :: d in visited && c in Links(answers, d) ==> c in visited || c in queue)
    && (forall d :: d in visited ==> !Fails(answers, d))
    && NoRepeats(order) && (forall d :: d in order <==> d in visited && !Missing(answers, d))
  }

  lemma ProgressStarts(answers: Answers, start: Key)
    ensures Progress(answers, start, [start], {}, []) && ObjectsOf(answers, []) == []
  {
    ReachesItself(answers, start);
    hide Reaches, Links;
  }

  lemma QueuedIsReached(answers: Answers, start: Key, queue: seq<Key>, visited: set<Key>, order: seq<Key>)
    requires Progress(answers, start, queue, visited, order) && queue != []
    ensures Reaches(answers, start, queue[0])
  {
    hide Reaches, Links;
  }

  lemma ObjectsOneMore(answers: Answers, order: seq<Key>, d: Key)
    ensures ObjectsOf(answers, order + [d]) == ObjectsOf(answers, order) + ObjectsAt(answers, d)
  {
    assert (order + [d])[..|order|] == order;
  }

  lemma SkipStep(answers: Answers, start: Key, queue: seq<Key>, visited: set<Key>, order: seq<Key>)
    requires Progress(answers, start, queue, visited, order) && queue != [] && queue[0] in visited
    ensures Progress(answers, start, queue[1..], visited, order)
  {
    hide Links, Reaches;
    assert forall x :: x in queue <==> x == queue[0] || x in queue[1..];
  }

  lemma MissingStep(answers: Answers, start: Key, queue: seq<Key>, visited: set<Key>, order: seq<Key>)
    requires Progress(answers, start, queue, visited, order) && queue != [] && Missing(answers, queue[0])
    ensures Progress(answers, start, queue[1..], visited + {queue[0]}, order)
  {
    hide Reaches;
    assert forall x :: x in queue <==> x == queue[0] || x in queue[1..];
    assert Links(answers, queue[0]) == [];
  }

  lemma VisitStep(answers: Answers, start: Key, queue: seq<Key>, visited: set<Key>, order: seq<Key>)
    requires Progress(answers, start, queue, visited, order) && queue != [] && queue[0] !in visited
    requires !Missing(answers, queue[0]) && !Fails(answers, queue[0])
    ensures Progress(answers, start, queue[1..] + Links(answers, queue[0]), visited + {queue[0]}, order + [queue[0]])
  {
    hide Reaches, Links;
    var d := queue[0];
    var more := queue[1..] + Links(answers, d);
    assert forall x :: x in queue <==> x == d || x in queue[1..];
    forall c | c in Links(answers, d) ensures Reaches(answers, start, c) { ReachesOn(answers, start, d, c); }
    assert forall x :: x in more <==> x in queue[1..] || x in Links(answers, d);
  }

  lemma AllVisited(answers: Answers, start: Key, visited: set<Key>, order: seq<Key>)
    requires Progress(answers, start, [], visited, order)
    ensures Walked(answers, start, order)
    ensures forall d :: Reaches(answers, start, d) ==> !Fails(answers, d)
  {
    hide Links;
    assert Closed(answers, visited);
    forall d | Reaches(answers, start, d) ensures d in visited {
      var p :| Chain(answers, p) && p[0] == start && p[|p| - 1] == d;
      ChainStaysInside(answers, visited, p);
    }
  }

  // --------------------------------------------------------- a served tree

  // The collection a key lies in; the configured collection itself is "".
  function Parent(k: Key): (p: Key)
    ensures k != "" ==> |p| < |k|
  {
    var n := Layout.LastSlash(k);
    if n == |k| then "" else k[..n]
  }

  predicate AtOrBelow(k: Key, d: Key) {
    k == d || d == "" || Layout.Below(k, d)
  }

  datatype Collections = Collections(colls: set<Key>, objects: set<Info>)

  ghost predicate Rooted(t: Collections) {
    && (forall k :: k in t.colls && k != "" ==> Parent(k) in t.colls)
    && (forall o :: o in t.objects ==> o.key != "" && Parent(o.key) in t.colls)
  }

  // An answer lists exactly these objects, each once.
  ghost predicate ListsOnce(os: seq<Info>, these: iset<Info>) {
    forall o :: multiset(os)[o] == if o in these then 1 else 0
  }

  ghost function ChildrenOf(t: Collections, d: Key): iset<Info> {
    iset o | o in t.objects && Parent(o.key) == d
  }

  ghost function AllBelow(t: Collections, d: Key): iset<Info> {
    iset o | o in t.objects && AtOrBelow(Parent(o.key), d)
  }

  ghost function WithPrefix(t: Collections, prefix: Key): iset<Info> {
    iset o | o in t.objects && prefix <= o.key
  }

  // Depth 1 names the children of a collection and, as a rule, itself.
  ghost predicate OneLevel(t: Collections, d: Key, rs: seq<Response>) {
    && ListsOnce(Objects(rs), ChildrenOf(t, d))
    && (forall c :: c in Inner(rs) ==> c == d || (c in t.colls && c != "" && Parent(c) == d))
    && (forall c :: c in t.colls && c != "" && Parent(c) == d ==> c in Inner(rs))
  }

  ghost predicate ServesOneLevel(answers: Answers, t: Collections) {
    && (forall d :: d in t.colls ==> d in answers && answers[d].MultiStatus? && OneLevel(t, d, answers[d].responses))
    && (forall d :: d !in t.colls ==> Missing(answers, d))
  }

  predicate InfinityUnsupported(code: nat) {
    code == 403 || code == 405 || code == 501 || code == 400
  }

  // Depth infinity lists everything at once, or is answered with an error.
  ghost predicate ServesAll(answers: Answers, t: Collections) {
    forall d ::
      if Fails(answers, d) then true
      else if d in t.colls then
        d in answers && answers[d].MultiStatus? && ListsOnce(Objects(answers[d].responses), AllBelow(t, d))
      else Missing(answers, d)
  }

  predicate Refused(answers: Answers, d: Key) {
    d in answers && answers[d].Status? && InfinityUnsupported(answers[d].code)
  }

  // An answer's objects and inner collections, entry by entry.
  lemma OneMoreResponse(rs: seq<Response>, r: Response)
    ensures Objects([]) == [] && Inner([]) == []
    ensures Objects(rs + [r]) == if r.collection || r.key.None? || r.key.value == "" then Objects(rs)
                                 else Objects(rs) + [Info(r.key.value, r.etag, r.size)]
    ensures Inner(rs + [r]) == if !r.collection || r.key.None? || r.key.value == "" then Inner(rs)
                               else Inner(rs) + [r.key.value]
  {
    assert (rs + [r])[..|rs|] == rs;
  }

  // Where a listing starts: the directory of the prefix.
  lemma StartsAt(dir: Key, name: string)
    requires '/' !in name
    ensures StartOf(dir + "/" + name) == dir && StartOf(name) == ""
  {
    var k := dir + "/" + name;
    assert k[|dir|] == '/' && forall i :: |dir| < i < |k| ==> k[i] == name[i - |dir| - 1];
    assert k[..|dir|] == dir;
  }

  // --------------------------------------------- the walk covers the tree

  lemma BelowParent(k: Key, d: Key)
    requires k != d && k != ""
    ensures AtOrBelow(Parent(k), d) <==> AtOrBelow(k, d)
  {
    var n := Layout.LastSlash(k);
    if Layout.Below(k, d) && d != "" {
      assert k[..|d| + 1] == d + "/" && k[|d|] == (d + "/")[|d|] == '/';
      assert |d| <= n;
      if |d| == n { assert Parent(k) == d; } else { assert k[..n][..|d| + 1] == d + "/"; }
    }
    if AtOrBelow(Parent(k), d) && d != "" {
      if Parent(k) == d { assert k[..n + 1] == d + "/"; } else { assert k[..n][..|d| + 1] == d + "/" == k[..|d| + 1]; }
    }
  }

  lemma {:induction false} ReachedIsBelow(t: Collections, answers: Answers, start: Key, p: seq<Key>)
    requires ServesOneLevel(answers, t) && Chain(answers, p) && p[0] == start
    ensures p[|p| - 1] == start || (p[|p| - 1] in t.colls && AtOrBelow(p[|p| - 1], start))
    decreases |p|
  {
    hide AtOrBelow, Parent, Inner, Objects;
    if |p| > 1 {
      var init := p[..|p| - 1];
      assert Chain(answers, init);
      ReachedIsBelow(t, answers, start, init);
      var d, c := p[|p| - 2], p[|p| - 1];
      assert p[|p| - 2 + 1] in Links(answers, d);
      ItselfIsBelow(start);
      LinkIsBelow(t, answers, start, d, c);
    }
  }

  lemma LinkIsBelow(t: Collections, answers: Answers, start: Key, d: Key, c: Key)
    requires ServesOneLevel(answers, t) && c in Links(answers, d) && AtOrBelow(d, start)
    ensures c == start || (c in t.colls && AtOrBelow(c, start))
  {
    hide Inner, Objects;
    assert d in t.colls && OneLevel(t, d, answers[d].responses) && c in Inner(answers[d].responses);
    if c != d && c != start { BelowParent(c, start); }
  }

  lemma {:induction false} BelowIsReached(t: Collections, answers: Answers, start: Key, k: Key)
    requires Rooted(t) && ServesOneLevel(answers, t) && k in t.colls && AtOrBelow(k, start)
    ensures Reaches(answers, start, k)
    decreases |k|
  {
    hide Inner, Objects, Reaches, AtOrBelow;
    if k == start {
      ReachesItself(answers, start);
    } else {
      EmptyIsTop(k, start);
      BelowParent(k, start);
      BelowIsReached(t, answers, start, Parent(k));
      assert OneLevel(t, Parent(k), answers[Parent(k)].responses);
      ReachesOn(answers, start, Parent(k), k);
    }
  }

  lemma EmptyIsTop(k: Key, d: Key)
    requires AtOrBelow(k, d) && k != d
    ensures k != ""
  {
  }

  // The collections a walk asks are those at or below its start.
  lemma WalkCoversTree(t: Collections, answers: Answers, start: Key, order: seq<Key>)
    requires Rooted(t) && ServesOneLevel(answers, t) && Walked(answers, start, order)
    ensures forall d :: d in order <==> d in t.colls && AtOrBelow(d, start)
  {
    hide AtOrBelow, Inner, Objects, OneLevel, Links;
    forall d ensures d in order <==> d in t.colls && AtOrBelow(d, start) {
      if d in order {
        var p :| Chain(answers, p) && p[0] == start && p[|p| - 1] == d;
        ReachedIsBelow(t, answers, start, p);
        ItselfIsBelow(start);
      }
      if d in t.colls && AtOrBelow(d, start) { BelowIsReached(t, answers, start, d); }
    }
  }

  lemma ItselfIsBelow(d: Key)
    ensures AtOrBelow(d, d)
  {
  }

  // Distinct collections have distinct children, so nothing is listed twice.
  lemma {:induction false} ListedByParent(t: Collections, answers: Answers, order: seq<Key>, o: Info)
    requires ServesOneLevel(answers, t) && NoRepeats(order) && (forall d :: d in order ==> d in t.colls)
    ensures multiset(ObjectsOf(answers, order))[o] == if o in t.objects && Parent(o.key) in order then 1 else 0
  {
    hide Objects, Inner, Parent;
    if order != [] {
      var n := |order| - 1;
      var init, d := order[..n], order[n];
      ListedByParent(t, answers, init, o);
      assert order == init + [d];
      assert d in order && OneLevel(t, d, answers[d].responses);
      assert o in ChildrenOf(t, d) <==> o in t.objects && Parent(o.key) == d;
      assert d !in init;
    }
  }

  // The walk lists each object below its start exactly once: what the
  // infinite answer lists.
  lemma WalkListsAll(t: Collections, answers: Answers, start: Key, order: seq<Key>)
    requires Rooted(t) && ServesOneLevel(answers, t) && Walked(answers, start, order)
    ensures ListsOnce(ObjectsOf(answers, order), AllBelow(t, start))
  {
    hide ServesOneLevel, AtOrBelow, ObjectsOf;
    WalkCoversTree(t, answers, start, order);
    forall o ensures multiset(ObjectsOf(answers, order))[o] == if o in AllBelow(t, start) then 1 else 0 {
      ListedByParent(t, answers, order, o);
    }
  }

  lemma WalkEqualsInfinity(t: Collections, answers: Answers, start: Key, order: seq<Key>, rs: seq<Response>)
    requires Rooted(t) && ServesOneLevel(answers, t) && Walked(answers, start, order)
    requires ListsOnce(Objects(rs), AllBelow(t, start))
    ensures multiset(ObjectsOf(answers, order)) == multiset(Objects(rs))
  {
    WalkListsAll(t, answers, start, order);
  }

  lemma WalkCannotFail(t: Collections, answers: Answers, start: Key)
    requires ServesOneLevel(answers, t)
    ensures forall d :: Reaches(answers, start, d) ==> !Fails(answers, d)
  {
  }

  // ------------------------------------------------------------------ List

  function Matching(os: seq<Info>, prefix: Key): seq<Info> {
    if os == [] then []
    else
      var o := os[|os| - 1];
      var init := Matching(os[..|os| - 1], prefix);
      if prefix <= o.key then init + [o] else init
  }

  lemma {:induction false} MatchingKeeps(os: seq<Info>, prefix: Key, o: Info)
    ensures multiset(Matching(os, prefix))[o] == if prefix <= o.key then multiset(os)[o] else 0
  {
    if os != [] {
      assert os == os[..|os| - 1] + [os[|os| - 1]];
      MatchingKeeps(os[..|os| - 1], prefix, o);
    }
  }

  // The deepest collection that holds every key with this prefix.
  function StartOf(prefix: Key): Key {
    var n := Layout.LastSlash(prefix);
    if n == |prefix| then "" else prefix[..n]
  }

  lemma PrefixIsBelow(prefix: Key, k: Key)
    requires prefix <= k && k != ""
    ensures AtOrBelow(Parent(k), StartOf(prefix))
  {
    var n := Layout.LastSlash(prefix);
    if n < |prefix| {
      assert k[..|prefix|] == prefix;
      assert k[..n + 1] == prefix[..n] + "/";
      var d := prefix[..n];
      assert k[n] == '/';
      assert n <= Layout.LastSlash(k);
      if Layout.LastSlash(k) == n { assert Parent(k) == d; } else { assert Parent(k)[..n + 1] == d + "/"; }
    }
  }

  lemma {:induction false} StartExists(t: Collections, k: Key, d: Key)
    requires Rooted(t) && k in t.colls && AtOrBelow(k, d)
    ensures d in t.colls
    decreases |k|
  {
    if k != d {
      EmptyIsTop(k, d);
      BelowParent(k, d);
      StartExists(t, Parent(k), d);
    }
  }

  lemma FilteredBelow(t: Collections, prefix: Key, os: seq<Info>)
    requires Rooted(t) && ListsOnce(os, AllBelow(t, StartOf(prefix)))
    ensures ListsOnce(Matching(os, prefix), WithPrefix(t, prefix))
  {
    hide Matching, AtOrBelow, StartOf;
    forall o ensures multiset(Matching(os, prefix))[o] == if o in WithPrefix(t, prefix) then 1 else 0 {
      MatchingKeeps(os, prefix, o);
      if o in t.objects && prefix <= o.key { PrefixIsBelow(prefix, o.key); }
    }
  }

  lemma NothingBelowMissing(t: Collections, prefix: Key)
    requires Rooted(t) && StartOf(prefix) !in t.colls
    ensures ListsOnce([], WithPrefix(t, prefix))
  {
    forall o | o in t.objects && prefix <= o.key ensures false {
      PrefixIsBelow(prefix, o.key);
      StartExists(t, Parent(o.key), StartOf(prefix));
    }
  }

  // List gives every object of the tree whose key has the prefix, once, both
  // from a server that answers Depth: infinity and from one that refuses it;
  // any other error of the first request is reported.
  method List(deep: Answers, shallow: Answers, prefix: Key, ghost t: Collections)
    returns (r: Result<seq<Info>, Failure>)
    requires Rooted(t) && ServesOneLevel(shallow, t) && ServesAll(deep, t)
    ensures r.Err? <==>
              var start := StartOf(prefix);
              && start in deep && !deep[start].MultiStatus?
              && !(deep[start].Status? && deep[start].code in {400, 403, 404, 405, 501})
    ensures r.Ok? ==> ListsOnce(r.value, WithPrefix(t, prefix))
    ensures r.Err? ==> r.error == match deep[StartOf(prefix)]
                                  case Status(code) => HttpStatus(code)
                                  case _ => Unusable
  {
    hide Objects, ObjectsOf, ServesOneLevel, Rooted, Matching, StartOf, WithPrefix, AllBelow;
    var start := StartOf(prefix);
    var objects: seq<Info> := [];
    if Missing(deep, start) {
      NothingBelowMissing(t, prefix);
      return Ok([]);
    } else if deep[start].MultiStatus? {
      objects := CollectObjects(deep[start].responses);
    } else if Refused(deep, start) {
      WalkCannotFail(t, shallow, start);
      var walked, order := ListRecursive(shallow, start);
      if walked.Err? { return walked; }
      objects := walked.value;
      WalkListsAll(t, shallow, start, order);
    } else {
      return Err(FailureOf(deep[start]));
    }
    FilteredBelow(t, prefix, objects);
    var matched := Filter(objects, prefix);
    return Ok(matched);
  }

  method Filter(objects: seq<Info>, prefix: Key) returns (matched: seq<Info>)
    ensures matched == Matching(objects, prefix)
  {
    matched := [];
    for i := 0 to |objects|
      invariant matched == Matching(objects[..i], prefix)
    {
      assert objects[..i + 1][..i] == objects[..i];
      if prefix <= objects[i].key { matched := matched + [objects[i]]; }
    }
    assert objects[..|objects|] == objects;
  }

  method CollectObjects(rs: seq<Response>) returns (objects: seq<Info>)
    ensures objects == Objects(rs)
  {
    objects := [];
    for i := 0 to |rs|
      invariant objects == Objects(rs[..i])
    {
      assert rs[..i + 1][..i] == rs[..i];
      var r := rs[i];
      if r.collection { continue; }
      if r.key.None? || r.key.value == "" { continue; }
      objects := objects + [Info(r.key.value, r.etag, r.size)];
    }
    assert rs[..|rs|] == rs;
  }
}
