// cmd/codeagent-sync/notice.go: what the hooks queue for the user and tell
// them at the next prompt, once.
module Notice {
  import opened Options

  datatype Item = Item(id: string, text: string)

  const STALE_AFTER := 24 * 60 * 60 * 1_000_000_000

  // Told about when it happens, and every time it happens.
  predicate OneShot(id: string) {
    "recorded:" <= id || "notice:" <= id
  }

  // Only a sync that ran can tell whether it still holds.
  predicate NeedsSync(id: string) {
    id == "pending" || "error:" <= id
  }

  // Whether having told about an item that was not found may be forgotten;
  // times are in nanoseconds.
  predicate Forget(id: string, told: int, synced: bool, now: int) {
    if "error:" <= id then now - told > 2 * STALE_AFTER else if NeedsSync(id) then synced else true
  }

  // The two files: what waits for the next prompt, and when each lasting item
  // was told.
  datatype Notices = Notices(queue: seq<Item>, told: map<string, int>)

  function Ids(items: seq<Item>): set<string> {
    set i | 0 <= i < |items| :: items[i].id
  }

  function OneShots(items: seq<Item>): seq<Item> {
    if items == [] then []
    else
      var it := items[|items| - 1];
      var init := OneShots(items[..|items| - 1]);
      if OneShot(it.id) then init + [it] else init
  }

  // The items found now that are news, in the order found.
  function News(items: seq<Item>, current: set<string>, told: map<string, int>): seq<Item> {
    if items == [] then []
    else
      var init := items[..|items| - 1];
      var it := items[|items| - 1];
      if it.id !in current + Ids(init) && (it.id !in told || OneShot(it.id)) then News(init, current, told) + [it]
      else News(init, current, told)
  }

  function Remembered(told: map<string, int>, current: set<string>, synced: bool, now: int): map<string, int> {
    map id | id in told && (id in current || !Forget(id, told[id], synced, now)) :: told[id]
  }

  function Queued(s: Notices, items: seq<Item>, synced: bool, now: int): Notices {
    var kept := OneShots(s.queue);
    Notices(kept + News(items, Ids(kept), s.told), Remembered(s.told, Ids(kept) + Ids(items), synced, now))
  }

  function Marked(told: map<string, int>, items: seq<Item>, now: int): map<string, int> {
    map id | id in told.Keys + Ids(items) && (id in told || !OneShot(id))
      :: if id in Ids(items) && !OneShot(id) then now else told[id]
  }

  function Taken(s: Notices, now: int): Notices {
    Notices([], Marked(s.told, s.queue, now))
  }

  function Lines(items: seq<Item>): string {
    if items == [] then "" else Lines(items[..|items| - 1]) + "- " + items[|items| - 1].text + "\n"
  }

  // -------------------------------------------------------------- the files

  class NoticeFiles {
    const header: string
    var queue: seq<Item>
    var told: map<string, int>

    constructor (header: string)
      ensures Contents() == Notices([], map[]) && this.header == header
    {
      this.header, queue, told := header, [], map[];
    }

    function Contents(): Notices
      reads this
    {
      Notices(queue, told)
    }

    method QueueNotice(items: seq<Item>, synced: bool, now: int)
      modifies this
      ensures Contents() == Queued(old(Contents()), items, synced, now)
    {
      var out, current := KeepOneShots(queue);
      out, current := AddNews(items, out, current, told);
      told := DropOver(told, current, synced, now);
      queue := out;
    }

    // The text for the agent; nothing is told when nothing is queued.
    method TakeNotice(now: int) returns (text: string)
      modifies this
      ensures Contents() == Taken(old(Contents()), now)
      ensures text == if old(queue) == [] then "" else header + "\n" + Lines(old(queue))
    {
      if queue == [] {
        assert Marked(told, [], now) == told;
        return "";
      }
      var lines: string;
      lines, told := TellAll(queue, told, now);
      text := header + "\n" + lines;
      queue := [];
    }
  }

  method KeepOneShots(queue: seq<Item>) returns (kept: seq<Item>, current: set<string>)
    ensures kept == OneShots(queue) && current == Ids(kept)
  {
    hide OneShot, Ids;
    kept, current := [], {};
    NoIds();
    for i := 0 to |queue|
      invariant kept == OneShots(queue[..i]) && current == Ids(kept)
    {
      assert queue[..i + 1][..i] == queue[..i];
      if OneShot(queue[i].id) {
        IdsSnoc(kept, queue[i]);
        current := current + {queue[i].id};
        kept := kept + [queue[i]];
      }
    }
    assert queue[..|queue|] == queue;
  }

  method AddNews(items: seq<Item>, kept: seq<Item>, seen: set<string>, told: map<string, int>)
    returns (out: seq<Item>, current: set<string>)
    requires seen == Ids(kept)
    ensures out == kept + News(items, Ids(kept), told) && current == Ids(kept) + Ids(items)
  {
    hide OneShot, Ids;
    out, current := kept, seen;
    NoIds();
    for i := 0 to |items|
      invariant out == kept + News(items[..i], Ids(kept), told) && current == Ids(kept) + Ids(items[..i])
    {
      assert items[..i + 1][..i] == items[..i];
      IdsSnoc(items[..i], items[i]);
      assert items[..i] + [items[i]] == items[..i + 1];
      var it := items[i];
      if it.id in current { continue; }
      current := current + {it.id};
      if it.id !in told || OneShot(it.id) { out := out + [it]; }
    }
    assert items[..|items|] == items;
  }

  method DropOver(told: map<string, int>, current: set<string>, synced: bool, now: int) returns (left: map<string, int>)
    ensures left == Remembered(told, current, synced, now)
  {
    hide Forget;
    left := told;
    var rest := told.Keys;
    while rest != {}
      invariant rest <= told.Keys
      invariant forall id :: Lookup(left, id) ==
                  if id in rest then Lookup(told, id) else Lookup(Remembered(told, current, synced, now), id)
      decreases |rest|
    {
      var id :| id in rest;
      if id !in current && Forget(id, told[id], synced, now) { left := left - {id}; }
      rest := rest - {id};
    }
    SameLookups(left, Remembered(told, current, synced, now));
  }

  method TellAll(items: seq<Item>, told: map<string, int>, now: int) returns (lines: string, marked: map<string, int>)
    ensures lines == Lines(items) && marked == Marked(told, items, now)
  {
    hide OneShot, Ids;
    lines, marked := "", told;
    NoIds();
    for i := 0 to |items|
      invariant lines == Lines(items[..i]) && marked == Marked(told, items[..i], now)
    {
      assert items[..i + 1][..i] == items[..i];
      IdsSnoc(items[..i], items[i]);
      assert items[..i] + [items[i]] == items[..i + 1];
      lines := lines + "- " + items[i].text + "\n";
      if !OneShot(items[i].id) { marked := marked[items[i].id := now]; }
    }
    assert items[..|items|] == items;
  }

  lemma NoIds()
    ensures Ids([]) == {}
  {
  }

  lemma IdsSnoc(items: seq<Item>, it: Item)
    ensures Ids(items + [it]) == Ids(items) + {it.id}
  {
    var all := items + [it];
    forall id ensures id in Ids(all) <==> id in Ids(items) + {it.id} {
      if id in Ids(items) {
        var i :| 0 <= i < |items| && items[i].id == id;
        assert all[i].id == id;
      }
      assert all[|items|].id == it.id;
    }
  }

  lemma SameLookups(a: map<string, int>, b: map<string, int>)
    requires forall k :: Lookup(a, k) == Lookup(b, k)
    ensures a == b
  {
    forall k ensures k in a <==> k in b { assert Lookup(a, k) == Lookup(b, k); }
    forall k | k in a ensures a[k] == b[k] { assert Lookup(a, k) == Lookup(b, k); }
  }

  // --------------------------------------------------- what one step queues

  ghost predicate DistinctIds(items: seq<Item>) {
    forall i, j :: 0 <= i < j < |items| ==> items[i].id != items[j].id
  }

  // Queued IDs are distinct, and what was told and lasts is not queued.
  ghost predicate Tidy(s: Notices) {
    && DistinctIds(s.queue)
    && (forall id :: id in s.told ==> !OneShot(id))
    && (forall it :: it in s.queue && !OneShot(it.id) ==> it.id !in s.told)
  }

  lemma {:induction false} OneShotsAre(items: seq<Item>)
    ensures forall it :: it in OneShots(items) <==> it in items && OneShot(it.id)
    ensures DistinctIds(items) ==> DistinctIds(OneShots(items))
  {
    hide OneShot;
    if items != [] {
      var init := items[..|items| - 1];
      assert items == init + [items[|items| - 1]];
      OneShotsAre(init);
      var r := OneShots(items);
      if DistinctIds(items) {
        forall i, j | 0 <= i < j < |r| ensures r[i].id != r[j].id {
          assert r[i] in r && r[j] in r;
          if j == |OneShots(init)| { assert r[i] in OneShots(init); }
        }
      }
    }
  }

  lemma {:induction false} NewsAre(items: seq<Item>, current: set<string>, told: map<string, int>)
    ensures var n := News(items, current, told);
            && DistinctIds(n) && (forall it :: it in n ==> it in items && it.id !in current)
            && forall id :: id in Ids(n) <==> id in Ids(items) && id !in current && (id !in told || OneShot(id))
  {
    hide OneShot;
    if items != [] {
      var init, it := items[..|items| - 1], items[|items| - 1];
      assert items == init + [it];
      NewsAre(init, current, told);
      IdsSnoc(init, it);
      IdsSnoc(News(init, current, told), it);
      var n := News(items, current, told);
      forall i, j | 0 <= i < j < |n| ensures n[i].id != n[j].id {
        if j == |News(init, current, told)| { assert n[i].id in Ids(News(init, current, told)); }
      }
    }
  }

  lemma InIds(items: seq<Item>, it: Item)
    ensures it in items ==> it.id in Ids(items)
  {
  }

  lemma IdsAppend(a: seq<Item>, b: seq<Item>)
    ensures Ids(a + b) == Ids(a) + Ids(b)
  {
    var all := a + b;
    forall id | id in Ids(a) + Ids(b) ensures id in Ids(all) {
      if id in Ids(a) {
        var i :| 0 <= i < |a| && a[i].id == id;
        assert all[i].id == id;
      } else {
        var i :| 0 <= i < |b| && b[i].id == id;
        assert all[|a| + i].id == id;
      }
    }
  }

  lemma DistinctAppend(a: seq<Item>, b: seq<Item>)
    requires DistinctIds(a) && DistinctIds(b) && Ids(a) !! Ids(b)
    ensures DistinctIds(a + b)
  {
    var all := a + b;
    forall i, j | 0 <= i < j < |all| ensures all[i].id != all[j].id {
      if i < |a| <= j {
        assert a[i].id in Ids(a) && b[j - |a|].id in Ids(b);
      }
    }
  }

  // A queue step keeps the queue tidy; queued afterwards are the one-shot
  // items queued before or found now, and the lasting items found now that
  // were not told.
  lemma QueueStep(s: Notices, items: seq<Item>, synced: bool, now: int)
    requires Tidy(s)
    ensures var q := Queued(s, items, synced, now);
            && Tidy(q)
            && (forall id :: id in Ids(q.queue) <==>
                  if OneShot(id) then id in Ids(s.queue) || id in Ids(items) else id in Ids(items) && id !in s.told)
            && (forall id :: id in q.told <==>
                  id in s.told && (id in Ids(items) || !Forget(id, s.told[id], synced, now)))
            && (forall id :: id in q.told ==> q.told[id] == s.told[id])
            && (forall it :: it in s.queue && OneShot(it.id) ==> it in q.queue)
  {
    hide OneShot, Forget;
    var kept := OneShots(s.queue);
    var news := News(items, Ids(kept), s.told);
    OneShotsAre(s.queue);
    NewsAre(items, Ids(kept), s.told);
    IdsAppend(kept, news);
    DistinctAppend(kept, news);
    IdsOfOneShots(s.queue);
  }

  lemma IdsOfOneShots(items: seq<Item>)
    ensures forall id :: id in Ids(OneShots(items)) <==> id in Ids(items) && OneShot(id)
  {
    hide OneShot;
    OneShotsAre(items);
    forall id ensures id in Ids(OneShots(items)) <==> id in Ids(items) && OneShot(id) {
      if id in Ids(OneShots(items)) {
        var i :| 0 <= i < |OneShots(items)| && OneShots(items)[i].id == id;
        InIds(items, OneShots(items)[i]);
      }
      if id in Ids(items) && OneShot(id) {
        var i :| 0 <= i < |items| && items[i].id == id;
        InIds(OneShots(items), items[i]);
      }
    }
  }

  // In plain words: queued after a step are a decision recorded or a notice
  // of the sync that waited or was found now, and anything else found now that
  // was not told.
  lemma QueuedExactly(s: Notices, items: seq<Item>, synced: bool, now: int, id: string)
    requires Tidy(s)
    ensures id in Ids(Queued(s, items, synced, now).queue)
            <==> if "recorded:" <= id || "notice:" <= id then id in Ids(s.queue) || id in Ids(items)
                 else id in Ids(items) && id !in s.told
  {
    QueueStep(s, items, synced, now);
  }

  // What was told stays told while it is found; else an error for two days,
  // what is pending until a sync ran, and all else no longer.
  lemma RememberedExactly(s: Notices, items: seq<Item>, synced: bool, now: int, id: string)
    requires Tidy(s)
    ensures id in Queued(s, items, synced, now).told
            <==> && id in s.told
                 && (|| id in Ids(items)
                     || ("error:" <= id && now - s.told[id] <= 2 * 86_400_000_000_000)
                     || (id == "pending" && !synced))
    ensures id in Queued(s, items, synced, now).told ==> Queued(s, items, synced, now).told[id] == s.told[id]
  {
    QueueStep(s, items, synced, now);
    assert "error:"[0] == 'e' && "pending"[0] == 'p';
    hide Queued, Ids;
  }

  // Telling marks what lasts with the time.
  lemma MarkedExactly(s: Notices, now: int, id: string)
    ensures var t := Taken(s, now);
            && t.queue == []
            && (id in t.told <==> id in s.told || (id in Ids(s.queue) && !("recorded:" <= id || "notice:" <= id)))
            && (id in t.told && id in Ids(s.queue) && !("recorded:" <= id || "notice:" <= id) ==> t.told[id] == now)
            && (id in t.told && id !in Ids(s.queue) ==> t.told[id] == s.told[id])
  {
  }

  // The text tells every item on a line of its own.
  lemma LinesSnoc(items: seq<Item>, it: Item)
    ensures Lines([]) == "" && Lines(items + [it]) == Lines(items) + "- " + it.text + "\n"
  {
    assert (items + [it])[..|items|] == items;
  }

  lemma TakeStep(s: Notices, now: int)
    requires Tidy(s)
    ensures var t := Taken(s, now);
            && Tidy(t) && t.queue == []
            && (forall id :: id in t.told <==> id in s.told || (id in Ids(s.queue) && !OneShot(id)))
  {
  }

  // ------------------------------------------------------------- told once

  datatype Step = Queue(items: seq<Item>, synced: bool, now: int) | Take(now: int)

  function After(steps: seq<Step>): Notices {
    if steps == [] then Notices([], map[])
    else
      var s := After(steps[..|steps| - 1]);
      match steps[|steps| - 1]
      case Queue(items, synced, now) => Queued(s, items, synced, now)
      case Take(now) => Taken(s, now)
  }

  lemma {:induction false} AlwaysTidy(steps: seq<Step>)
    ensures Tidy(After(steps))
  {
    hide Tidy, Queued, Taken;
    if steps == [] {
      EmptyIsTidy();
    } else {
      var s := After(steps[..|steps| - 1]);
      AlwaysTidy(steps[..|steps| - 1]);
      match steps[|steps| - 1]
      case Queue(items, synced, now) => QueueStep(s, items, synced, now);
      case Take(now) => TakeStep(s, now);
    }
  }

  lemma EmptyIsTidy()
    ensures Tidy(Notices([], map[]))
  {
  }

  // Step i tells the user about id.
  ghost predicate Tells(steps: seq<Step>, i: nat, id: string) {
    i < |steps| && steps[i].Take? && id in Ids(After(steps[..i]).queue)
  }

  // Step k did not find id and was allowed to forget that it was told.
  ghost predicate Forgets(steps: seq<Step>, k: nat, id: string) {
    && k < |steps| && steps[k].Queue? && id !in Ids(steps[k].items)
    && id in After(steps[..k]).told && Forget(id, After(steps[..k]).told[id], steps[k].synced, steps[k].now)
  }

  lemma AfterOne(steps: seq<Step>, i: nat)
    requires i < |steps|
    ensures var s := After(steps[..i]);
            After(steps[..i + 1]) == match steps[i]
                                     case Queue(items, synced, now) => Queued(s, items, synced, now)
                                     case Take(now) => Taken(s, now)
  {
    assert steps[..i + 1][..i] == steps[..i];
  }

  // What was told stays told up to a step that forgets it.
  lemma {:induction false} ToldUntilForgotten(steps: seq<Step>, i: nat, j: nat, id: string)
    requires i <= j <= |steps| && id in After(steps[..i]).told
    ensures id in After(steps[..j]).told || exists k :: i <= k < j && Forgets(steps, k, id)
    decreases j
  {
    hide Queued, Taken, Forget, OneShot;
    if i < j {
      ToldUntilForgotten(steps, i, j - 1, id);
      AlwaysTidy(steps[..j - 1]);
      AfterOne(steps, j - 1);
      var s := After(steps[..j - 1]);
      match steps[j - 1] {
        case Queue(items, synced, now) => QueueStep(s, items, synced, now);
        case Take(now) => TakeStep(s, now);
      }
      if id in s.told && id !in After(steps[..j]).told { assert Forgets(steps, j - 1, id); }
    }
  }

  // A lasting item is told again only after a step that did not find it and
  // was allowed to forget it.
  lemma ToldOnce(steps: seq<Step>, i: nat, j: nat, id: string)
    requires i < j && Tells(steps, i, id) && Tells(steps, j, id) && !OneShot(id)
    ensures exists k :: i < k < j && Forgets(steps, k, id)
  {
    hide Queued, Taken, Forget, OneShot;
    AlwaysTidy(steps[..i]);
    AfterOne(steps, i);
    TakeStep(After(steps[..i]), steps[i].now);
    ToldUntilForgotten(steps, i + 1, j, id);
    AlwaysTidy(steps[..j]);
    var q := After(steps[..j]).queue;
    var n :| 0 <= n < |q| && q[n].id == id;
    assert q[n] in q;
  }

  // One-shot items wait: queued at j are those some step found after the last
  // time the queue was told.
  ghost predicate FoundSince(steps: seq<Step>, j: nat, id: string)
    requires j <= |steps|
  {
    exists k :: 0 <= k < j && steps[k].Queue? && id in Ids(steps[k].items) && forall m :: k < m < j ==> !steps[m].Take?
  }

  lemma {:induction false} OneShotsWait(steps: seq<Step>, j: nat, id: string)
    requires j <= |steps| && OneShot(id)
    ensures id in Ids(After(steps[..j]).queue) <==> FoundSince(steps, j, id)
  {
    hide Queued, Taken, Forget, OneShot;
    if j > 0 {
      OneShotsWait(steps, j - 1, id);
      AlwaysTidy(steps[..j - 1]);
      AfterOne(steps, j - 1);
      var s := After(steps[..j - 1]);
      FoundOneMore(steps, j, id);
      match steps[j - 1]
      case Queue(items, synced, now) => QueueStep(s, items, synced, now);
      case Take(now) => TakeStep(s, now);
    }
  }

  lemma FoundOneMore(steps: seq<Step>, j: nat, id: string)
    requires 0 < j <= |steps|
    ensures FoundSince(steps, j, id) <==>
              steps[j - 1].Queue? && (id in Ids(steps[j - 1].items) || FoundSince(steps, j - 1, id))
  {
    hide Ids;
    if FoundSince(steps, j, id) {
      var k :| 0 <= k < j && steps[k].Queue? && id in Ids(steps[k].items) && forall m :: k < m < j ==> !steps[m].Take?;
      assert k < j - 1 ==> FoundSince(steps, j - 1, id);
    }
    if steps[j - 1].Queue? && FoundSince(steps, j - 1, id) {
      var k :| 0 <= k < j - 1 && steps[k].Queue? && id in Ids(steps[k].items)
               && forall m :: k < m < j - 1 ==> !steps[m].Take?;
    }
  }

  // A queued one-shot item, text and all, stays until it is told.
  lemma {:induction false} OneShotNeverDropped(steps: seq<Step>, i: nat, j: nat, it: Item)
    requires i <= j <= |steps| && OneShot(it.id) && it in After(steps[..i]).queue
    requires forall m :: i <= m < j ==> !steps[m].Take?
    ensures it in After(steps[..j]).queue
    decreases j
  {
    hide Queued, Taken, Forget, OneShot;
    if i < j {
      OneShotNeverDropped(steps, i, j - 1, it);
      AlwaysTidy(steps[..j - 1]);
      AfterOne(steps, j - 1);
      QueueStep(After(steps[..j - 1]), steps[j - 1].items, steps[j - 1].synced, steps[j - 1].now);
    }
  }
}
