/** A main event gets exactly the sub-events that were drawn for it: over every run, so many, each with the parents
    drawn for it and its own payload. */
module SubEventCount {
  import opened Wire
  import opened Encoding
  import opened Events
  import opened SubEventWalk
  import opened RunLoop
  import opened RunLoopProofs
  import opened Pool
  import opened PoolProofs

  /** The characters of an ASCII text. */
  function Ascii(text: string): Bytes {
    seq(|text|, i requires 0 <= i < |text| => (text[i] as int % 0x100) as u8)
  }

  /** What the code prints as the `j`-th payload. */
  function Payload(j: nat): Bytes
    requires j < 3
  {
    Ascii(["sub-event-0", "sub-event-1", "sub-event-2"][j])
  }

  lemma PayloadIsSubData(j: nat)
    requires j < 3
    ensures Payload(j) == SubData(j)
  {
    assert |Payload(j)| == |SubData(j)| == 11;
    forall i | 0 <= i < 11 ensures Payload(j)[i] == SubData(j)[i] {
    }
  }

  /** `xs` lists the sub-events of `main`, each once, in the order of their payloads. */
  ghost predicate SubsAre(s: Store, main: Id, xs: seq<Id>) {
    && NoDuplicates(xs) && (forall x :: x in xs <==> Spawned(s, main, x))
    && |xs| <= 3 && forall j :: 0 <= j < |xs| ==> xs[j] in s && s[xs[j]].content.data == Payload(j)
  }

  ghost predicate HasSubs(s: Store, main: Id, count: nat) {
    exists xs :: SubsAre(s, main, xs) && |xs| == count
  }

  // ----- how the store may change -----

  lemma SubsKept(s: Store, s': Store, main: Id, count: nat)
    requires HasSubs(s, main, count) && s'.Keys == s.Keys
    requires forall id :: id in s ==> s'[id].content == s[id].content
    ensures HasSubs(s', main, count)
  {
    var xs :| SubsAre(s, main, xs) && |xs| == count;
    assert SubsAre(s', main, xs);
  }

  lemma SubsIgnoreOthers(s: Store, s': Store, main: Id, count: nat, n: Node)
    requires HasSubs(s, main, count) && Grown(s, s', n)
    requires n.content.kind != SUB || n.content.parentId != main
    ensures HasSubs(s', main, count)
  {
    var xs :| SubsAre(s, main, xs) && |xs| == count;
    forall x ensures Spawned(s', main, x) <==> Spawned(s, main, x) {
      if x in s {
        assert Unchanged(s[x], s'[x]);
      }
    }
    assert SubsAre(s', main, xs);
  }

  lemma SubsGrow(s: Store, s': Store, main: Id, count: nat, n: Node)
    requires HasSubs(s, main, count) && count < 3 && Grown(s, s', n)
    requires n.content.kind == SUB && n.content.parentId == main && n.content.data == Payload(count)
    ensures HasSubs(s', main, count + 1)
  {
    var xs :| SubsAre(s, main, xs) && |xs| == count;
    var longer := xs + [n.id];
    forall x ensures Spawned(s', main, x) <==> x in longer {
      if x in s {
        assert Unchanged(s[x], s'[x]);
      }
    }
    assert SubsAre(s', main, longer);
  }

  // ----- the draw for one main event, along a run -----

  /** How many sub-events the current main event has been given. */
  function CreatedSoFar(pc: Pc): nat {
    match pc
    case Telling(SubItem(_, _, next, _)) => next + 1
    case Recording(SubItem(_, _, next, _)) => next + 1
    case Spawning(_, next, _) => next
    case _ => 0
  }

  /** The iteration of `id`, for which `count` sub-events were drawn. */
  predicate Creates(pc: Pc, id: Id, count: nat) {
    match pc
    case Telling(SubItem(main, _, _, n)) => main == id && n == count
    case Recording(SubItem(main, _, _, n)) => main == id && n == count
    case Spawning(main, _, n) => main == id && n == count
    case _ => false
  }

  /** While the iteration lasts, `id` has the sub-events created so far; after it, all that were drawn, for good. */
  ghost predicate DrawOk(l: Loop, id: Id, count: nat) {
    && IsMain(l.store, id)
    && if MainOf(l.pc) == Some(id) then Creates(l.pc, id, count) && HasSubs(l.store, id, CreatedSoFar(l.pc))
       else HasSubs(l.store, id, count)
  }

  lemma TakeKeepsDraw(h: Hash, l: Loop, c: Content, id: Id, count: nat)
    requires DrawOk(l, id, count) && l.pc.Idle? && c.kind == MAIN
    ensures DrawOk(TakeMain(h, l, c), id, count)
  {
    var n, l' := NewNode(h, c), TakeMain(h, l, c);
    AddChangesOnlyChildren(l.store, n);
    hide Add, Verdict, HasSubs, ComputeCID;
    if Accepts(l.store.Keys, n) {
      SubsIgnoreOthers(l.store, l'.store, id, count, n);
    } else {
      SubsKept(l.store, l'.store, id, count);
    }
  }

  lemma SpawnGrows(h: Hash, l: Loop, parents: seq<Id>) returns (n: Node)
    requires CanSpawn(l) && Accepts(l.store.Keys, NewNode(h, SubContent(l.pc.main, l.pc.next, parents)))
    ensures var l', pc := SpawnSub(h, l, parents), l.pc;
            Grown(l.store, l'.store, n) && l'.pc == Telling(SubItem(pc.main, n.id, pc.next, pc.count))
    ensures n.content == Content(SUB, l.pc.main, parents, Payload(l.pc.next))
  {
    n := NewNode(h, SubContent(l.pc.main, l.pc.next, parents));
    PayloadIsSubData(l.pc.next);
    hide Add, Verdict, ComputeCID, Payload, SubData, Grown;
    AddChangesOnlyChildren(l.store, n);
  }

  lemma SpawnKeepsDraw(h: Hash, l: Loop, parents: seq<Id>, id: Id, count: nat)
    requires DrawOk(l, id, count) && CanSpawn(l)
    requires Accepts(l.store.Keys, NewNode(h, SubContent(l.pc.main, l.pc.next, parents)))
    ensures DrawOk(SpawnSub(h, l, parents), id, count)
  {
    hide SpawnSub, HasSubs, Accepts, NewNode, SubContent, Payload;
    var n := SpawnGrows(h, l, parents);
    var s, s' := l.store, SpawnSub(h, l, parents).store;
    assert IsMain(s', id) by { assert Unchanged(s[id], s'[id]); }
    hide Grown;
    if l.pc.main == id {
      SubsGrow(s, s', id, l.pc.next, n);
    } else {
      SubsIgnoreOthers(s, s', id, count, n);
    }
  }

  lemma FinishKeepsDraw(interval: nat, l: Loop, answer: Option<Round>, id: Id, count: nat)
    requires DrawOk(l, id, count) && AtAnchor(l) && l.pc.next <= l.pc.count
    ensures DrawOk(Anchored(interval, l, answer), id, count)
  {
    hide HasSubs;
    SubsKept(l.store, Anchored(interval, l, answer).store, id, count);
  }

  lemma SpawnIsAccepted(p: Params, s: State, parents: seq<Id>)
    requires CanSpawn(s.loop) && Enabled(p, s, Spawn(parents))
    requires p.interval > 0 && CollisionFree(p.h) && PoolOk(p, s)
    ensures Accepts(s.loop.store.Keys, NewNode(p.h, SubContent(s.loop.pc.main, s.loop.pc.next, parents)))
  {
    hide PoolOk, LoopOk, IsDraw, Occurs, Accepts, CollisionFree, NewNode, SubContent;
    LoopIsOk(p, s);
    DrawsAreRecent(s.loop.recent, parents);
    SubEventAccepted(p.h, p.interval, s.loop, parents);
  }

  lemma LoopIsOk(p: Params, s: State)
    requires p.interval > 0 && PoolOk(p, s)
    ensures LoopOk(p.h, p.interval, s.loop)
  {
  }

  lemma PcIsBounded(p: Params, s: State)
    requires p.interval > 0 && PoolOk(p, s)
    ensures s.loop.pc.Spawning? ==> s.loop.pc.next <= s.loop.pc.count
  {
    hide StoreOk, RecentOk, AnchorsOk, MainsOk, ScheduleOk, LifeOk, QueueOk, ToldOk;
  }

  lemma StepKeepsDraw(p: Params, s: State, a: Action, id: Id, count: nat)
    requires p.interval > 0 && CollisionFree(p.h) && PoolOk(p, s) && DrawOk(s.loop, id, count) && Enabled(p, s, a)
    ensures DrawOk(Step(p, s, a).loop, id, count)
  {
    hide PoolOk, Occurs, Anchored, IsDraw, DrawOk, CollisionFree, TakeMain, SpawnSub, QueueOk, CanSpawn;
    match a
    case Take =>
      QueueIsOk(p, s);
      HeadOccurs(p, s);
      TakeKeepsDraw(p.h, s.loop, s.intake.queue[0], id, count);
    case Spawn(parents) =>
      SpawnIsAccepted(p, s, parents);
      SpawnKeepsDraw(p.h, s.loop, parents, id, count);
    case Finish(answer) =>
      PcIsBounded(p, s);
      FinishKeepsDraw(p.interval, s.loop, answer, id, count);
    case Tell => PcKeepsDraw(s.loop, Told(s.loop), id, count);
    case Record(n) => PcKeepsDraw(s.loop, Recorded(s.loop, n), id, count);
    case Leave => PcKeepsDraw(s.loop, s.loop.(pc := Exited), id, count);
    case _ =>
  }

  /** Where the goroutine may go without touching the store, except for a draw of its own. */
  lemma PcKeepsDraw(l: Loop, l': Loop, id: Id, count: nat)
    requires DrawOk(l, id, count) && l'.store == l.store && MainOf(l'.pc) == MainOf(l.pc)
    requires Creates(l.pc, id, count) ==> Creates(l'.pc, id, count) && CreatedSoFar(l'.pc) == CreatedSoFar(l.pc)
    ensures DrawOk(l', id, count)
  {
    hide HasSubs;
  }

  lemma QueueIsOk(p: Params, s: State)
    requires p.interval > 0 && PoolOk(p, s)
    ensures QueueOk(p, s)
  {
  }

  lemma {:induction false} RunKeepsDraw(p: Params, s: State, run: seq<Action>, t: State, id: Id, count: nat)
    requires p.interval > 0 && CollisionFree(p.h) && PoolOk(p, s) && DrawOk(s.loop, id, count)
    requires Exec(p, s, run) == Some(t)
    ensures DrawOk(t.loop, id, count)
    decreases |run|
  {
    hide PoolOk, DrawOk, Step, Enabled, CollisionFree;
    if run != [] {
      StepKeeps(p, s, run[0]);
      StepKeepsDraw(p, s, run[0], id, count);
      RunKeepsDraw(p, Step(p, s, run[0]), run[1..], t, id, count);
    }
  }

  lemma DrawBegins(p: Params, s: State, count: nat)
    requires p.interval > 0 && PoolOk(p, s) && s.loop.pc.Recording? && s.loop.pc.item.MainItem?
    requires Enabled(p, s, Record(count))
    ensures DrawOk(Step(p, s, Record(count)).loop, s.loop.pc.item.id, count)
  {
    hide StoreOk, RecentOk, AnchorsOk, ScheduleOk, LifeOk, QueueOk, ToldOk;
    var store, id := s.loop.store, s.loop.pc.item.id;
    assert SubsBelow(store, id, 0);
    assert SubsAre(store, id, []);
  }

  lemma FirstIsPossible(p: Params, s: State, a: Action, more: seq<Action>, t: State)
    requires Exec(p, s, [a] + more) == Some(t)
    ensures Enabled(p, s, a) && Exec(p, Step(p, s, a), more) == Some(t)
  {
    hide Step, Enabled;
    assert ([a] + more)[1..] == more;
  }

  /** From any reachable state in which a main event has just been recorded, and for any number drawn for it: along
      every continuation it has exactly that many sub-events once its iteration reaches its end, and ever after,
      with the payloads numbered from zero. */
  lemma DrawnSubEventsAreCreated(p: Params, run: seq<Action>, s: State, count: nat, more: seq<Action>, t: State)
    requires p.interval > 0 && CollisionFree(p.h) && Reached(p, run, s)
    requires s.loop.pc.Recording? && s.loop.pc.item.MainItem? && Exec(p, s, [Record(count)] + more) == Some(t)
    ensures var id := s.loop.pc.item.id;
            MainOf(t.loop.pc) != Some(id) || AtAnchor(t.loop) ==> HasSubs(t.loop.store, id, count)
  {
    hide PoolOk, Exec, Step, Enabled, HasSubs, CollisionFree;
    ReachedIsOk(p, run, s);
    FirstIsPossible(p, s, Record(count), more, t);
    DrawBegins(p, s, count);
    StepKeeps(p, s, Record(count));
    RunKeepsDraw(p, Step(p, s, Record(count)), more, t, s.loop.pc.item.id, count);
    RunKeeps(p, Step(p, s, Record(count)), more);
    PcIsBounded(p, t);
  }

  /** In every run creating a sub-event stores just what was drawn: a sub-event of the current main event, with the
      drawn parents in their order and the next payload, unanchored and without children. */
  lemma SpawnStoresTheDraw(p: Params, run: seq<Action>, s: State, parents: seq<Id>)
    requires p.interval > 0 && CollisionFree(p.h) && Reached(p, run, s) && Enabled(p, s, Spawn(parents))
    ensures s.loop.pc.next < 3
    ensures var c, t := Content(1, s.loop.pc.main, parents, Payload(s.loop.pc.next)), Step(p, s, Spawn(parents));
            && t.loop.inserted == s.loop.inserted + [ComputeCID(p.h, c)]
            && ComputeCID(p.h, c) in t.loop.store
            && t.loop.store[ComputeCID(p.h, c)] == Node(ComputeCID(p.h, c), c, [], None)
  {
    hide PoolOk, Exec, Occurs, CollisionFree, IsDraw, ComputeCID, Add, Verdict, SubData, Payload;
    ReachedIsOk(p, run, s);
    SpawnIsAccepted(p, s, parents);
    PayloadIsSubData(s.loop.pc.next);
    AddChangesOnlyChildren(s.loop.store, NewNode(p.h, SubContent(s.loop.pc.main, s.loop.pc.next, parents)));
  }

  // ----- which parents can be drawn -----

  function Members(ids: seq<Id>): set<Id> {
    set x | x in ids
  }

  lemma {:induction false} DistinctAreAsMany(ids: seq<Id>)
    requires NoDuplicates(ids)
    ensures |Members(ids)| == |ids|
  {
    if ids != [] {
      var last := |ids| - 1;
      DistinctAreAsMany(ids[..last]);
      assert Members(ids) == Members(ids[..last]) + {ids[last]};
    }
  }

  lemma {:induction false} NoMoreMembers(ids: seq<Id>)
    ensures |Members(ids)| <= |ids|
  {
    if ids != [] {
      var last := |ids| - 1;
      NoMoreMembers(ids[..last]);
      assert Members(ids) == Members(ids[..last]) + {ids[last]};
    }
  }

  lemma {:induction false} MembersGrow(a: set<Id>, b: set<Id>)
    requires a <= b
    ensures |a| <= |b|
  {
    if a != {} {
      var x :| x in a;
      MembersGrow(a - {x}, b - {x});
    }
  }

  /** Exactly the duplicate-free selections of at most three recent events can be drawn. */
  lemma DrawsAreExact(recent: seq<Id>, parents: seq<Id>)
    ensures IsDraw(recent, parents)
       <==> |parents| <= 3 && NoDuplicates(parents) && forall x :: x in parents ==> x in recent
  {
    if parents != [] && |parents| <= 3 && NoDuplicates(parents) && forall x :: x in parents ==> x in recent {
      DistinctAreAsMany(parents);
      NoMoreMembers(recent);
      MembersGrow(Members(parents), Members(recent));
      assert IsChoice(recent, |parents|, parents);
    }
  }

  /** In every reachable state with sub-events left to create, every such selection can be made. */
  lemma EverySelectionCanBeSpawned(p: Params, s: State, parents: seq<Id>)
    requires s.loop.pc.Spawning? && s.loop.pc.next < s.loop.pc.count <= 3
    requires |parents| <= 3 && NoDuplicates(parents) && forall x :: x in parents ==> x in s.loop.recent
    requires Occurs(p.h, Content(1, s.loop.pc.main, parents, Payload(s.loop.pc.next)))
    ensures Enabled(p, s, Spawn(parents))
  {
    hide Occurs, IsDraw, Payload, SubData;
    DrawsAreExact(s.loop.recent, parents);
    PayloadIsSubData(s.loop.pc.next);
  }
}
