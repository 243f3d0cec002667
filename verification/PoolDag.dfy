/** The DAG the pool builds, seen as the outcome of a history of `AddEvent` calls. */
module PoolDag {
  import opened Wire
  import opened Encoding
  import opened Events
  import opened CycleCheck
  import opened SubEventWalk
  import opened History
  import opened RunLoop
  import opened RunLoopProofs
  import opened Pool
  import opened PoolProofs

  /** The store without its anchors. */
  function Unanchored(s: Store): Store {
    map id | id in s :: s[id].(beacon := None)
  }

  lemma UnanchoredLink(s: Store, targets: seq<Id>, c: Id)
    ensures Unanchored(LinkAll(s, targets, c)) == LinkAll(Unanchored(s), targets, c)
  {
  }

  lemma UnanchoredInsert(s: Store, n: Node)
    requires n.beacon == None
    ensures Unanchored(s[n.id := n]) == Unanchored(s)[n.id := n]
  {
  }

  lemma UnanchoredAdd(s: Store, n: Node)
    requires n.beacon == None
    ensures Unanchored(Add(s, n)) == Add(Unanchored(s), n)
  {
    assert Unanchored(s).Keys == s.Keys;
    var linked := LinkAll(s, Targets(s.Keys, n), n.id);
    UnanchoredLink(s, Targets(s.Keys, n), n.id);
    UnanchoredInsert(linked, n);
    hide Unanchored, LinkAll, Targets, Verdict;
  }

  lemma UnanchoredBeacon(s: Store, id: Id, a: Anchor)
    requires id in s
    ensures Unanchored(WithBeacon(s, id, a)) == Unanchored(s)
  {
  }

  /** The store is what its calls have built, but for the anchors. */
  ghost predicate BuiltByCalls(l: Loop) {
    Unanchored(l.store) == Replay(l.calls) && Childless(l.calls)
  }

  lemma InsertKeepsBuilt(l: Loop, n: Node, item: Item, otherwise: Pc)
    requires BuiltByCalls(l) && n.beacon == None && n.children == []
    ensures BuiltByCalls(InsertEvent(l, n, item, otherwise))
  {
    hide Add, Replay, Unanchored, Verdict;
    UnanchoredAdd(l.store, n);
    ReplayExtends(l.calls, n);
  }

  lemma StepKeepsBuilt(p: Params, s: State, a: Action)
    requires BuiltByCalls(s.loop) && Enabled(p, s, a)
    ensures BuiltByCalls(Step(p, s, a).loop)
  {
    hide InsertEvent, Occurs, Unanchored, WithBeacon, Replay, Childless, IsDraw;
    match a
    case Take =>
      var n := NewNode(p.h, s.intake.queue[0]);
      InsertKeepsBuilt(s.loop, n, MainItem(n.id), Idle);
    case Spawn(parents) =>
      var Spawning(main, next, count) := s.loop.pc;
      var n := NewNode(p.h, SubContent(main, next, parents));
      InsertKeepsBuilt(s.loop, n, SubItem(main, n.id, next, count), Spawning(main, next + 1, count));
    case Finish(answer) =>
      if answer.Some? {
        UnanchoredBeacon(s.loop.store, s.loop.pc.main, Anchor(answer.value.number, answer.value.randomness));
      }
    case _ =>
  }

  lemma {:induction false} RunKeepsBuilt(p: Params, s: State, run: seq<Action>, t: State)
    requires BuiltByCalls(s.loop) && Exec(p, s, run) == Some(t)
    ensures BuiltByCalls(t.loop)
    decreases |run|
  {
    hide BuiltByCalls, Step, Enabled;
    if run != [] {
      StepKeepsBuilt(p, s, run[0]);
      RunKeepsBuilt(p, Step(p, s, run[0]), run[1..], t);
    }
  }

  // ----- what does not look at anchors -----

  lemma AnchorsDoNotMatter(s: Store, children: bool)
    ensures ReferencesStored(s, children) <==> ReferencesStored(Unanchored(s), children)
    ensures Acyclic(s) <==> Acyclic(Unanchored(s))
  {
    var u := Unanchored(s);
    forall id | id in s ensures NodeReferencesStored(s, id, children) <==> NodeReferencesStored(u, id, children) {
    }
    forall walk ensures IsCycle(s, walk) <==> IsCycle(u, walk) {
      SameEdges(s, walk);
    }
  }

  lemma SameEdges(s: Store, walk: seq<Id>)
    ensures IsCycle(s, walk) <==> IsCycle(Unanchored(s), walk)
  {
    forall a, b ensures ParentEdge(s, a, b) <==> ParentEdge(Unanchored(s), a, b) {
    }
  }

  lemma {:induction false} WalkIgnoresAnchors(s: Store, root: Id, agenda: seq<Id>, visited: set<Id>, found: seq<Id>)
    ensures Walk(Unanchored(s), root, agenda, visited, found) == Walk(s, root, agenda, visited, found)
    decreases s.Keys - visited, |agenda|
  {
    var u := Unanchored(s);
    if agenda != [] {
      var x, rest := agenda[0], agenda[1..];
      if x in visited {
        WalkIgnoresAnchors(s, root, rest, visited, found);
      } else if x in s {
        assert u[x].content == s[x].content && u[x].children == s[x].children;
        if Spawned(s, root, x) {
          WalkIgnoresAnchors(s, root, s[x].children + rest, visited + {x}, found + [x]);
        } else {
          WalkIgnoresAnchors(s, root, rest, visited + {x}, found);
        }
      }
    }
  }

  // ----- promises about the pool's DAG -----

  /** The pool's periodic verification never finds a cycle or a dangling parent; it fails exactly while an
      event rejected half-way is still missing. */
  lemma PoolDagVerifies(p: Params, run: seq<Action>, s: State)
    requires Reached(p, run, s)
    ensures ReferencesStored(s.loop.store, false) && Acyclic(s.loop.store)
    ensures ReferencesStored(s.loop.store, true) <==> Residue(s.loop.calls) <= s.loop.store.Keys
  {
    StartIsBuilt();
    hide Exec, ReferencesStored, Acyclic, Residue;
    RunKeepsBuilt(p, INITIAL, run, s);
    AnchorsDoNotMatter(s.loop.store, true);
    AnchorsDoNotMatter(s.loop.store, false);
    NeverCyclic(s.loop.calls);
    VerifyExactlyWhenResidueResolved(s.loop.calls);
    assert Unanchored(s.loop.store).Keys == s.loop.store.Keys;
  }

  lemma StartIsBuilt()
    ensures BuiltByCalls(START)
  {
  }

  /** Querying a main event's sub-events on the pool's DAG gives, when it succeeds, each sub-event it spawned
      exactly once. */
  lemma PoolSubEventsAreTheFilter(p: Params, run: seq<Action>, s: State, root: Id)
    requires Reached(p, run, s) && root in s.loop.store
    ensures var r := SubEventsOf(s.loop.store, root);
            && (r.Ok? ==> NoDuplicates(r.value) && forall x :: x in r.value <==> Spawned(s.loop.store, root, x))
            && (Residue(s.loop.calls) <= s.loop.store.Keys ==> r.Ok?)
  {
    StartIsBuilt();
    hide Exec, Residue;
    RunKeepsBuilt(p, INITIAL, run, s);
    var u := Unanchored(s.loop.store);
    assert u.Keys == s.loop.store.Keys;
    assert forall x :: Spawned(u, root, x) <==> Spawned(s.loop.store, root, x);
    WalkIgnoresAnchors(s.loop.store, root, s.loop.store[root].children, {}, []);
    SubEventsAreTheFilter(s.loop.calls, root);
  }

  // ----- what an anchor is -----

  /** Only main events are anchored, to a positive round with some randomness. */
  predicate AnchorIsSound(n: Node) {
    n.beacon.Some? ==> n.content.kind == MAIN && n.beacon.value.round > 0 && n.beacon.value.randomness != []
  }

  ghost predicate AnchorsAreSound(s: Store) {
    forall id :: id in s ==> AnchorIsSound(s[id])
  }

  lemma AddKeepsAnchorsSound(s: Store, n: Node)
    requires AnchorsAreSound(s) && n.beacon == None
    ensures AnchorsAreSound(Add(s, n))
  {
    AddChangesOnlyChildren(s, n);
    hide Add, Verdict;
    forall id | id in Add(s, n) ensures AnchorIsSound(Add(s, n)[id]) {
      if id in s {
        assert AnchorIsSound(s[id]) && Unchanged(s[id], Add(s, n)[id]);
      }
    }
  }

  lemma StepKeepsAnchorsSound(p: Params, s: State, a: Action)
    requires AnchorsAreSound(s.loop.store) && Enabled(p, s, a)
    requires s.loop.pc.Spawning? ==> IsMain(s.loop.store, s.loop.pc.main)
    ensures AnchorsAreSound(Step(p, s, a).loop.store)
  {
    hide Add, Verdict, Occurs, IsDraw;
    match a
    case Take => AddKeepsAnchorsSound(s.loop.store, NewNode(p.h, s.intake.queue[0]));
    case Spawn(parents) =>
      AddKeepsAnchorsSound(s.loop.store, NewNode(p.h, SubContent(s.loop.pc.main, s.loop.pc.next, parents)));
    case _ =>
  }

  lemma {:induction false} RunKeepsAnchorsSound(p: Params, s: State, run: seq<Action>, t: State)
    requires p.interval > 0 && CollisionFree(p.h) && PoolOk(p, s)
    requires AnchorsAreSound(s.loop.store) && Exec(p, s, run) == Some(t)
    ensures AnchorsAreSound(t.loop.store)
    decreases |run|
  {
    hide AnchorsAreSound, Step, Enabled, StoreOk, PcOk, RecentOk, AnchorsOk, ScheduleOk, CollisionFree;
    if run != [] {
      StepKeepsAnchorsSound(p, s, run[0]);
      StepKeeps(p, s, run[0]);
      RunKeepsAnchorsSound(p, Step(p, s, run[0]), run[1..], t);
    }
  }

  /** In every run, every anchor sits on a main event and comes from a round that passed validation. */
  lemma PoolAnchorsAreSound(p: Params, run: seq<Action>, s: State)
    requires p.interval > 0 && CollisionFree(p.h) && Reached(p, run, s)
    ensures AnchorsAreSound(s.loop.store)
  {
    hide Exec, PoolOk;
    InitialIsOk(p);
    RunKeepsAnchorsSound(p, INITIAL, run, s);
  }
}
