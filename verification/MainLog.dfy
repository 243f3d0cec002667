/** The completed main events and the insertion log: the history the anchoring schedule is stated over is
    the log's main events, in order, each once. */
module MainLog {
  import opened Wire
  import opened Encoding
  import opened Events
  import opened RunLoop
  import opened RunLoopProofs
  import opened Pool
  import opened PoolProofs

  /** The main events among the entries of a log, in its order. */
  function MainsOf(s: Store, log: seq<Id>): seq<Id> {
    if log == [] then []
    else MainsOf(s, log[..|log| - 1]) + if IsMain(s, log[|log| - 1]) then [log[|log| - 1]] else []
  }

  function CompletedIds(mains: seq<MainRecord>): (ids: seq<Id>)
    ensures |ids| == |mains| && forall i :: 0 <= i < |ids| ==> ids[i] == mains[i].id
  {
    seq(|mains|, i requires 0 <= i < |mains| => mains[i].id)
  }

  /** The main event of the iteration under way, if there is one. */
  function Current(pc: Pc): seq<Id> {
    if MainOf(pc).Some? then [MainOf(pc).value] else []
  }

  /** The log's main events are the completed ones followed by the current one. */
  ghost predicate MainLogOk(l: Loop) {
    && (forall id :: id in l.inserted ==> id in l.store)
    && MainsOf(l.store, l.inserted) == CompletedIds(l.mains) + Current(l.pc)
  }

  predicate SameKinds(s: Store, s': Store) {
    forall id :: id in s ==> id in s' && s'[id].content.kind == s[id].content.kind
  }

  lemma {:induction false} MainsOfKept(s: Store, s': Store, log: seq<Id>)
    requires SameKinds(s, s') && forall id :: id in log ==> id in s
    ensures MainsOf(s', log) == MainsOf(s, log)
  {
    if log != [] {
      var last := log[|log| - 1];
      assert last in log;
      MainsOfKept(s, s', log[..|log| - 1]);
    }
  }

  lemma AddKeepsKinds(s: Store, n: Node)
    ensures SameKinds(s, Add(s, n))
    ensures Accepts(s.Keys, n) ==> n.id in Add(s, n) && Add(s, n)[n.id].content == n.content
  {
    hide Add, Verdict;
    AddChangesOnlyChildren(s, n);
  }

  lemma InsertKeepsMainLog(l: Loop, n: Node, item: Item, otherwise: Pc)
    requires MainLogOk(l)
    requires Current(otherwise) == Current(l.pc)
    requires Current(Telling(item)) == if n.content.kind == MAIN then [n.id] else Current(l.pc)
    requires n.content.kind == MAIN ==> Current(l.pc) == []
    ensures MainLogOk(InsertEvent(l, n, item, otherwise))
  {
    hide Add, Accepts, MainOf;
    var last := l.inserted + [n.id];
    AddKeepsKinds(l.store, n);
    MainsOfKept(l.store, Add(l.store, n), l.inserted);
    assert last[..|l.inserted|] == l.inserted;
  }

  lemma FinishKeepsMainLog(interval: nat, l: Loop, answer: Option<Round>)
    requires MainLogOk(l) && AtAnchor(l)
    ensures MainLogOk(Anchored(interval, l, answer))
  {
    var l' := Anchored(interval, l, answer);
    MainsOfKept(l.store, l'.store, l.inserted);
    assert CompletedIds(l'.mains) == CompletedIds(l.mains) + Current(l.pc);
  }

  lemma StepKeepsMainLog(p: Params, s: State, a: Action)
    requires MainLogOk(s.loop) && QueueOk(p, s) && Enabled(p, s, a)
    ensures MainLogOk(Step(p, s, a).loop)
  {
    hide InsertEvent, Occurs, Anchored, IsDraw, MainsOf, QueueOk, ComputeCID;
    match a
    case Take =>
      HeadOccurs(p, s);
      var n := NewNode(p.h, s.intake.queue[0]);
      InsertKeepsMainLog(s.loop, n, MainItem(n.id), Idle);
    case Spawn(parents) =>
      var Spawning(main, next, count) := s.loop.pc;
      var n := NewNode(p.h, SubContent(main, next, parents));
      InsertKeepsMainLog(s.loop, n, SubItem(main, n.id, next, count), Spawning(main, next + 1, count));
    case Finish(answer) => FinishKeepsMainLog(p.interval, s.loop, answer);
    case _ =>
  }

  lemma {:induction false} RunKeepsMainLog(p: Params, s: State, run: seq<Action>, t: State)
    requires p.interval > 0 && CollisionFree(p.h) && PoolOk(p, s) && MainLogOk(s.loop) && Exec(p, s, run) == Some(t)
    ensures MainLogOk(t.loop)
    decreases |run|
  {
    hide MainLogOk, LoopOk, LifeOk, QueueOk, ToldOk, Step, Enabled;
    if run != [] {
      StepKeeps(p, s, run[0]);
      StepKeepsMainLog(p, s, run[0]);
      RunKeepsMainLog(p, Step(p, s, run[0]), run[1..], t);
    }
  }

  /** In every run the completed main events are the log's main events in insertion order, without the one
      whose iteration is under way. */
  lemma MainsFollowTheLog(p: Params, run: seq<Action>, s: State)
    requires p.interval > 0 && CollisionFree(p.h) && Reached(p, run, s)
    ensures MainsOf(s.loop.store, s.loop.inserted) == CompletedIds(s.loop.mains) + Current(s.loop.pc)
  {
    hide PoolOk, Exec;
    InitialIsOk(p);
    RunKeepsMainLog(p, INITIAL, run, s);
  }
}
