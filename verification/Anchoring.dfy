/** What the end of an iteration does, in terms of the rounds already in the DAG: exactly when the main event is
    anchored, to what, and what is reported when it is not. */
module Anchoring {
  import opened Wire
  import opened Encoding
  import opened Events
  import opened History
  import opened Subscribers
  import opened RunLoop
  import opened RunLoopProofs
  import opened Pool
  import opened PoolProofs
  import opened PoolEffects

  // ----- the counter and the last round, as history -----

  /** The main events completed since the last anchored one, or since the start. */
  function SinceAnchor(mains: seq<MainRecord>): nat {
    if mains == [] || mains[|mains| - 1].round.Some? then 0 else 1 + SinceAnchor(mains[..|mains| - 1])
  }

  /** The counter counts those, and the last round used is zero or carried by some event. */
  ghost predicate AnchorHistoryOk(l: Loop) {
    && l.eventCount == SinceAnchor(l.mains)
    && (l.lastRound == 0 || exists id :: id in l.store && RoundOf(l.store, id) == Some(l.lastRound))
  }

  lemma RoundsStay(s: Store, s': Store, lastRound: nat)
    requires forall id :: id in s ==> id in s' && s'[id].beacon == s[id].beacon
    requires exists id :: id in s && RoundOf(s, id) == Some(lastRound)
    ensures exists id :: id in s' && RoundOf(s', id) == Some(lastRound)
  {
    var id :| id in s && RoundOf(s, id) == Some(lastRound);
    assert RoundOf(s', id) == Some(lastRound);
  }

  lemma InsertKeepsHistory(l: Loop, n: Node, item: Item, otherwise: Pc)
    requires AnchorHistoryOk(l)
    ensures AnchorHistoryOk(InsertEvent(l, n, item, otherwise))
  {
    AddChangesOnlyChildren(l.store, n);
    hide Add, Verdict;
    if l.lastRound != 0 {
      RoundsStay(l.store, InsertEvent(l, n, item, otherwise).store, l.lastRound);
    }
  }

  lemma FailedKeepsHistory(l: Loop, l': Loop, main: Id)
    requires AnchorHistoryOk(l) && l'.store == l.store && l'.lastRound == l.lastRound
    requires l'.mains == l.mains + [MainRecord(main, None)] && l'.eventCount == l.eventCount + 1
    ensures AnchorHistoryOk(l')
  {
    assert l'.mains[..|l.mains|] == l.mains;
  }

  lemma AnchoredKeepsHistory(l: Loop, l': Loop, main: Id, a: Anchor)
    requires main in l.store && l'.store == WithBeacon(l.store, main, a) && l'.lastRound == a.round
    requires l'.mains == l.mains + [MainRecord(main, Some(a.round))] && l'.eventCount == 0
    ensures AnchorHistoryOk(l')
  {
    assert RoundOf(l'.store, main) == Some(a.round);
  }

  lemma FinishKeepsHistory(interval: nat, l: Loop, answer: Option<Round>)
    requires AnchorHistoryOk(l) && AtAnchor(l) && RoundOf(l.store, l.pc.main) == None
    ensures AnchorHistoryOk(Anchored(interval, l, answer))
  {
    hide AnchorHistoryOk, ValidRound;
    var l' := Anchored(interval, l, answer);
    if l'.lastRound == l.lastRound {
      FailedKeepsHistory(l, l', l.pc.main);
    } else {
      AnchoredKeepsHistory(l, l', l.pc.main, Anchor(answer.value.number, answer.value.randomness));
    }
  }

  lemma MainIsUnanchored(h: Hash, interval: nat, l: Loop)
    requires interval > 0 && LoopOk(h, interval, l) && AtAnchor(l)
    ensures RoundOf(l.store, l.pc.main) == None
  {
    hide StoreOk, PcOk, RecentOk, MainsOk, ScheduleOk, RoundsRise;
    CurrentIsUnanchored(l.store, l.inserted, l.pc.main);
  }

  lemma StepKeepsHistory(p: Params, s: State, a: Action)
    requires p.interval > 0 && LoopOk(p.h, p.interval, s.loop) && AnchorHistoryOk(s.loop) && Enabled(p, s, a)
    ensures AnchorHistoryOk(Step(p, s, a).loop)
  {
    hide InsertEvent, Occurs, Anchored, IsDraw, AnchorHistoryOk, ComputeCID, LoopOk;
    match a
    case Take =>
      var n := NewNode(p.h, s.intake.queue[0]);
      InsertKeepsHistory(s.loop, n, MainItem(n.id), Idle);
      SameHistory(InsertEvent(s.loop, n, MainItem(n.id), Idle), Step(p, s, a).loop);
    case Spawn(parents) =>
      var Spawning(main, next, count) := s.loop.pc;
      var n := NewNode(p.h, SubContent(main, next, parents));
      InsertKeepsHistory(s.loop, n, SubItem(main, n.id, next, count), Spawning(main, next + 1, count));
    case Finish(answer) =>
      MainIsUnanchored(p.h, p.interval, s.loop);
      FinishKeepsHistory(p.interval, s.loop, answer);
    case _ => SameHistory(s.loop, Step(p, s, a).loop);
  }

  lemma SameHistory(l: Loop, l': Loop)
    requires AnchorHistoryOk(l)
    requires l'.eventCount == l.eventCount && l'.mains == l.mains && l'.lastRound == l.lastRound && l'.store == l.store
    ensures AnchorHistoryOk(l')
  {
  }

  lemma {:induction false} RunKeepsHistory(p: Params, s: State, run: seq<Action>, t: State)
    requires p.interval > 0 && CollisionFree(p.h) && PoolOk(p, s) && AnchorHistoryOk(s.loop)
    requires Exec(p, s, run) == Some(t)
    ensures AnchorHistoryOk(t.loop)
    decreases |run|
  {
    hide AnchorHistoryOk, LoopOk, LifeOk, QueueOk, ToldOk, Step, Enabled;
    if run != [] {
      StepKeeps(p, s, run[0]);
      StepKeepsHistory(p, s, run[0]);
      RunKeepsHistory(p, Step(p, s, run[0]), run[1..], t);
    }
  }

  // ----- exactly what finishing does -----

  /** A round fit for anchoring: numbered, signed, with randomness, and at most an hour old. */
  predicate IsSound(r: Round) {
    r.number > 0 && |r.randomness| > 0 && |r.signature| > 0 && r.age <= 3_600_000_000_000
  }

  /** Newer than everything in the DAG. */
  predicate IsNewest(s: Store, r: Round) {
    forall id :: id in s && s[id].beacon.Some? ==> s[id].beacon.value.round < r.number
  }

  lemma NewestIsAboveLast(h: Hash, interval: nat, l: Loop, r: Round)
    requires interval > 0 && LoopOk(h, interval, l) && AnchorHistoryOk(l) && r.number > 0
    ensures IsNewest(l.store, r) <==> r.number > l.lastRound
  {
    hide PcOk, RecentOk, MainsOk, ScheduleOk, ContentOk, UnanchoredFrom, RefersBack;
    if IsNewest(l.store, r) && l.lastRound != 0 {
      var id :| id in l.store && RoundOf(l.store, id) == Some(l.lastRound);
      assert l.store[id].beacon.value.round < r.number;
    }
    if r.number > l.lastRound {
      forall id | id in l.store && l.store[id].beacon.Some? ensures l.store[id].beacon.value.round < r.number {
        var i :| 0 <= i < |l.inserted| && l.inserted[i] == id;
        assert RoundOf(l.store, l.inserted[i]).value <= l.lastRound;
      }
    }
  }

  /** The main event whose iteration ends. */
  function Ending(l: Loop): Id
    requires AtAnchor(l)
  {
    l.pc.main
  }

  /** The state after an iteration whose interval was full or not, and whose beacon gave a sound round or not, one
      to anchor to or not. Nothing else in the DAG changes. */
  predicate EndsAs(s: State, t: State, answer: Option<Round>, due: bool, sound: bool, anchors: bool)
    requires AtAnchor(s.loop) && (anchors ==> answer.Some?) && (sound ==> answer.Some?)
  {
    var main, l := Ending(s.loop), s.loop;
    && l.store[main].beacon == None
    && t.loop.store == (if due && anchors
          then l.store[main := l.store[main].(beacon := Some(Anchor(answer.value.number, answer.value.randomness)))]
          else l.store)
    && t.loop.failed == l.failed + (if due && !anchors then 1 else 0)
    && t.loop.mains == l.mains + [MainRecord(main, if due && anchors then Some(answer.value.number) else None)]
    && t.loop.inserted == l.inserted && t.loop.recent == l.recent && t.loop.verdicts == l.verdicts
    && t.loop.pc == Idle && t.front == s.front && t.intake == s.intake
    && t.life == s.life.(errs :=
          if !due || anchors then s.life.errs
          else if !sound then Reported(s.life.errs, NoBeacon)
          else Reported(s.life.errs, StaleBeacon(answer.value.number)))
  }

  lemma FinishEffects(p: Params, s: State, answer: Option<Round>)
    requires AtAnchor(s.loop) && !s.life.errsClosed && s.loop.store[Ending(s.loop)].beacon == None
    ensures var sound := answer.Some? && IsSound(answer.value);
            EndsAs(s, Finished(p, s, answer), answer, s.loop.eventCount + 1 >= p.interval, sound,
                   sound && answer.value.number > s.loop.lastRound)
  {
  }

  lemma ReachedHistoryIsOk(p: Params, run: seq<Action>, s: State)
    requires p.interval > 0 && CollisionFree(p.h) && Reached(p, run, s)
    ensures AnchorHistoryOk(s.loop)
  {
    hide PoolOk, Exec, AnchorHistoryOk;
    StartHistory();
    InitialIsOk(p);
    RunKeepsHistory(p, INITIAL, run, s);
  }

  /** In every reachable state at the end of an iteration: the main event is anchored if and only if its interval is
      full and the beacon gives a sound round above every round in the DAG; it then carries that round and its
      randomness. A full interval without such a round counts as a failed attempt and is reported, as a missing or
      as a stale beacon. */
  lemma AnchoringIsExact(p: Params, run: seq<Action>, s: State, answer: Option<Round>)
    requires p.interval > 0 && CollisionFree(p.h) && Reached(p, run, s) && AtAnchor(s.loop)
    ensures Enabled(p, s, Finish(answer))
    ensures var sound := answer.Some? && IsSound(answer.value);
            EndsAs(s, Step(p, s, Finish(answer)), answer, SinceAnchor(s.loop.mains) + 1 >= p.interval, sound,
                   sound && IsNewest(s.loop.store, answer.value))
  {
    hide LoopOk, QueueOk, ToldOk, Exec, AnchorHistoryOk, Finished, IsSound, IsNewest, EndsAs, FrontOk, LifeOk;
    ReachedIsOk(p, run, s);
    ReachedHistoryIsOk(p, run, s);
    CountIsHistory(s.loop);
    MainIsUnanchored(p.h, p.interval, s.loop);
    ErrorsAreOpen(s);
    if answer.Some? && IsSound(answer.value) {
      SoundIsNumbered(answer.value);
      NewestIsAboveLast(p.h, p.interval, s.loop, answer.value);
    }
    FinishEffects(p, s, answer);
  }

  lemma StartHistory()
    ensures AnchorHistoryOk(START)
  {
  }

  lemma CountIsHistory(l: Loop)
    requires AnchorHistoryOk(l)
    ensures l.eventCount == SinceAnchor(l.mains)
  {
  }

  lemma SoundIsNumbered(r: Round)
    requires IsSound(r)
    ensures r.number > 0
  {
  }
}
