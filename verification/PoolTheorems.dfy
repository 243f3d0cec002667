/** The pool's promises, each for every reachable state or every run. */
module PoolTheorems {
  import opened Wire
  import opened Encoding
  import opened Events
  import opened Subscribers
  import opened RunLoop
  import opened RunLoopProofs
  import opened MainLog
  import opened Pool
  import opened PoolProofs

  // ----- the DAG the pool builds -----

  lemma SpawnInserts(p: Params, s: State, parents: seq<Id>, n: Node)
    requires CanSpawn(s.loop) && n == NewNode(p.h, SubContent(s.loop.pc.main, s.loop.pc.next, parents))
    requires Accepts(s.loop.store.Keys, n)
    ensures var t := SubSpawned(p, s, parents);
            && n.id !in s.loop.store && n.id in t.loop.store
            && t.loop.inserted == s.loop.inserted + [n.id] && t.life == s.life
  {
    AddChangesOnlyChildren(s.loop.store, n);
    hide Verdict, Add;
  }

  /** The creation of a sub-event never fails: it is inserted and no error is reported. */
  lemma SubEventsAreAlwaysInserted(p: Params, run: seq<Action>, s: State, parents: seq<Id>)
    requires p.interval > 0 && CollisionFree(p.h) && Reached(p, run, s) && Enabled(p, s, Spawn(parents))
    ensures var id := ComputeCID(p.h, SubContent(s.loop.pc.main, s.loop.pc.next, parents));
            var t := Step(p, s, Spawn(parents));
            && id !in s.loop.store && id in t.loop.store
            && t.loop.inserted == s.loop.inserted + [id] && t.life == s.life
  {
    hide LoopOk, FrontOk, LifeOk, QueueOk, ToldOk, Exec, IsDraw, Occurs, Verdict, Add, SubSpawned, CollisionFree;
    ReachedIsOk(p, run, s);
    DrawsAreRecent(s.loop.recent, parents);
    SubEventAccepted(p.h, p.interval, s.loop, parents);
    SpawnInserts(p, s, parents, NewNode(p.h, SubContent(s.loop.pc.main, s.loop.pc.next, parents)));
  }

  /** Anchors respect causality: along any mix of parent and spawning links, an anchored proper ancestor
      carries a strictly smaller round, and the later round is at most the last one used. */
  lemma AnchorsRespectAncestry(p: Params, run: seq<Action>, s: State, path: seq<Id>)
    requires p.interval > 0 && CollisionFree(p.h) && Reached(p, run, s)
    requires IsAncestry(s.loop.store, path) && path[0] in s.loop.store && path[|path| - 1] in s.loop.store
    requires RoundOf(s.loop.store, path[0]).Some? && RoundOf(s.loop.store, path[|path| - 1]).Some?
    ensures RoundOf(s.loop.store, path[|path| - 1]).value < RoundOf(s.loop.store, path[0]).value <= s.loop.lastRound
  {
    hide LoopOk, Exec;
    ReachedIsOk(p, run, s);
    AncestorsHaveSmallerRounds(p.h, p.interval, s.loop, path);
  }

  /** Anchored rounds rise strictly along the insertion log, and none is above the last one used. */
  lemma RoundsRiseWithInsertion(p: Params, run: seq<Action>, s: State, i: nat, j: nat)
    requires p.interval > 0 && CollisionFree(p.h) && Reached(p, run, s)
    requires i < j < |s.loop.inserted|
    ensures s.loop.inserted[i] in s.loop.store && s.loop.inserted[j] in s.loop.store
    ensures var (a, b) := (RoundOf(s.loop.store, s.loop.inserted[i]), RoundOf(s.loop.store, s.loop.inserted[j]));
            a.Some? && b.Some? ==> a.value < b.value
    ensures forall id :: id in s.loop.store && RoundOf(s.loop.store, id).Some?
              ==> id in s.loop.inserted && RoundOf(s.loop.store, id).value <= s.loop.lastRound
  {
    hide PcOk, RecentOk, MainsOk, ScheduleOk, Exec;
    ReachedIsOk(p, run, s);
  }

  /** The exact bookkeeping of the anchoring schedule over the main events completed so far, which are the
      insertion log's main events in order, each once, but for the one whose iteration is under way. */
  lemma AnchoringSchedule(p: Params, run: seq<Action>, s: State)
    requires p.interval > 0 && CollisionFree(p.h) && Reached(p, run, s)
    ensures MainsOf(s.loop.store, s.loop.inserted) == CompletedIds(s.loop.mains) + Current(s.loop.pc)
    ensures var mains, k := s.loop.mains, p.interval;
            && |mains| == AnchorCount(mains) * k + s.loop.failed + Min(s.loop.eventCount, k - 1)
            && (forall i, j :: 0 <= i < j < |mains| ==> mains[i].id != mains[j].id)
            && (forall i, j :: 0 <= i < j < |mains| && mains[i].round.Some? && mains[j].round.Some? ==> j - i >= k)
            && (s.loop.failed == 0 <==> OnSchedule(k, mains))
            && (forall i :: 0 <= i < |mains| ==> RecordsMain(s.loop.store, mains[i]))
            && (s.loop.pc.Idle? ==>
                  forall id :: IsMain(s.loop.store, id) ==> exists i :: 0 <= i < |mains| && mains[i].id == id)
  {
    hide StoreOk, PcOk, RecentOk, AnchorsOk, Exec;
    ReachedIsOk(p, run, s);
    MainsFollowTheLog(p, run, s);
  }

  // ----- identifiers -----

  lemma LoopKeepsContent(p: Params, s: State, a: Action, id: Id)
    requires id in s.loop.store && Enabled(p, s, a)
    ensures id in Step(p, s, a).loop.store
    ensures Step(p, s, a).loop.store[id].content == s.loop.store[id].content
  {
    hide Verdict, Targets, LinkAll, Add;
    match a
    case Take => AddChangesOnlyChildren(s.loop.store, NewNode(p.h, s.intake.queue[0]));
    case Spawn(parents) =>
      AddChangesOnlyChildren(s.loop.store, NewNode(p.h, SubContent(s.loop.pc.main, s.loop.pc.next, parents)));
    case _ =>
  }

  lemma {:induction false} RunKeepsContent(p: Params, s: State, run: seq<Action>, t: State, id: Id)
    requires Exec(p, s, run) == Some(t) && id in s.loop.store
    ensures id in t.loop.store && t.loop.store[id].content == s.loop.store[id].content
    decreases |run|
  {
    hide Step, Enabled;
    if run != [] {
      LoopKeepsContent(p, s, run[0], id);
      RunKeepsContent(p, Step(p, s, run[0]), run[1..], t, id);
    }
  }

  /** `VerifyCID`: the identifier is the one the content determines. */
  predicate VerifiesCID(h: Hash, n: Node) {
    n.id == ComputeCID(h, n.content)
  }

  /** Once a verified event's content is replaced by another one, it verifies exactly if the two are the same but for
      the order of the parents. */
  lemma TamperingIsDetected(h: Hash, n: Node, c: Content)
    requires CollisionFree(h) && Occurs(h, n.content) && Occurs(h, c) && VerifiesCID(h, n)
    ensures VerifiesCID(h, n.(content := c)) <==> SameContent(n.content, c)
  {
    SameIdSameContent(h, n.content, c);
  }

  /** An inserted event keeps its identifier and content, and so verifies, in every later state. */
  lemma InsertedEventsStayVerified(p: Params, run: seq<Action>, s: State, more: seq<Action>, t: State, id: Id)
    requires p.interval > 0 && CollisionFree(p.h) && Reached(p, run, s) && Exec(p, s, more) == Some(t)
    requires id in s.loop.store
    ensures id in t.loop.store && t.loop.store[id].id == id && t.loop.store[id].content == s.loop.store[id].content
    ensures VerifiesCID(p.h, t.loop.store[id]) && t.loop.store[id].id == ComputeCID(p.h, t.loop.store[id].content)
  {
    hide Exec, FrontOk, LifeOk, QueueOk, ToldOk, PcOk, RecentOk, AnchorsOk, MainsOk, ScheduleOk;
    ReachedIsOk(p, run, s);
    RunKeeps(p, s, more);
    RunKeepsContent(p, s, more, t, id);
  }

  // ----- channels -----

  /** No channel is sent on after it is closed, or closed twice; a listed subscription is open. */
  lemma ChannelsAreUsedSafely(p: Params, run: seq<Action>, s: State)
    requires p.interval > 0 && CollisionFree(p.h) && Reached(p, run, s)
    ensures !s.life.panicked
    ensures forall i :: 0 <= i < |s.front.subs| ==> (i in s.front.listed <==> !s.front.subs[i].closed)
    ensures s.life.closing.Closed? ==> forall i :: 0 <= i < |s.front.subs| ==> s.front.subs[i].closed
  {
    hide LoopOk, QueueOk, ToldOk, Exec;
    ReachedIsOk(p, run, s);
  }

  /** In every run `Tell` gives the event to every listed subscription with room, whatever it has received before,
      and drops it for exactly those with a hundred unread. */
  lemma TellDelivers(p: Params, run: seq<Action>, s: State)
    requires p.interval > 0 && CollisionFree(p.h) && Reached(p, run, s) && s.loop.pc.Telling?
    ensures Enabled(p, s, Tell)
    ensures var f, g, id := s.front, Step(p, s, Tell).front, s.loop.pc.item.id;
            && s.loop.inserted != [] && id == s.loop.inserted[|s.loop.inserted| - 1] && |g.subs| == |f.subs|
            && (forall i :: 0 <= i < |f.subs| && i in f.listed && |f.subs[i].buf| < 100 ==>
                  g.subs[i].buf == f.subs[i].buf + [id] && g.subs[i].accepted == f.subs[i].accepted + [id])
            && (forall i :: 0 <= i < |f.subs| && !(i in f.listed && |f.subs[i].buf| < 100) ==>
                  g.subs[i] == f.subs[i])
            && g.dropped == f.dropped + |set i | i in f.listed && |f.subs[i].buf| >= 100|
  {
    hide StoreOk, RecentOk, AnchorsOk, MainsOk, ScheduleOk, LifeOk, QueueOk, ToldOk, Exec, Notified, SubsBelow;
    ReachedIsOk(p, run, s);
    NotifyDelivers(s.front, s.loop.pc.item.id);
  }

  /** Every offer is taken or counted as dropped, dropped exactly when the subscriber had a hundred unread; each
      subscriber receives, in order, the rest of the insertion log between joining and leaving, all of it if it
      always had room; and the window is the log's last hundred. */
  lemma NotificationsAreConserved(p: Params, run: seq<Action>, s: State)
    requires p.interval > 0 && CollisionFree(p.h) && Reached(p, run, s)
    ensures TotalAccepted(s.front.subs) + s.front.dropped == TotalListeners(s.front.notices)
    ensures s.front.dropped == TotalMissed(s.front.notices)
    ensures forall i :: 0 <= i < |s.front.subs| ==> Followed(s.front, i)
    ensures forall i :: 0 <= i < |s.front.subs| ==> ReceivedAllUnlessCrowded(s.front, i)
    ensures Ids(s.front.notices) <= s.loop.inserted && |s.loop.inserted| - 1 <= |s.front.notices|
    ensures s.loop.recent == LastOf(RecordedLog(s.loop), 100)
  {
    hide StoreOk, PcOk, AnchorsOk, MainsOk, ScheduleOk, QueueOk, LifeOk, Followed, Exec, ReceivedAllUnlessCrowded;
    ReachedIsOk(p, run, s);
    forall i | 0 <= i < |s.front.subs| ensures ReceivedAllUnlessCrowded(s.front, i) {
      AllUnlessCrowded(s.front, i);
    }
  }

  /** If it had room at every notification between joining and leaving, it has received every one of them. */
  predicate ReceivedAllUnlessCrowded(f: Front, i: nat)
    requires i < |f.subs|
  {
    var sub, end := f.subs[i], End(f, f.subs[i]);
    && sub.since <= end <= |f.notices|
    && ((forall k :: sub.since <= k < end ==> i !in f.notices[k].crowded)
        ==> sub.accepted == Ids(f.notices[sub.since..end]))
  }

  lemma AllUnlessCrowded(f: Front, i: nat)
    requires i < |f.subs| && Followed(f, i)
    ensures ReceivedAllUnlessCrowded(f, i)
  {
    hide StreamOk, BufferOk, ListenedTo, Heard;
    var sub, end := f.subs[i], End(f, f.subs[i]);
    if forall k :: sub.since <= k < end ==> i !in f.notices[k].crowded {
      RoomMeansAll(f.notices, i, sub.since, end);
    }
  }

  // ----- after Close has returned -----

  predicate IsOver(s: State) {
    s.life.closing.Closed? && s.loop.pc.Exited? && s.life.done && !s.life.running && s.front.listed == []
  }

  /** Nothing but reading happens to the DAG, the subscribers and the error channel. */
  predicate Frozen(s: State, t: State) {
    && t.loop == s.loop && t.front.notices == s.front.notices && t.front.dropped == s.front.dropped
    && |t.front.subs| == |s.front.subs|
    && (forall i :: 0 <= i < |s.front.subs| ==> t.front.subs[i].accepted == s.front.subs[i].accepted)
    && |t.life.errs| <= |s.life.errs| && t.life.errs == s.life.errs[|s.life.errs| - |t.life.errs|..]
  }

  lemma OverStaysOver(p: Params, s: State, a: Action)
    requires IsOver(s) && Enabled(p, s, a)
    ensures IsOver(Step(p, s, a)) && Frozen(s, Step(p, s, a))
  {
    hide Occurs;
  }

  lemma {:induction false} NothingAfterClose(p: Params, s: State, run: seq<Action>, t: State)
    requires IsOver(s) && Exec(p, s, run) == Some(t)
    ensures IsOver(t) && Frozen(s, t)
    decreases |run|
  {
    hide Step, Enabled;
    if run != [] {
      OverStaysOver(p, s, run[0]);
      NothingAfterClose(p, Step(p, s, run[0]), run[1..], t);
    }
  }

  /** Once `Close` has returned, no run inserts, notifies or reports anything any more, and every `AddEvent`
      started then is refused. */
  lemma CloseIsFinal(p: Params, run: seq<Action>, s: State, more: seq<Action>, t: State)
    requires p.interval > 0 && CollisionFree(p.h) && Reached(p, run, s) && s.life.closing.Closed?
    requires Exec(p, s, more) == Some(t)
    ensures Frozen(s, t)
    ensures s.life.errsClosed && s.life.cancelled && s.life.done && !s.life.running
    ensures forall c :: Enabled(p, t, StartAdd(c)) ==> Step(p, t, StartAdd(c)) == t
  {
    assert IsOver(s) && s.life.errsClosed && s.life.cancelled by {
      hide LoopOk, FrontOk, QueueOk, ToldOk, Exec;
      ReachedIsOk(p, run, s);
    }
    hide Exec;
    NothingAfterClose(p, s, more, t);
  }
}
