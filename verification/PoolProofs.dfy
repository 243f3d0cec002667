/** What every run of the pool keeps, whatever the interleaving, the draws and the beacon's answers. */
module PoolProofs {
  import opened Wire
  import opened Encoding
  import opened Events
  import opened Subscribers
  import opened RunLoop
  import opened RunLoopProofs
  import opened Pool

  // ----- one step, component by component -----

  lemma LeaveKeeps(h: Hash, interval: nat, l: Loop)
    requires interval > 0 && LoopOk(h, interval, l) && l.pc.Idle?
    ensures LoopOk(h, interval, l.(pc := Exited))
  {
    hide ScheduleOk;
    SameEventsSameOk(h, l, l.(pc := Exited));
  }

  lemma HeadOccurs(p: Params, s: State)
    requires QueueOk(p, s) && s.intake.queue != []
    ensures IsMainContent(s.intake.queue[0]) && Occurs(p.h, s.intake.queue[0])
  {
    assert s.intake.queue[0] in s.intake.queued;
  }

  lemma DrawsAreRecent(recent: seq<Id>, parents: seq<Id>)
    requires IsDraw(recent, parents)
    ensures forall p :: p in parents ==> p in recent
  {
  }

  lemma StepKeepsLoop(p: Params, s: State, a: Action)
    requires p.interval > 0 && CollisionFree(p.h)
    requires LoopOk(p.h, p.interval, s.loop) && QueueOk(p, s) && Enabled(p, s, a)
    ensures LoopOk(p.h, p.interval, Step(p, s, a).loop)
  {
    hide LoopOk, QueueOk, Occurs, IsDraw, TakeMain, SpawnSub, Anchored, Recorded;
    match a
    case Take =>
      HeadOccurs(p, s);
      TakeMainKeeps(p.h, p.interval, s.loop, s.intake.queue[0]);
    case Tell => ToldKeeps(p.h, p.interval, s.loop);
    case Record(count) => RecordedKeeps(p.h, p.interval, s.loop, count);
    case Spawn(parents) =>
      DrawsAreRecent(s.loop.recent, parents);
      SpawnSubKeeps(p.h, p.interval, s.loop, parents);
    case Finish(answer) => AnchoredKeeps(p.h, p.interval, s.loop, answer);
    case Leave => LeaveKeeps(p.h, p.interval, s.loop);
    case _ =>
  }

  lemma StepKeepsFront(p: Params, s: State, a: Action)
    requires FrontOk(s.front) && Enabled(p, s, a)
    ensures FrontOk(Step(p, s, a).front)
  {
    assert AllKnown(s.front.subs, s.front.listed);
    hide FrontOk, TakeMain, SpawnSub, Anchored, Recorded, Notified, Subscribed, Unsubscribed, ClosedAll, Received;
    match a
    case Tell => NotifyKeeps(s.front, s.loop.pc.item.id);
    case Join => SubscribeKeeps(s.front);
    case Part(i) => UnsubscribeKeeps(s.front, i);
    case Read(i) => ReceiveKeeps(s.front, i);
    case CloseSubscribers => CloseAllKeeps(s.front);
    case _ =>
  }

  lemma OnlyLeavingExits(p: Params, s: State, a: Action)
    requires Enabled(p, s, a) && Step(p, s, a).loop.pc.Exited?
    ensures s.loop.pc.Exited? || (a.Leave? && s.life.cancelled)
  {
    hide Add, Verdict, Accepts, Occurs, IsDraw, SendError, WithBeacon, ComputeCID;
  }

  lemma StepKeepsLife(p: Params, s: State, a: Action)
    requires LifeOk(s) && ListedAreOpen(s.front) && Enabled(p, s, a)
    ensures LifeOk(Step(p, s, a))
  {
    if Step(p, s, a).loop.pc.Exited? {
      OnlyLeavingExits(p, s, a);
    }
    hide TakeMain, SpawnSub, Anchored, Accepts;
    assert !SomeClosed(s.front);
    match a
    case Part(i) =>
      if i in s.front.listed && s.life.closing.Closed? {
        assert false;
      }
    case _ =>
  }

  /** Taking an event uses up the head of the queue and records one verdict. */
  lemma TakeKeepsQueue(p: Params, s: State)
    requires QueueOk(p, s) && s.intake.queue != []
    ensures QueueOk(p, Taken(p, s))
  {
    hide Add, Verdict, Occurs;
    var n := |s.loop.verdicts|;
    assert s.intake.queued[n..][1..] == s.intake.queued[n + 1..];
  }

  lemma EnqueueKeepsQueue(p: Params, s: State, c: Content)
    requires QueueOk(p, s) && Enabled(p, s, Enqueue(c))
    ensures QueueOk(p, Step(p, s, Enqueue(c)))
  {
    hide Occurs;
    assert (s.intake.queued + [c])[|s.loop.verdicts|..] == s.intake.queued[|s.loop.verdicts|..] + [c];
  }

  lemma QueueIgnoresRest(p: Params, s: State, s': State)
    requires QueueOk(p, s) && s'.intake.queue == s.intake.queue && s'.intake.queued == s.intake.queued
    requires |s'.loop.verdicts| == |s.loop.verdicts|
    requires forall c :: c in s'.intake.inFlight ==> c in s.intake.inFlight || (IsMainContent(c) && Occurs(p.h, c))
    ensures QueueOk(p, s')
  {
    hide Occurs;
  }

  lemma StepKeepsQueue(p: Params, s: State, a: Action)
    requires QueueOk(p, s) && Enabled(p, s, a)
    ensures QueueOk(p, Step(p, s, a))
  {
    hide Add, Verdict, Occurs, WithBeacon, QueueOk;
    match a
    case Take => TakeKeepsQueue(p, s);
    case Enqueue(c) => EnqueueKeepsQueue(p, s, c);
    case _ => QueueIgnoresRest(p, s, Step(p, s, a));
  }

  lemma TellKeepsTold(p: Params, s: State)
    requires ToldOk(s) && s.loop.pc.Telling? && ItemOk(s.loop, s.loop.pc.item) && AllKnown(s.front.subs, s.front.listed)
    ensures ToldOk(Step(p, s, Tell))
  {
    var notices, log := s.front.notices, s.loop.inserted;
    var notice := Notice(s.loop.pc.item.id, s.front.listed, Crowded(s.front.subs, s.front.listed));
    assert Ids(notices + [notice]) == Ids(notices) + [notice.id];
    assert log == log[..|log| - 1] + [notice.id];
  }

  lemma StepKeepsTold(p: Params, s: State, a: Action)
    requires p.interval > 0 && LoopOk(p.h, p.interval, s.loop) && ToldOk(s) && Enabled(p, s, a)
    ensures ToldOk(Step(p, s, a))
  {
    hide StoreOk, RecentOk, AnchorsOk, MainsOk, ScheduleOk, Add, Verdict;
    match a
    case Tell => TellKeepsTold(p, s);
    case _ =>
  }

  lemma StepKeeps(p: Params, s: State, a: Action)
    requires p.interval > 0 && CollisionFree(p.h) && PoolOk(p, s) && Enabled(p, s, a)
    ensures PoolOk(p, Step(p, s, a))
  {
    assert ListedAreOpen(s.front);
    hide LoopOk, FrontOk, LifeOk, QueueOk, ToldOk, Step, Enabled;
    StepKeepsLoop(p, s, a);
    StepKeepsFront(p, s, a);
    StepKeepsLife(p, s, a);
    StepKeepsQueue(p, s, a);
    StepKeepsTold(p, s, a);
  }

  // ----- runs -----

  lemma {:induction false} RunKeeps(p: Params, s: State, run: seq<Action>)
    requires p.interval > 0 && CollisionFree(p.h) && PoolOk(p, s) && Exec(p, s, run).Some?
    ensures PoolOk(p, Exec(p, s, run).value)
    decreases |run|
  {
    hide PoolOk, Step, Enabled;
    if run != [] {
      StepKeeps(p, s, run[0]);
      RunKeeps(p, Step(p, s, run[0]), run[1..]);
    }
  }

  ghost predicate Reached(p: Params, run: seq<Action>, s: State) {
    Exec(p, INITIAL, run) == Some(s)
  }

  lemma NobodyIsOk()
    ensures FrontOk(NOBODY)
  {
  }

  lemma InitialIsOk(p: Params)
    requires p.interval > 0
    ensures PoolOk(p, INITIAL)
  {
    hide LoopOk, FrontOk;
    NobodyIsOk();
    StartIsOk(p.h, p.interval);
  }

  lemma ReachedIsOk(p: Params, run: seq<Action>, s: State)
    requires p.interval > 0 && CollisionFree(p.h) && Reached(p, run, s)
    ensures PoolOk(p, s)
  {
    hide PoolOk, Exec;
    InitialIsOk(p);
    RunKeeps(p, INITIAL, run);
  }
}
