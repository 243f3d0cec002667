/** What becomes of an event the pool has accepted: exactly when the run goroutine can still take it off
    the queue, and that `Close` can always complete without anybody else's help. */
module QueueFate {
  import opened Wire
  import opened Encoding
  import opened Events
  import opened History
  import opened Subscribers
  import opened RunLoop
  import opened RunLoopProofs
  import opened Pool
  import opened PoolProofs
  import opened PoolTheorems

  // ----- composing runs -----

  lemma {:induction false} ExecAppend(p: Params, s: State, run: seq<Action>, t: State, more: seq<Action>)
    requires Exec(p, s, run) == Some(t)
    ensures Exec(p, s, run + more) == Exec(p, t, more)
    decreases |run|
  {
    hide Step, Enabled;
    if run == [] {
      assert run + more == more;
    } else {
      assert (run + more)[1..] == run[1..] + more;
      ExecAppend(p, Step(p, s, run[0]), run[1..], t, more);
    }
  }

  lemma ExecThen(p: Params, s: State, a: Action, more: seq<Action>)
    requires Enabled(p, s, a)
    ensures Exec(p, s, [a] + more) == Exec(p, Step(p, s, a), more)
  {
    hide Step, Enabled;
    assert ([a] + more)[1..] == more;
  }

  lemma ExecOne(p: Params, s: State, run: seq<Action>)
    requires run != [] && Enabled(p, s, run[0])
    ensures Exec(p, s, run) == Exec(p, Step(p, s, run[0]), run[1..])
  {
  }

  lemma ExecNone(p: Params, s: State)
    ensures Exec(p, s, []) == Some(s)
  {
  }

  // ----- finishing the iteration the goroutine is in -----

  /** The sub-events an iteration has yet to create, if drawn without parents, occur. */
  ghost predicate OccurFrom(h: Hash, main: Id, next: nat, count: nat) {
    forall j: nat :: next <= j < count && j < MAX_SUB_EVENTS ==> Occurs(h, SubContent(main, j, []))
  }

  /** The same for wherever the goroutine is; it holds trivially between iterations and after the last. */
  ghost predicate PendingOccur(h: Hash, pc: Pc) {
    match pc
    case Telling(SubItem(main, _, next, count)) => OccurFrom(h, main, next + 1, count)
    case Recording(SubItem(main, _, next, count)) => OccurFrom(h, main, next + 1, count)
    case Spawning(main, next, count) => OccurFrom(h, main, next, count)
    case _ => true
  }

  function Left(next: nat, count: nat): nat {
    1 + 3 * if next < count then count - next else 0
  }

  /** At most so many steps end the iteration when no further sub-events are drawn. */
  function Rank(pc: Pc): nat {
    match pc
    case Telling(MainItem(_)) => 3
    case Recording(MainItem(_)) => 2
    case Telling(SubItem(_, _, next, count)) => 2 + Left(next + 1, count)
    case Recording(SubItem(_, _, next, count)) => 1 + Left(next + 1, count)
    case Spawning(_, next, count) => Left(next, count)
    case _ => 0
  }

  predicate InIteration(pc: Pc) {
    !pc.Idle? && !pc.Exited?
  }

  /** What ends an iteration soonest: no sub-events drawn, no parents drawn, no beacon. */
  function Onwards(l: Loop): Action {
    match l.pc
    case Telling(_) => Tell
    case Recording(_) => Record(0)
    case _ => if CanSpawn(l) then Spawn([]) else Finish(None)
  }

  /** Neither what is queued nor how far `Close` has come. */
  predicate SameElsewhere(s: State, t: State) {
    && t.intake == s.intake && t.loop.verdicts == s.loop.verdicts
    && t.life.closing == s.life.closing && t.life.cancelled == s.life.cancelled
  }

  lemma OnwardsIsPossible(p: Params, s: State)
    requires p.interval > 0 && PoolOk(p, s) && InIteration(s.loop.pc) && PendingOccur(p.h, s.loop.pc)
    ensures Enabled(p, s, Onwards(s.loop))
  {
    hide StoreOk, RecentOk, AnchorsOk, ScheduleOk, LifeOk, QueueOk, ToldOk, Occurs;
  }

  lemma OnwardsIsCloser(p: Params, s: State)
    requires InIteration(s.loop.pc) && PendingOccur(p.h, s.loop.pc) && Enabled(p, s, Onwards(s.loop))
    ensures var t := Step(p, s, Onwards(s.loop));
            && !t.loop.pc.Exited? && PendingOccur(p.h, t.loop.pc) && Rank(t.loop.pc) < Rank(s.loop.pc)
            && SameElsewhere(s, t)
  {
    hide Occurs, Add, Accepts, Verdict, IsDraw, Notified, Window;
  }

  /** Steps of the run goroutine within its iteration, its return, and the steps of `Close`: none of them
      is a caller's, a subscriber's or a reader's, and none takes another event. */
  predicate IsOwnAction(a: Action) {
    a.Tell? || a.Record? || a.Spawn? || a.Finish? || a.Leave?
    || a.CloseSignal? || a.CloseWait? || a.CloseErrors? || a.CloseSubscribers?
  }

  predicate OwnActions(run: seq<Action>) {
    forall i :: 0 <= i < |run| ==> IsOwnAction(run[i])
  }

  /** Whatever it is doing, the goroutine can finish its iteration. */
  lemma {:induction false} IterationCanFinish(p: Params, s: State) returns (run: seq<Action>, t: State)
    requires p.interval > 0 && CollisionFree(p.h) && PoolOk(p, s)
    requires !s.loop.pc.Exited? && PendingOccur(p.h, s.loop.pc)
    ensures Exec(p, s, run) == Some(t) && PoolOk(p, t) && t.loop.pc.Idle? && SameElsewhere(s, t)
    ensures |run| <= Rank(s.loop.pc) && OwnActions(run)
    decreases Rank(s.loop.pc)
  {
    hide PoolOk, Exec, Step, Enabled, Occurs, PendingOccur, IsOwnAction;
    if s.loop.pc.Idle? {
      run, t := [], s;
      ExecNone(p, s);
    } else {
      var a := Onwards(s.loop);
      OnwardsIsPossible(p, s);
      OnwardsIsCloser(p, s);
      StepKeeps(p, s, a);
      var rest;
      rest, t := IterationCanFinish(p, Step(p, s, a));
      run := [a] + rest;
      ExecThen(p, s, a, rest);
      assert IsOwnAction(a) by { OnwardsIsOwn(s.loop); }
    }
  }

  lemma OnwardsIsOwn(l: Loop)
    ensures IsOwnAction(Onwards(l))
  {
  }

  // ----- the same for every draw and every answer -----

  /** A step of the goroutine within an iteration. */
  predicate IsIterationStep(a: Action) {
    a.Tell? || a.Record? || a.Spawn? || a.Finish?
  }

  function IterationSteps(run: seq<Action>): nat {
    if run == [] then 0 else (if IsIterationStep(run[0]) then 1 else 0) + IterationSteps(run[1..])
  }

  /** At most so many steps end the iteration, however many sub-events are drawn. */
  function MaxRank(pc: Pc): nat {
    match pc
    case Telling(MainItem(_)) => 2 + Left(0, MAX_SUB_EVENTS)
    case Recording(MainItem(_)) => 1 + Left(0, MAX_SUB_EVENTS)
    case _ => Rank(pc)
  }

  /** Nothing the goroutine does next waits: telling always, recording with any number drawn, spawning with
      any parents drawn, and finishing with any answer of the beacon. Twelve steps are the most there can be. */
  lemma IterationIsNeverStuck(p: Params, run: seq<Action>, s: State)
    requires p.interval > 0 && CollisionFree(p.h) && Reached(p, run, s)
    ensures s.loop.pc.Telling? ==> Enabled(p, s, Tell)
    ensures s.loop.pc.Recording? ==> forall count: nat :: count <= MAX_SUB_EVENTS ==> Enabled(p, s, Record(count))
    ensures s.loop.pc.Spawning? && !CanSpawn(s.loop) ==> forall answer :: Enabled(p, s, Finish(answer))
    ensures CanSpawn(s.loop) ==>
              forall parents :: IsDraw(s.loop.recent, parents)
                                && Occurs(p.h, SubContent(s.loop.pc.main, s.loop.pc.next, parents))
                ==> Enabled(p, s, Spawn(parents))
    ensures MaxRank(s.loop.pc) <= 12
  {
    hide StoreOk, RecentOk, AnchorsOk, ScheduleOk, LifeOk, QueueOk, ToldOk, Occurs, Exec, IsDraw, SubContent;
    ReachedIsOk(p, run, s);
  }

  lemma StepSpendsRank(p: Params, s: State, a: Action)
    requires Enabled(p, s, a) && !a.Take? && !a.Leave?
    ensures MaxRank(Step(p, s, a).loop.pc) + (if IsIterationStep(a) then 1 else 0) <= MaxRank(s.loop.pc)
  {
    hide Occurs, Add, Accepts, Verdict, IsDraw, Notified, Window, ClosedAll, SendError, ComputeCID, WithBeacon;
  }

  /** Within an iteration the goroutine takes at most `MaxRank` steps, whatever is drawn, whatever the beacon answers
      and whatever anybody else does in between. */
  lemma {:induction false} IterationIsBounded(p: Params, s: State, run: seq<Action>, t: State)
    requires Exec(p, s, run) == Some(t) && forall i :: 0 <= i < |run| ==> !run[i].Take? && !run[i].Leave?
    ensures IterationSteps(run) + MaxRank(t.loop.pc) <= MaxRank(s.loop.pc)
    decreases |run|
  {
    hide Step, Enabled, MaxRank;
    if run != [] {
      StepSpendsRank(p, s, run[0]);
      IterationIsBounded(p, Step(p, s, run[0]), run[1..], t);
    }
  }

  // ----- draining the queue -----

  lemma TakeIsPossible(p: Params, s: State, k: nat)
    requires QueueOk(p, s) && s.loop.pc.Idle? && |s.loop.verdicts| <= k < |s.intake.queued|
    ensures Enabled(p, s, Take)
    ensures var t := Step(p, s, Take);
            && !t.loop.pc.Exited? && PendingOccur(p.h, t.loop.pc)
            && |t.loop.verdicts| == |s.loop.verdicts| + 1 && t.intake.queued == s.intake.queued
  {
    hide Add, Accepts, Verdict, Occurs;
  }

  /** An idle goroutine can work the queue off up to any event in it. */
  lemma {:induction false} QueueCanDrain(p: Params, s: State, k: nat) returns (run: seq<Action>, t: State)
    requires p.interval > 0 && CollisionFree(p.h) && PoolOk(p, s)
    requires s.loop.pc.Idle? && k < |s.intake.queued|
    ensures Exec(p, s, run) == Some(t) && k < |t.loop.verdicts|
    decreases k - |s.loop.verdicts|
  {
    hide LoopOk, FrontOk, LifeOk, QueueOk, ToldOk, Exec, Step, Enabled, Occurs, PendingOccur;
    if k < |s.loop.verdicts| {
      run, t := [], s;
      ExecNone(p, s);
    } else {
      TakeIsPossible(p, s, k);
      StepKeeps(p, s, Take);
      var taken := Step(p, s, Take);
      var finish, u := IterationCanFinish(p, taken);
      var rest;
      rest, t := QueueCanDrain(p, u, k);
      run := [Take] + (finish + rest);
      ExecThen(p, s, Take, finish + rest);
      ExecAppend(p, taken, finish, u, rest);
    }
  }

  lemma ExitedStepKeepsLoop(p: Params, s: State, a: Action)
    requires s.loop.pc.Exited? && Enabled(p, s, a)
    ensures Step(p, s, a).loop == s.loop
  {
    hide Occurs;
  }

  lemma {:induction false} ExitedKeepsLoop(p: Params, s: State, run: seq<Action>, t: State)
    requires s.loop.pc.Exited? && Exec(p, s, run) == Some(t)
    ensures t.loop == s.loop
    decreases |run|
  {
    hide Step, Enabled;
    if run != [] {
      ExitedStepKeepsLoop(p, s, run[0]);
      ExitedKeepsLoop(p, Step(p, s, run[0]), run[1..], t);
    }
  }

  /** Some continuation takes the `k`-th accepted event off the queue. */
  ghost predicate EventuallyTaken(p: Params, s: State, k: nat) {
    exists more: seq<Action>, t: State :: Exec(p, s, more) == Some(t) && k < |t.loop.verdicts|
  }

  lemma ExitedIsCancelled(p: Params, s: State)
    requires p.interval > 0 && PoolOk(p, s) && s.loop.pc.Exited?
    ensures s.life.cancelled
  {
    hide LoopOk, FrontOk, QueueOk, ToldOk;
  }

  /** The exact fate of an accepted event, in every reachable state: it can still be taken, or has been,
      if and only if the run goroutine has not returned before taking it. It has not as long as nobody has
      cancelled its context. */
  lemma AcceptedEventsFate(p: Params, run: seq<Action>, s: State, k: nat)
    requires p.interval > 0 && CollisionFree(p.h) && Reached(p, run, s)
    requires k < |s.intake.queued| && PendingOccur(p.h, s.loop.pc)
    ensures EventuallyTaken(p, s, k) <==> k < |s.loop.verdicts| || !s.loop.pc.Exited?
    ensures !s.life.cancelled ==> EventuallyTaken(p, s, k)
  {
    hide PoolOk, Exec, Step, Enabled, Occurs, PendingOccur;
    ReachedIsOk(p, run, s);
    if s.loop.pc.Exited? {
      ExitedIsCancelled(p, s);
      ExecNone(p, s);
      forall more, t | Exec(p, s, more) == Some(t) ensures t.loop == s.loop {
        ExitedKeepsLoop(p, s, more, t);
      }
    } else {
      var finish, u := IterationCanFinish(p, s);
      var drain, t := QueueCanDrain(p, u, k);
      ExecAppend(p, s, finish, u, drain);
      assert Exec(p, s, finish + drain) == Some(t);
    }
  }

  // ----- what taking an event means -----

  /** An event taken off the queue is in the DAG, or the DAG rejected it for naming a parent not stored then. */
  predicate OutcomeOk(store: Store, id: Id, c: Content, r: Result<()>) {
    match r
    case Ok(_) => id in store
    case Err(DuplicateEvent(d)) => d == id && id in store
    case Err(MissingParent(q)) => q in c.parents
    case Err(_) => false
  }

  ghost predicate OutcomesOk(p: Params, s: State) {
    forall k :: 0 <= k < |s.loop.verdicts| && k < |s.intake.queued| ==>
      OutcomeOk(s.loop.store, ComputeCID(p.h, s.intake.queued[k]), s.intake.queued[k], s.loop.verdicts[k])
  }

  lemma VerdictOutcome(store: Store, n: Node)
    requires n.id != [] && n.content.kind == MAIN
    ensures OutcomeOk(Add(store, n), n.id, n.content, Verdict(store.Keys, n))
  {
    AddChangesOnlyChildren(store, n);
    hide Add, Targets, LinkAll;
  }

  lemma OutcomeStays(store: Store, store': Store, id: Id, c: Content, r: Result<()>)
    requires OutcomeOk(store, id, c, r) && store.Keys <= store'.Keys
    ensures OutcomeOk(store', id, c, r)
  {
  }

  lemma TakeEffects(p: Params, s: State)
    requires s.intake.queue != []
    ensures var t, n := Taken(p, s), NewNode(p.h, s.intake.queue[0]);
            && t.loop.store == Add(s.loop.store, n) && t.intake.queued == s.intake.queued
            && t.loop.verdicts == s.loop.verdicts + [Verdict(s.loop.store.Keys, n)]
            && s.loop.store.Keys <= t.loop.store.Keys
  {
    hide Add, Verdict, Accepts, ComputeCID, SendError;
    AddKeepsKeys(s.loop.store, NewNode(p.h, s.intake.queue[0]));
  }

  lemma TakeKeepsOutcomes(p: Params, s: State)
    requires CollisionFree(p.h) && QueueOk(p, s) && OutcomesOk(p, s) && s.intake.queue != []
    ensures OutcomesOk(p, Taken(p, s))
  {
    var c, t := s.intake.queue[0], Taken(p, s);
    hide OutcomeOk, Add, Verdict, Occurs, CollisionFree, ComputeCID, Taken;
    TakeEffects(p, s);
    HeadOccurs(p, s);
    IdentifierIsNonEmpty(p.h, c);
    VerdictOutcome(s.loop.store, NewNode(p.h, c));
    forall k | 0 <= k < |s.loop.verdicts|
      ensures OutcomeOk(t.loop.store, ComputeCID(p.h, s.intake.queued[k]), s.intake.queued[k], s.loop.verdicts[k])
    {
      OutcomeStays(s.loop.store, t.loop.store, ComputeCID(p.h, s.intake.queued[k]), s.intake.queued[k],
                   s.loop.verdicts[k]);
    }
  }

  lemma StepKeepsOutcomes(p: Params, s: State, a: Action)
    requires CollisionFree(p.h) && QueueOk(p, s) && OutcomesOk(p, s) && Enabled(p, s, a)
    ensures OutcomesOk(p, Step(p, s, a))
  {
    if a.Take? {
      TakeKeepsOutcomes(p, s);
    } else {
      var t := Step(p, s, a);
      QueueOnlyGrows(p, s, a);
      forall id | id in s.loop.store ensures id in t.loop.store {
        LoopKeepsContent(p, s, a, id);
      }
      hide OutcomeOk, Occurs, CollisionFree, ComputeCID, Step, Enabled;
      forall k | 0 <= k < |t.loop.verdicts| && k < |t.intake.queued|
        ensures OutcomeOk(t.loop.store, ComputeCID(p.h, t.intake.queued[k]), t.intake.queued[k], t.loop.verdicts[k])
      {
        OutcomeStays(s.loop.store, t.loop.store, ComputeCID(p.h, s.intake.queued[k]), s.intake.queued[k],
                     s.loop.verdicts[k]);
      }
    }
  }

  lemma QueueOnlyGrows(p: Params, s: State, a: Action)
    requires Enabled(p, s, a) && !a.Take?
    ensures s.intake.queued <= Step(p, s, a).intake.queued && Step(p, s, a).loop.verdicts == s.loop.verdicts
  {
    hide Add, Verdict, Occurs, WithBeacon, Notified, ClosedAll;
  }

  lemma {:induction false} RunKeepsOutcomes(p: Params, s: State, run: seq<Action>, t: State)
    requires p.interval > 0 && CollisionFree(p.h) && PoolOk(p, s) && OutcomesOk(p, s) && Exec(p, s, run) == Some(t)
    ensures OutcomesOk(p, t)
    decreases |run|
  {
    hide OutcomesOk, LoopOk, FrontOk, LifeOk, QueueOk, ToldOk, Step, Enabled;
    if run != [] {
      StepKeeps(p, s, run[0]);
      StepKeepsOutcomes(p, s, run[0]);
      RunKeepsOutcomes(p, Step(p, s, run[0]), run[1..], t);
    }
  }

  /** In every run the event with the `k`-th verdict is in the DAG, under the identifier its caller was given,
      unless it named a parent the DAG did not have when the event was taken. */
  lemma TakenEventsAreStored(p: Params, run: seq<Action>, s: State, k: nat)
    requires p.interval > 0 && CollisionFree(p.h) && Reached(p, run, s) && k < |s.loop.verdicts|
    ensures k < |s.intake.queued|
    ensures OutcomeOk(s.loop.store, ComputeCID(p.h, s.intake.queued[k]), s.intake.queued[k], s.loop.verdicts[k])
  {
    hide LoopOk, FrontOk, LifeOk, ToldOk, Exec, OutcomeOk;
    ReachedIsOk(p, run, s);
    InitialIsOk(p);
    RunKeepsOutcomes(p, INITIAL, run, s);
  }

  // ----- Close completes -----

  /** The next step of closing down when the goroutine is not in an iteration. */
  function CloseNext(s: State): Action {
    if s.life.closing.Open? then CloseSignal
    else if s.life.closing.Signalled? then if s.loop.pc.Exited? then CloseWait else Leave
    else if s.life.closing.Drained? then CloseErrors
    else CloseSubscribers
  }

  function CloseLeft(s: State): nat {
    match s.life.closing
    case Open => 5
    case Signalled => if s.loop.pc.Exited? then 3 else 4
    case Drained => 2
    case ErrsClosed => 1
    case Closed => 0
  }

  lemma CloseAdvances(p: Params, s: State)
    requires LifeOk(s) && !InIteration(s.loop.pc) && !s.life.closing.Closed?
    ensures Enabled(p, s, CloseNext(s)) && IsOwnAction(CloseNext(s))
    ensures !InIteration(Step(p, s, CloseNext(s)).loop.pc) && CloseLeft(Step(p, s, CloseNext(s))) < CloseLeft(s)
  {
  }

  lemma {:induction false} CloseFromRest(p: Params, s: State) returns (run: seq<Action>, t: State)
    requires p.interval > 0 && CollisionFree(p.h) && PoolOk(p, s) && !InIteration(s.loop.pc)
    ensures Exec(p, s, run) == Some(t) && t.life.closing.Closed? && |run| <= CloseLeft(s) && OwnActions(run)
    decreases CloseLeft(s)
  {
    hide LoopOk, FrontOk, LifeOk, QueueOk, ToldOk, Exec, Step, Enabled, IsOwnAction;
    if s.life.closing.Closed? {
      run, t := [], s;
      ExecNone(p, s);
    } else {
      var a := CloseNext(s);
      CloseAdvances(p, s);
      StepKeeps(p, s, a);
      var rest;
      rest, t := CloseFromRest(p, Step(p, s, a));
      run := [a] + rest;
      ExecThen(p, s, a, rest);
    }
  }

  /** Liveness of `Close`: from every reachable state, whatever the goroutine is doing and however full the
      queue and the channels are, it can be called and complete; the remainder of the iteration and five more
      steps are enough, and nobody has to read, call or unsubscribe. */
  lemma CloseCanComplete(p: Params, run: seq<Action>, s: State) returns (more: seq<Action>, t: State)
    requires p.interval > 0 && CollisionFree(p.h) && Reached(p, run, s) && PendingOccur(p.h, s.loop.pc)
    ensures Exec(p, s, more) == Some(t) && t.life.closing.Closed?
    ensures OwnActions(more) && |more| <= Rank(s.loop.pc) + 5
  {
    hide PoolOk, Exec, IsOwnAction, PendingOccur, Rank;
    ReachedIsOk(p, run, s);
    if InIteration(s.loop.pc) {
      var finish, u := IterationCanFinish(p, s);
      var rest;
      rest, t := CloseFromRest(p, u);
      more := finish + rest;
      ExecAppend(p, s, finish, u, rest);
    } else {
      more, t := CloseFromRest(p, s);
    }
  }

  // ----- and must, along every run -----

  /** A step of the goroutine or of `Close`; the verify tick is not counted. */
  predicate IsShutdownStep(a: Action) {
    a.Take? || IsOwnAction(a)
  }

  function ShutdownSteps(run: seq<Action>): nat {
    if run == [] then 0 else (if IsShutdownStep(run[0]) then 1 else 0) + ShutdownSteps(run[1..])
  }

  function CloseStepsLeft(closing: Closing): nat {
    match closing
    case Open => 4
    case Signalled => 3
    case Drained => 2
    case ErrsClosed => 1
    case Closed => 0
  }

  /** An iteration takes twelve steps at most, and the step that begins it. */
  const ITERATION_STEPS: nat := 13

  /** How many events may still be taken. */
  function Waiting(intake: Intake): nat {
    |intake.queue| + |intake.inFlight|
  }

  /** What is queued or still in flight may each cost an iteration. */
  function StepsToGo(s: State): nat {
    MaxRank(s.loop.pc) + ITERATION_STEPS * Waiting(s.intake)
    + (if s.loop.pc.Exited? then 0 else 1) + CloseStepsLeft(s.life.closing)
  }

  lemma TakeSpends(p: Params, s: State)
    requires Enabled(p, s, Take)
    ensures StepsToGo(Step(p, s, Take)) < StepsToGo(s) && Step(p, s, Take).life.done == s.life.done
  {
    hide Occurs, Add, Accepts, Verdict, ComputeCID;
  }

  lemma IterationOnlyRuns(p: Params, s: State, a: Action)
    requires Enabled(p, s, a) && IsIterationStep(a)
    ensures var t := Step(p, s, a);
            && t.intake == s.intake && t.life.closing == s.life.closing && t.life.done == s.life.done
            && !s.loop.pc.Exited? && !t.loop.pc.Exited?
  {
    hide Occurs, Add, Accepts, Verdict, IsDraw, Notified, Window, ComputeCID, WithBeacon;
  }

  lemma IterationSpends(p: Params, s: State, a: Action)
    requires Enabled(p, s, a) && IsIterationStep(a)
    ensures StepsToGo(Step(p, s, a)) < StepsToGo(s) && Step(p, s, a).life.done == s.life.done
  {
    hide Step, Enabled, MaxRank;
    StepSpendsRank(p, s, a);
    IterationOnlyRuns(p, s, a);
  }

  lemma RestOnlyDrains(p: Params, s: State, a: Action)
    requires s.life.done && Enabled(p, s, a) && !a.Take? && !IsIterationStep(a)
    ensures Waiting(Step(p, s, a).intake) <= Waiting(s.intake)
  {
    hide Occurs, Received, Unsubscribed, Subscribed, ClosedAll, SendError, Taken, SubSpawned, Finished, Notified;
    match a
    case Enqueue(c) => assert |s.intake.inFlight - multiset{c}| == |s.intake.inFlight| - 1;
    case GiveUp(c) => assert |s.intake.inFlight - multiset{c}| == |s.intake.inFlight| - 1;
    case _ =>
  }

  lemma RestOnlyCloses(p: Params, s: State, a: Action)
    requires s.life.done && Enabled(p, s, a) && !a.Take? && !IsIterationStep(a)
    ensures var t := Step(p, s, a);
            && t.life.done && (a.Leave? || t.loop.pc == s.loop.pc)
            && (a.Leave? ==> s.loop.pc.Idle? && t.loop.pc.Exited? && t.life == s.life)
            && CloseStepsLeft(t.life.closing) + (if IsShutdownStep(a) && !a.Leave? then 1 else 0)
                 <= CloseStepsLeft(s.life.closing)
  {
    hide Occurs, Received, Unsubscribed, Subscribed, ClosedAll, Taken, SubSpawned, Finished, Notified, Recorded;
  }

  lemma RestSpends(p: Params, s: State, a: Action)
    requires s.life.done && Enabled(p, s, a) && !a.Take? && !IsIterationStep(a)
    ensures Step(p, s, a).life.done
    ensures StepsToGo(Step(p, s, a)) + (if IsShutdownStep(a) then 1 else 0) <= StepsToGo(s)
  {
    hide Step, Enabled;
    RestOnlyDrains(p, s, a);
    RestOnlyCloses(p, s, a);
  }

  /** Once `Close` has begun the end is near along every run: whatever is drawn, answered, queued by calls under
      way or done by anybody else, the goroutine and `Close` together take at most this many steps more. */
  lemma {:induction false} ShutdownIsBounded(p: Params, s: State, run: seq<Action>, t: State)
    requires s.life.done && Exec(p, s, run) == Some(t)
    ensures ShutdownSteps(run) + StepsToGo(t) <= StepsToGo(s)
    decreases |run|
  {
    hide Step, Enabled, StepsToGo;
    if run != [] {
      var a := run[0];
      if a.Take? {
        TakeSpends(p, s);
      } else if IsIterationStep(a) {
        IterationSpends(p, s, a);
      } else {
        RestSpends(p, s, a);
      }
      ShutdownIsBounded(p, Step(p, s, a), run[1..], t);
    }
  }

  lemma SomethingIsLeft(p: Params, run: seq<Action>, s: State) returns (a: Action)
    requires p.interval > 0 && CollisionFree(p.h) && Reached(p, run, s) && PendingOccur(p.h, s.loop.pc)
    requires !s.life.closing.Closed?
    ensures IsOwnAction(a) && Enabled(p, s, a)
  {
    hide LoopOk, FrontOk, LifeOk, QueueOk, ToldOk, Exec, Enabled, PendingOccur, IsOwnAction;
    ReachedIsOk(p, run, s);
    if InIteration(s.loop.pc) {
      a := Onwards(s.loop);
      OnwardsIsPossible(p, s);
      OnwardsIsOwn(s.loop);
    } else {
      a := CloseNext(s);
      CloseAdvances(p, s);
    }
  }

  /** And it is the end: where neither the goroutine nor `Close` can take a step, `Close` has returned. */
  lemma QuietMeansClosed(p: Params, run: seq<Action>, s: State)
    requires p.interval > 0 && CollisionFree(p.h) && Reached(p, run, s) && PendingOccur(p.h, s.loop.pc)
    requires forall a :: IsOwnAction(a) ==> !Enabled(p, s, a)
    ensures s.life.closing.Closed?
  {
    hide Exec, Enabled, PendingOccur, IsOwnAction;
    if !s.life.closing.Closed? {
      var a := SomethingIsLeft(p, run, s);
    }
  }

  // ----- three ways to lose an accepted event -----

  lemma ExitedLoses(p: Params, s: State, k: nat)
    requires s.loop.pc.Exited? && |s.loop.verdicts| <= k
    ensures !EventuallyTaken(p, s, k)
  {
    hide Exec;
    forall more, t | Exec(p, s, more) == Some(t) ensures t.loop == s.loop {
      ExitedKeepsLoop(p, s, more, t);
    }
  }

  /** The event is queued, `Close` begins, and the goroutine sees the cancelled context before the queue. */
  function SignalOverQueue(c: Content): seq<Action> {
    [StartAdd(c), Enqueue(c), CloseSignal, Leave]
  }

  lemma QueuedBeforeCloseCanBeLost(p: Params, c: Content) returns (s: State)
    requires IsMainContent(c) && Occurs(p.h, c)
    ensures Reached(p, SignalOverQueue(c), s) && s.intake.queued == [c] && s.intake.inFlight == multiset{}
    ensures !EventuallyTaken(p, s, 0)
  {
    hide Exec, Occurs, Taken, SubSpawned, Finished, Notified, Subscribed, Unsubscribed, Received, Recorded, ClosedAll;
    var run := SignalOverQueue(c);
    var s1 := INITIAL.(intake := Intake([], multiset{c}, []));
    var s2 := s1.(intake := Intake([c], multiset{}, [c]));
    assert Step(p, INITIAL, StartAdd(c)) == s1;
    assert Step(p, s1, Enqueue(c)) == s2;
    var s3 := Step(p, s2, CloseSignal);
    s := Step(p, s3, Leave);
    ExecOne(p, INITIAL, run);
    ExecOne(p, s1, run[1..]);
    ExecOne(p, s2, run[1..][1..]);
    ExecOne(p, s3, run[1..][1..][1..]);
    assert run[1..][1..][1..][1..] == [];
    ExecNone(p, s);
    ExitedLoses(p, s, 0);
  }

  /** The context given to `NewPool` is cancelled; nobody ever calls `Close`. */
  function CancelledPool(c: Content): seq<Action> {
    [Cancel, Leave, StartAdd(c), Enqueue(c)]
  }

  lemma CancelledPoolKeepsAccepting(p: Params, c: Content) returns (s: State)
    requires IsMainContent(c) && Occurs(p.h, c)
    ensures Reached(p, CancelledPool(c), s) && s.intake.queued == [c] && s.life.closing.Open? && !s.life.done
    ensures !EventuallyTaken(p, s, 0)
  {
    hide Exec, Occurs, Taken, SubSpawned, Finished, Notified, Subscribed, Unsubscribed, Received, Recorded, ClosedAll;
    var run := CancelledPool(c);
    var s1 := Step(p, INITIAL, Cancel);
    var s2 := Step(p, s1, Leave);
    var s3 := s2.(intake := Intake([], multiset{c}, []));
    assert Step(p, s2, StartAdd(c)) == s3;
    s := s3.(intake := Intake([c], multiset{}, [c]));
    assert Step(p, s3, Enqueue(c)) == s;
    ExecOne(p, INITIAL, run);
    ExecOne(p, s1, run[1..]);
    ExecOne(p, s2, run[1..][1..]);
    ExecOne(p, s3, run[1..][1..][1..]);
    assert run[1..][1..][1..][1..] == [];
    ExecNone(p, s);
    ExitedLoses(p, s, 0);
  }

  /** The pool after `Close`, with one `AddEvent` call that had passed its check before. */
  function ClosedAround(c: Content): State {
    State(START.(pc := Exited), NOBODY, Life(false, true, true, Closed, [], true, false),
          Intake([], multiset{c}, []))
  }

  /** `Close` runs while the call is between its check and its send. */
  function ClosingRun(c: Content): seq<Action> {
    [StartAdd(c), CloseSignal, Leave, CloseWait, CloseErrors, CloseSubscribers]
  }

  /** The pool signalled and left, with the call still in flight. */
  function LeftAround(c: Content): State {
    State(START.(pc := Exited), NOBODY, Life(false, true, true, Signalled, [], false, false),
          Intake([], multiset{c}, []))
  }

  lemma LeaveAround(p: Params, c: Content, rest: seq<Action>)
    requires IsMainContent(c) && Occurs(p.h, c)
    ensures Exec(p, INITIAL, [StartAdd(c), CloseSignal, Leave] + rest) == Exec(p, LeftAround(c), rest)
  {
    hide Exec, Occurs, Taken, SubSpawned, Finished, Notified, Subscribed, Unsubscribed, Received, Recorded, ClosedAll;
    var run := [StartAdd(c), CloseSignal, Leave] + rest;
    var s1 := INITIAL.(intake := Intake([], multiset{c}, []));
    var s2 := s1.(life := LeftAround(c).life);
    assert Step(p, INITIAL, StartAdd(c)) == s1;
    ExecOne(p, INITIAL, run);
    ExecOne(p, s1, run[1..]);
    ExecOne(p, s2, run[1..][1..]);
    assert run[1..][1..][1..] == rest;
  }

  lemma CloseAround(p: Params, c: Content)
    requires IsMainContent(c) && Occurs(p.h, c)
    ensures Exec(p, INITIAL, ClosingRun(c)) == Some(ClosedAround(c))
  {
    hide Exec, Occurs, Taken, SubSpawned, Finished, Notified, Subscribed, Unsubscribed, Received, Recorded;
    var rest := [CloseWait, CloseErrors, CloseSubscribers];
    var s3 := LeftAround(c);
    var s4 := s3.(life := s3.life.(closing := Closing.Drained));
    var s5 := s4.(life := s4.life.(closing := ErrsClosed, errsClosed := true));
    LeaveAround(p, c, rest);
    assert ClosingRun(c) == [StartAdd(c), CloseSignal, Leave] + rest;
    ExecOne(p, s3, rest);
    ExecOne(p, s4, rest[1..]);
    assert ShutAll([], [], 0) == [];
    ExecOne(p, s5, rest[1..][1..]);
    assert rest[1..][1..][1..] == [];
    ExecNone(p, ClosedAround(c));
  }

  /** A call that passed its check before `Close` may still hand out an identifier after `Close` has returned;
      its event is never inserted. */
  lemma LateCallsAreLost(p: Params, c: Content) returns (s: State)
    requires IsMainContent(c) && Occurs(p.h, c)
    ensures Reached(p, ClosingRun(c) + [Enqueue(c)], s) && s.life.closing.Closed? && s.intake.queued == [c]
    ensures !EventuallyTaken(p, s, 0)
    ensures forall more, t :: Exec(p, s, more) == Some(t) ==> t.loop.store == map[]
  {
    hide Exec, Occurs, ClosingRun;
    var closed := ClosedAround(c);
    s := Step(p, closed, Enqueue(c));
    CloseAround(p, c);
    ExecAppend(p, INITIAL, ClosingRun(c), closed, [Enqueue(c)]);
    ExecOne(p, closed, [Enqueue(c)]);
    ExecNone(p, s);
    ExitedLoses(p, s, 0);
    forall more, t | Exec(p, s, more) == Some(t) ensures t.loop.store == map[] {
      NothingAfterClose(p, s, more, t);
    }
  }
}
