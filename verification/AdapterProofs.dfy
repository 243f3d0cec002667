/** The adapter's promises over every interleaving, alone and composed with the pool. */
module AdapterProofs {
  import opened Wire
  import opened Encoding
  import opened RunLoop
  import opened Pool
  import opened PoolProofs
  import opened Subscribers
  import opened Adapter

  // ----- counting callbacks -----

  function LiveOf(c: Callback): nat {
    if c.Finished? then 0 else 1
  }

  lemma {:induction false} CountsUpdate(cs: seq<Callback>, i: nat, c: Callback)
    requires i < |cs|
    ensures Live(cs[i := c]) + LiveOf(cs[i]) == Live(cs) + LiveOf(c)
    ensures TotalStepsLeft(cs[i := c]) + StepsLeft(cs[i]) == TotalStepsLeft(cs) + StepsLeft(c)
  {
    var last := |cs| - 1;
    if i == last {
      assert cs[i := c][..last] == cs[..last];
    } else {
      assert cs[i := c][..last] == cs[..last][i := c];
      CountsUpdate(cs[..last], i, c);
    }
  }

  lemma CountsAppend(cs: seq<Callback>, c: Callback)
    ensures Live(cs + [c]) == Live(cs) + LiveOf(c)
    ensures TotalStepsLeft(cs + [c]) == TotalStepsLeft(cs) + StepsLeft(c)
  {
    assert (cs + [c])[..|cs|] == cs;
  }

  lemma {:induction false} LiveMeansUnfinished(cs: seq<Callback>)
    ensures Live(cs) == 0 <==> forall i :: 0 <= i < |cs| ==> cs[i].Finished?
  {
    if cs != [] {
      LiveMeansUnfinished(cs[..|cs| - 1]);
    }
  }

  /** The callback a move belongs to. */
  function Mover(m: Move): nat
    requires IsCallbackMove(m)
  {
    match m
    case Build(i, _) => i
    case AddSucceeds(i) => i
    case AddFails(i) => i
    case Remember(i) => i
    case Report(i) => i
    case Return(i) => i
  }

  // ----- safety of the stop protocol -----

  /** A callback's move touches its own entry, and the counter exactly when it finishes. */
  lemma CallbackMoveIsLocal(g: Config, s: System, m: Move)
    requires CanMove(g, s, m) && IsCallbackMove(m)
    ensures var a, a', i := s.adapter, AdapterStep(g, s, m), Mover(m);
            && i < |a.callbacks| && |a'.callbacks| == |a.callbacks| && !a.callbacks[i].Finished?
            && a'.callbacks == a.callbacks[i := a'.callbacks[i]]
            && a'.waiting == a.waiting - (if a'.callbacks[i].Finished? then 1 else 0)
            && StepsLeft(a'.callbacks[i]) < StepsLeft(a.callbacks[i])
  {
    hide Enabled, Occurs, ComputeCID, CommitmentContent, Live, TotalStepsLeft;
    match m
    case Build(_, _) =>
    case AddSucceeds(_) =>
    case _ =>
  }

  lemma CallbackMoveEffects(g: Config, s: System, m: Move)
    requires AdapterOk(s.adapter) && CanMove(g, s, m) && IsCallbackMove(m) && Live(s.adapter.callbacks) > 0
    ensures var a, a' := s.adapter, AdapterStep(g, s, m);
            && a'.running == a.running && a'.cancelled == a.cancelled && a'.start == a.start && a'.stop == a.stop
            && !a'.panicked && a'.errs <= ADAPTER_ERRORS && a'.errsClosed == a.errsClosed
  {
    hide Enabled, Occurs, ComputeCID, CommitmentContent, Live;
  }

  lemma CallbackKeepsAdapter(g: Config, s: System, m: Move)
    requires AdapterOk(s.adapter) && CanMove(g, s, m) && IsCallbackMove(m)
    ensures AdapterOk(AdapterStep(g, s, m))
  {
    var a, a' := s.adapter, AdapterStep(g, s, m);
    hide AdapterStep, CanMove, Enabled;
    CallbackMoveIsLocal(g, s, m);
    LiveMeansUnfinished(a.callbacks);
    CallbackMoveEffects(g, s, m);
    CountsUpdate(a.callbacks, Mover(m), a'.callbacks[Mover(m)]);
  }

  lemma RegisterKeepsAdapter(g: Config, s: System)
    requires AdapterOk(s.adapter) && CanMove(g, s, Register)
    ensures AdapterOk(AdapterStep(g, s, Register))
  {
    CountsAppend(s.adapter.callbacks, Registered(s.adapter.lastEventID));
    hide Live;
  }

  lemma ControlKeepsAdapter(g: Config, s: System, m: Move)
    requires AdapterOk(s.adapter) && CanMove(g, s, m) && !IsCallbackMove(m) && !m.Register?
    ensures AdapterOk(AdapterStep(g, s, m))
  {
    hide Enabled, Occurs, Live;
  }

  lemma MoveKeepsAdapter(g: Config, s: System, m: Move)
    requires AdapterOk(s.adapter) && CanMove(g, s, m)
    ensures AdapterOk(AdapterStep(g, s, m))
  {
    hide AdapterOk, AdapterStep, CanMove;
    if IsCallbackMove(m) {
      CallbackKeepsAdapter(g, s, m);
    } else if m.Register? {
      RegisterKeepsAdapter(g, s);
    } else {
      ControlKeepsAdapter(g, s, m);
    }
  }

  /** Calls made on the pool carry a main event. */
  ghost predicate CallsOk(h: Hash, a: Adapter) {
    forall i :: 0 <= i < |a.callbacks| && a.callbacks[i].Calling? ==>
      IsMainContent(a.callbacks[i].content) && Occurs(h, a.callbacks[i].content)
  }

  lemma MoveKeepsCalls(g: Config, s: System, m: Move)
    requires CallsOk(g.pool.h, s.adapter) && CanMove(g, s, m)
    ensures CallsOk(g.pool.h, AdapterStep(g, s, m))
  {
    hide Enabled, Occurs, Live, ComputeCID;
  }

  lemma QueuedKeepsPool(p: Params, s: State, c: Content)
    requires p.interval > 0 && PoolOk(p, s) && IsMainContent(c) && Occurs(p.h, c) && |s.intake.queue| < QUEUE_SIZE
    ensures PoolOk(p, QueuedByAdapter(s, c))
  {
    hide LoopOk, FrontOk, Occurs;
    var s' := QueuedByAdapter(s, c);
    assert (s.intake.queued + [c])[|s.loop.verdicts|..] == s.intake.queued[|s.loop.verdicts|..] + [c];
  }

  ghost predicate SystemOk(g: Config, s: System)
    requires g.pool.interval > 0
  {
    PoolOk(g.pool, s.pool) && AdapterOk(s.adapter) && CallsOk(g.pool.h, s.adapter)
  }

  lemma MoveKeeps(g: Config, s: System, m: Move)
    requires g.pool.interval > 0 && CollisionFree(g.pool.h) && SystemOk(g, s) && CanMove(g, s, m)
    ensures SystemOk(g, Next(g, s, m))
  {
    hide PoolOk, AdapterOk, AdapterStep, Occurs, Step, QueuedByAdapter;
    MoveKeepsAdapter(g, s, m);
    MoveKeepsCalls(g, s, m);
    match m
    case PoolMove(action) => StepKeeps(g.pool, s.pool, action);
    case AddSucceeds(i) => QueuedKeepsPool(g.pool, s.pool, s.adapter.callbacks[i].content);
    case _ =>
  }

  lemma {:induction false} PlayKeeps(g: Config, s: System, run: seq<Move>, t: System)
    requires g.pool.interval > 0 && CollisionFree(g.pool.h) && SystemOk(g, s) && Play(g, s, run) == Some(t)
    ensures SystemOk(g, t)
    decreases |run|
  {
    hide SystemOk, Next, CanMove;
    if run != [] {
      MoveKeeps(g, s, run[0]);
      PlayKeeps(g, Next(g, s, run[0]), run[1..], t);
    }
  }

  lemma BeginningIsOk(g: Config)
    requires g.pool.interval > 0
    ensures SystemOk(g, BEGINNING)
  {
    hide PoolOk;
    InitialIsOk(g.pool);
  }

  /** No callback sends on the closed error channel and it is closed once; the wait group never goes below
      zero and is zero when the channel is closed; and after Stop has cleared `running` nobody registers. */
  lemma StopProtocolIsSafe(g: Config, run: seq<Move>, s: System)
    requires g.pool.interval > 0 && CollisionFree(g.pool.h) && Play(g, BEGINNING, run) == Some(s)
    ensures !s.adapter.panicked && !s.pool.life.panicked
    ensures s.adapter.waiting == Live(s.adapter.callbacks)
    ensures s.adapter.errsClosed ==> forall i :: 0 <= i < |s.adapter.callbacks| ==> s.adapter.callbacks[i].Finished?
    ensures StopTookEffect(s.adapter) && CanMove(g, s, Register) ==> Next(g, s, Register) == s
  {
    hide Play, LoopOk, FrontOk, QueueOk, ToldOk;
    BeginningIsOk(g);
    PlayKeeps(g, BEGINNING, run, s);
    LiveMeansUnfinished(s.adapter.callbacks);
  }

  // ----- the drain cannot hang -----

  lemma MoveSpendsSteps(g: Config, s: System, m: Move)
    requires AdapterOk(s.adapter) && StopTookEffect(s.adapter) && CanMove(g, s, m)
    ensures StopTookEffect(AdapterStep(g, s, m))
    ensures TotalStepsLeft(AdapterStep(g, s, m).callbacks) + (if IsCallbackMove(m) then 1 else 0)
         <= TotalStepsLeft(s.adapter.callbacks)
  {
    hide Enabled, Occurs;
    if IsCallbackMove(m) {
      var a, a' := s.adapter, AdapterStep(g, s, m);
      CallbackMoveIsLocal(g, s, m);
      CallbackMoveEffects(g, s, m) by { LiveMeansUnfinished(a.callbacks); }
      hide AdapterStep, CanMove;
      CountsUpdate(a.callbacks, Mover(m), a'.callbacks[Mover(m)]);
    }
  }

  /** Whatever else happens, at most four steps of each callback separate Stop from a drained wait group. */
  lemma {:induction false} DrainIsBounded(g: Config, s: System, run: seq<Move>, t: System)
    requires AdapterOk(s.adapter) && StopTookEffect(s.adapter) && Play(g, s, run) == Some(t)
    ensures CallbackMoves(run) + TotalStepsLeft(t.adapter.callbacks) <= TotalStepsLeft(s.adapter.callbacks)
    decreases |run|
  {
    hide CanMove, AdapterStep, AdapterOk;
    if run != [] {
      MoveKeepsAdapter(g, s, run[0]);
      MoveSpendsSteps(g, s, run[0]);
      DrainIsBounded(g, Next(g, s, run[0]), run[1..], t);
    }
  }

  // ----- Stop's wait ends -----

  /** What each callback's commitment turns out to encode to, or nothing when it cannot be encoded. */
  ghost predicate PayloadsOccur(g: Config, cs: seq<Callback>, payloads: seq<Option<Bytes>>) {
    && |payloads| == |cs|
    && forall i :: 0 <= i < |cs| && cs[i].Registered? && payloads[i].Some? ==>
         Occurs(g.pool.h, CommitmentContent(g.chain, cs[i].last, payloads[i].value))
  }

  /** The step a callback takes next when the adapter has been stopped, whatever the pool does. */
  function WayOut(c: Callback, i: nat, payload: Option<Bytes>): Move
    requires !c.Finished?
  {
    match c
    case Registered(_) => Build(i, payload)
    case Calling(_) => AddFails(i)
    case Accepted(_) => Remember(i)
    case Failing => Report(i)
    case Leaving => Return(i)
  }

  lemma WayOutIsOpen(g: Config, s: System, i: nat, payloads: seq<Option<Bytes>>)
    requires AdapterOk(s.adapter) && s.adapter.cancelled
    requires i < |s.adapter.callbacks| && !s.adapter.callbacks[i].Finished?
    requires PayloadsOccur(g, s.adapter.callbacks, payloads)
    ensures var m := WayOut(s.adapter.callbacks[i], i, payloads[i]);
            && CanMove(g, s, m) && IsCallbackMove(m) && !m.AddSucceeds? && Mover(m) == i
  {
    hide Occurs, CommitmentContent;
  }

  /** Builds use the payloads given. */
  predicate UsesPayloads(run: seq<Move>, payloads: seq<Option<Bytes>>) {
    forall k :: 0 <= k < |run| && run[k].Build? ==> run[k].i < |payloads| && run[k].data == payloads[run[k].i]
  }

  lemma SomeoneCanMove(g: Config, s: System, payloads: seq<Option<Bytes>>) returns (m: Move)
    requires AdapterOk(s.adapter) && s.adapter.cancelled && PayloadsOccur(g, s.adapter.callbacks, payloads)
    requires s.adapter.waiting != 0
    ensures IsCallbackMove(m) && UsesPayloads([m], payloads) && CanMove(g, s, m)
  {
    hide CanMove, Live;
    var cs := s.adapter.callbacks;
    LiveMeansUnfinished(cs);
    var i :| 0 <= i < |cs| && !cs[i].Finished?;
    WayOutIsOpen(g, s, i, payloads);
    m := WayOut(cs[i], i, payloads[i]);
  }

  /** If no callback can take a step with the payload it has, there is none left: once `Stop` or its owner has
      cancelled the context nothing is stuck, not even inside the pool's `AddEvent` with a full queue. */
  lemma QuietMeansDrained(g: Config, s: System, payloads: seq<Option<Bytes>>)
    requires AdapterOk(s.adapter) && s.adapter.cancelled && PayloadsOccur(g, s.adapter.callbacks, payloads)
    requires forall m :: IsCallbackMove(m) && UsesPayloads([m], payloads) ==> !CanMove(g, s, m)
    ensures s.adapter.waiting == 0
  {
    hide CanMove, AdapterOk, PayloadsOccur, UsesPayloads;
    if s.adapter.waiting != 0 {
      var m := SomeoneCanMove(g, s, payloads);
    }
  }

  lemma PayloadsStay(g: Config, s: System, m: Move, payloads: seq<Option<Bytes>>)
    requires PayloadsOccur(g, s.adapter.callbacks, payloads) && CanMove(g, s, m) && IsCallbackMove(m)
    ensures PayloadsOccur(g, AdapterStep(g, s, m).callbacks, payloads)
  {
    CallbackMoveIsLocal(g, s, m);
    hide CanMove, AdapterStep, Occurs, CommitmentContent;
  }

  /** From every state after Stop has cleared `running`, whatever the callbacks' commitments encode to, their
      own steps, at most those they have left, bring the wait group to zero. */
  lemma {:induction false} CallbacksDrain(g: Config, s: System, payloads: seq<Option<Bytes>>)
    returns (run: seq<Move>, t: System)
    requires AdapterOk(s.adapter) && StopTookEffect(s.adapter) && PayloadsOccur(g, s.adapter.callbacks, payloads)
    ensures Play(g, s, run) == Some(t) && t.adapter.waiting == 0 && t.pool == s.pool
    ensures AdapterOk(t.adapter) && t.adapter.stop == s.adapter.stop
    ensures |run| <= TotalStepsLeft(s.adapter.callbacks) && UsesPayloads(run, payloads)
    ensures forall k :: 0 <= k < |run| ==> IsCallbackMove(run[k])
    decreases TotalStepsLeft(s.adapter.callbacks)
  {
    hide AdapterOk, AdapterStep, CanMove, PayloadsOccur, TotalStepsLeft;
    var cs := s.adapter.callbacks;
    LiveMeansUnfinished(cs);
    if i :| 0 <= i < |cs| && !cs[i].Finished? {
      assert |payloads| == |cs| by { PayloadsCover(g, cs, payloads); }
      WaitingIsLive(s.adapter);
      var m := WayOut(cs[i], i, payloads[i]);
      WayOutIsOpen(g, s, i, payloads);
      MoveSpendsSteps(g, s, m);
      MoveKeepsAdapter(g, s, m);
      PayloadsStay(g, s, m, payloads);
      CallbackMoveEffects(g, s, m);
      var rest;
      rest, t := CallbacksDrain(g, Next(g, s, m), payloads);
      run := [m] + rest;
      assert run[1..] == rest;
    } else {
      run, t := [], s;
      WaitingIsLive(s.adapter);
    }
  }

  lemma PayloadsCover(g: Config, cs: seq<Callback>, payloads: seq<Option<Bytes>>)
    requires PayloadsOccur(g, cs, payloads)
    ensures |payloads| == |cs|
  {
  }

  lemma WaitingIsLive(a: Adapter)
    requires AdapterOk(a)
    ensures a.waiting == Live(a.callbacks) && (StopTookEffect(a) ==> a.cancelled)
  {
  }

  /** What `Stop` still has to do. */
  function StopRest(stop: StopPc): seq<Move> {
    match stop
    case Signalled => [StopHashpool, StopWait, StopClose]
    case Halted => [StopWait, StopClose]
    case Drained => [StopClose]
    case _ => []
  }

  lemma {:induction false} StopFinishes(g: Config, s: System) returns (t: System)
    requires AdapterOk(s.adapter) && StopTookEffect(s.adapter) && s.adapter.waiting == 0
    ensures Play(g, s, StopRest(s.adapter.stop)) == Some(t) && t.adapter.stop.Stopped? && !t.adapter.panicked
    ensures t.pool == s.pool
    decreases |StopRest(s.adapter.stop)|
  {
    hide Live;
    if s.adapter.stop.Stopped? {
      t := s;
    } else {
      var m := StopRest(s.adapter.stop)[0];
      MoveKeepsAdapter(g, s, m);
      hide AdapterOk;
      assert StopRest(s.adapter.stop)[1..] == StopRest(Next(g, s, m).adapter.stop);
      t := StopFinishes(g, Next(g, s, m));
    }
  }

  lemma {:induction false} PlayAppend(g: Config, s: System, run: seq<Move>, t: System, more: seq<Move>)
    requires Play(g, s, run) == Some(t)
    ensures Play(g, s, run + more) == Play(g, t, more)
    decreases |run|
  {
    hide CanMove, Next;
    if run == [] {
      assert run + more == more;
    } else {
      assert (run + more)[1..] == run[1..] + more;
      PlayAppend(g, Next(g, s, run[0]), run[1..], t, more);
    }
  }

  /** So a `Stop` that found the adapter running can always return: nothing outside the adapter has to move,
      the pool stays as it is, and no more steps are needed than the callbacks have left and three of its own. */
  lemma StopCanComplete(g: Config, s: System, payloads: seq<Option<Bytes>>) returns (run: seq<Move>, t: System)
    requires AdapterOk(s.adapter) && StopTookEffect(s.adapter) && PayloadsOccur(g, s.adapter.callbacks, payloads)
    ensures Play(g, s, run) == Some(t) && t.adapter.stop.Stopped? && !t.adapter.panicked && t.pool == s.pool
    ensures |run| <= TotalStepsLeft(s.adapter.callbacks) + 3
    ensures forall k :: 0 <= k < |run| ==> IsCallbackMove(run[k]) || run[k] in StopRest(s.adapter.stop)
  {
    hide AdapterOk, PayloadsOccur, Play;
    var drain, u := CallbacksDrain(g, s, payloads);
    t := StopFinishes(g, u);
    run := drain + StopRest(s.adapter.stop);
    PlayAppend(g, s, drain, u, StopRest(s.adapter.stop));
  }
}
