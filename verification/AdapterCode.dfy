/** The adapter's own code over its shared fields. Between two critical sections the other goroutines may do
    whatever they are relied on to do; that every other move of the state machine respects this is proved. */
module AdapterCode {
  import opened Wire
  import opened Encoding
  import opened Pool
  import opened Adapter
  import opened AdapterProofs

  /** The fields the adapter's goroutines share. */
  datatype Shared = Shared(running: bool, cancelled: bool, ownerCancelled: bool, lastEventID: Id, waiting: int,
                           errs: nat, errsClosed: bool)

  function SharedOf(a: Adapter): Shared {
    Shared(a.running, a.cancelled, a.ownerCancelled, a.lastEventID, a.waiting, a.errs, a.errsClosed)
  }

  // ----- what each goroutine relies on -----

  /** Of a callback counted in the wait group. `alone` means that callbacks do not overlap. */
  predicate CallbackRelies(alone: bool, a: Shared, b: Shared) {
    && (b.running ==> a.running) && (a.cancelled ==> b.cancelled)
    && b.waiting >= 1 && b.errs <= ADAPTER_ERRORS && !b.errsClosed
    && (alone ==> b.lastEventID == a.lastEventID && b.waiting == a.waiting)
  }

  /** Of `Start` once it has marked the adapter running: only `Stop` clears that, together with cancelling,
      and otherwise only the owner of the context it was given cancels. */
  predicate StartRelies(a: Shared, b: Shared) {
    && (b.running ==> a.running && (b.cancelled ==> a.cancelled || b.ownerCancelled))
    && (a.running && !b.running ==> b.cancelled) && (a.cancelled ==> b.cancelled)
    && (a.ownerCancelled ==> b.ownerCancelled)
  }

  /** Of `Stop` before it closes the channel: nobody starts the adapter, registers or closes the channel. */
  predicate StopRelies(a: Shared, b: Shared) {
    && !b.running && b.cancelled && !b.errsClosed && b.errs <= ADAPTER_ERRORS
    && 0 <= b.waiting <= a.waiting
  }

  /** What holds of the fields whenever nobody is in a critical section. */
  predicate Sound(a: Shared) {
    a.waiting >= 0 && a.errs <= ADAPTER_ERRORS && (a.running ==> !a.errsClosed) && (a.errsClosed ==> a.waiting == 0)
  }

  // ----- the state machine is relied on rightly -----

  lemma MachineIsSound(a: Adapter)
    requires AdapterOk(a)
    ensures Sound(SharedOf(a))
  {
  }

  /** What the methods below ask of the fields holds in every reachable state of the machine. */
  lemma ReachableIsSound(g: Config, run: seq<Move>, s: System)
    requires g.pool.interval > 0 && CollisionFree(g.pool.h) && Play(g, BEGINNING, run) == Some(s)
    ensures Sound(SharedOf(s.adapter))
  {
    hide Play, PoolOk, CallsOk, AdapterOk, CollisionFree;
    BeginningIsOk(g);
    PlayKeeps(g, BEGINNING, run, s);
    MachineIsSound(s.adapter);
  }

  predicate IsAlone(g: Config, a: Adapter, i: nat) {
    g.sequential && forall j :: 0 <= j < |a.callbacks| && j != i ==> a.callbacks[j].Finished?
  }

  ghost predicate LiveAt(a: Adapter, i: nat) {
    i < |a.callbacks| && !a.callbacks[i].Finished?
  }

  predicate OthersMove(m: Move, i: nat) {
    IsCallbackMove(m) ==> Mover(m) != i
  }

  lemma LiveHolds(a: Adapter, i: nat)
    requires AdapterOk(a) && LiveAt(a, i)
    ensures a.waiting >= 1 && !a.errsClosed && a.errs <= ADAPTER_ERRORS && Live(a.callbacks) > 0
    ensures !a.start.NotStarted?
  {
    LiveMeansUnfinished(a.callbacks);
  }

  lemma OtherStepLeavesCallback(g: Config, s: System, m: Move, i: nat)
    requires CanMove(g, s, m) && OthersMove(m, i) && LiveAt(s.adapter, i)
    ensures var a, a' := s.adapter, AdapterStep(g, s, m);
            && LiveAt(a', i) && a'.callbacks[i] == a.callbacks[i]
            && (IsAlone(g, a, i) && Live(a.callbacks) > 0 ==>
                  IsAlone(g, a', i) && a'.lastEventID == a.lastEventID && a'.waiting == a.waiting)
  {
    hide Enabled, Occurs, ComputeCID, CommitmentContent, Live;
  }

  lemma OtherStepKeepsFlags(g: Config, s: System, m: Move)
    requires AdapterOk(s.adapter) && CanMove(g, s, m) && !s.adapter.start.NotStarted?
    ensures var a, a' := s.adapter, AdapterStep(g, s, m);
            && !a'.start.NotStarted? && (a'.running ==> a.running) && (a.cancelled ==> a'.cancelled)
  {
    hide Enabled, Occurs, ComputeCID, CommitmentContent, Live;
  }

  /** While a callback is registered, no run of the others takes from it what it relies on. */
  lemma {:induction false} OthersRespectCallback(g: Config, s: System, run: seq<Move>, t: System, i: nat)
    requires AdapterOk(s.adapter) && LiveAt(s.adapter, i) && Play(g, s, run) == Some(t)
    requires forall k :: 0 <= k < |run| ==> OthersMove(run[k], i)
    ensures LiveAt(t.adapter, i) && t.adapter.callbacks[i] == s.adapter.callbacks[i]
    ensures CallbackRelies(IsAlone(g, s.adapter, i), SharedOf(s.adapter), SharedOf(t.adapter))
    ensures IsAlone(g, s.adapter, i) ==> IsAlone(g, t.adapter, i)
    decreases |run|
  {
    hide AdapterOk, AdapterStep, CanMove, IsAlone, OthersMove, Live, LiveAt;
    LiveHolds(s.adapter, i);
    if run != [] {
      MoveKeepsAdapter(g, s, run[0]);
      OtherStepLeavesCallback(g, s, run[0], i);
      OtherStepKeepsFlags(g, s, run[0]);
      OthersRespectCallback(g, Next(g, s, run[0]), run[1..], t, i);
    }
  }

  /** When callbacks do not overlap, a callback is alone from its registration on. */
  lemma SequentialMeansAlone(g: Config, s: System, m: Move, i: nat)
    requires g.sequential && AdapterOk(s.adapter) && CanMove(g, s, m)
    requires (m.Register? && s.adapter.running && i == |s.adapter.callbacks|)
          || (IsCallbackMove(m) && Mover(m) == i && IsAlone(g, s.adapter, i))
    ensures IsAlone(g, AdapterStep(g, s, m), i)
    ensures m.Register? ==> LiveAt(AdapterStep(g, s, m), i)
  {
    if m.Register? {
      LiveMeansUnfinished(s.adapter.callbacks);
    } else {
      CallbackMoveIsLocal(g, s, m);
      hide CanMove, AdapterStep;
    }
  }

  predicate IsStopMove(m: Move) {
    m.StopHashpool? || m.StopWait? || m.StopClose?
  }

  lemma OtherStepRespectsStop(g: Config, s: System, m: Move)
    requires AdapterOk(s.adapter) && CanMove(g, s, m) && !IsStopMove(m)
    requires StopTookEffect(s.adapter)
    ensures var a, a' := s.adapter, AdapterStep(g, s, m); a'.stop == a.stop && a'.waiting <= a.waiting
  {
    hide Enabled, Occurs, ComputeCID, CommitmentContent, Live;
  }

  lemma StoppingHolds(a: Adapter)
    requires AdapterOk(a) && StopTookEffect(a)
    ensures !a.running && a.cancelled && a.errs <= ADAPTER_ERRORS && a.waiting >= 0
    ensures !a.stop.Stopped? ==> !a.errsClosed
  {
  }

  /** Between `Stop` clearing `running` and closing the channel, no run of the others touches what it relies on. */
  lemma {:induction false} OthersRespectStop(g: Config, s: System, run: seq<Move>, t: System)
    requires AdapterOk(s.adapter) && StopTookEffect(s.adapter) && !s.adapter.stop.Stopped?
    requires Play(g, s, run) == Some(t) && forall k :: 0 <= k < |run| ==> !IsStopMove(run[k])
    ensures StopRelies(SharedOf(s.adapter), SharedOf(t.adapter))
    decreases |run|
  {
    hide AdapterOk, AdapterStep, CanMove;
    StoppingHolds(s.adapter);
    if run != [] {
      MoveKeepsAdapter(g, s, run[0]);
      OtherStepRespectsStop(g, s, run[0]);
      OthersRespectStop(g, Next(g, s, run[0]), run[1..], t);
    }
  }

  lemma OtherStepRespectsStart(g: Config, s: System, m: Move)
    requires s.adapter.start.Starting? && CanMove(g, s, m) && !m.StartReturn?
    ensures var a, a' := s.adapter, AdapterStep(g, s, m);
            a'.start.Starting? && StartRelies(SharedOf(a), SharedOf(a'))
  {
    hide Enabled, Occurs, ComputeCID, CommitmentContent, Live;
    match m
    case PoolMove(_) =>
    case Build(_, _) =>
    case Report(_) =>
    case Return(_) =>
    case _ =>
  }

  /** While the hashpool node is starting, no run of the others touches what `Start` relies on. */
  lemma {:induction false} OthersRespectStart(g: Config, s: System, run: seq<Move>, t: System)
    requires s.adapter.start.Starting? && Play(g, s, run) == Some(t)
    requires forall k :: 0 <= k < |run| ==> !run[k].StartReturn?
    ensures StartRelies(SharedOf(s.adapter), SharedOf(t.adapter))
    decreases |run|
  {
    hide AdapterStep, CanMove;
    if run != [] {
      OtherStepRespectsStart(g, s, run[0]);
      OthersRespectStart(g, Next(g, s, run[0]), run[1..], t);
    }
  }

  /** The moves of the callback that stand between its sections: building its event and calling the pool. `sent` is
      what it passes to `AddEvent`, and `accepted` how the call ends. */
  ghost predicate CallsAsTheMachine(g: Config, i: nat, last: Id, data: Option<Bytes>, sent: Option<Content>,
                                    accepted: bool) {
    forall s: System ::
      && (CanMove(g, s, Build(i, data)) && s.adapter.callbacks[i] == Registered(last) && !s.pool.life.done ==>
            AdapterStep(g, s, Build(i, data)).callbacks[i] == if sent.Some? then Calling(sent.value) else Failing)
      && (CanMove(g, s, AddSucceeds(i)) && sent.Some? && accepted && s.adapter.callbacks[i] == Calling(sent.value) ==>
            AdapterStep(g, s, AddSucceeds(i)).callbacks[i] == Accepted(ComputeCID(g.pool.h, sent.value)))
      && (CanMove(g, s, AddFails(i)) && sent.Some? && !accepted && s.adapter.callbacks[i] == Calling(sent.value) ==>
            AdapterStep(g, s, AddFails(i)).callbacks[i] == Failing)
  }

  lemma CallsAreTheMachines(g: Config, i: nat, last: Id, data: Option<Bytes>, sent: Option<Content>, accepted: bool)
    requires sent == if data.Some? then Some(CommitmentContent(g.chain, last, data.value)) else None
    ensures CallsAsTheMachine(g, i, last, data, sent, accepted)
  {
    hide Enabled, Occurs, ComputeCID, CommitmentContent, Live;
  }

  // ----- the code -----

  class AdapterCode {
    const g: Config
    var running: bool
    var cancelled: bool
    var ownerCancelled: bool
    var lastEventID: Id
    var waiting: int
    var errs: nat
    var errsClosed: bool
    ghost var attempts: nat // errors sent by this code, whether or not there was room

    constructor (g: Config)
      ensures this.g == g && Now() == SharedOf(FRESH) && Valid()
    {
      this.g := g;
      running, cancelled, ownerCancelled, lastEventID := false, false, false, [];
      waiting, errs, errsClosed, attempts := 0, 0, false, 0;
    }

    function Now(): Shared
      reads this
    {
      Shared(running, cancelled, ownerCancelled, lastEventID, waiting, errs, errsClosed)
    }

    ghost predicate Valid()
      reads this
    {
      Sound(Now())
    }

    /** What one section does is the state machine's move `m`, made by a callback at `c` if it is a callback's. */
    twostate predicate Performs(m: Move, c: Callback)
      reads this
    {
      forall s: System ::
        SharedOf(s.adapter) == old(Now()) && CanMove(g, s, m)
        && (IsCallbackMove(m) ==> s.adapter.callbacks[Mover(m)] == c)
        ==> SharedOf(AdapterStep(g, s, m)) == Now()
    }

    method Assign(b: Shared)
      modifies this
      ensures Now() == b && attempts == old(attempts)
    {
      running, cancelled, ownerCancelled, lastEventID := b.running, b.cancelled, b.ownerCancelled, b.lastEventID;
      waiting, errs, errsClosed := b.waiting, b.errs, b.errsClosed;
    }

    /** The other goroutines run while a callback is registered. */
    method YieldInCallback()
      requires waiting >= 1 && !errsClosed && errs <= ADAPTER_ERRORS
      modifies this
      ensures CallbackRelies(g.sequential, old(Now()), Now())
      ensures attempts == old(attempts)
    {
      var b: Shared := *;
      if CallbackRelies(g.sequential, Now(), b) {
        Assign(b);
      }
    }

    /** The other goroutines run while the hashpool node starts. */
    method YieldInStart()
      modifies this
      ensures StartRelies(old(Now()), Now())
      ensures attempts == old(attempts)
    {
      var b: Shared := *;
      if StartRelies(Now(), b) {
        Assign(b);
      }
    }

    /** The other goroutines run until some callback has returned; `CallbacksDrain` says that one can. */
    method AwaitReturn()
      requires waiting > 0 && !running && cancelled && !errsClosed && errs <= ADAPTER_ERRORS
      modifies this
      ensures StopRelies(old(Now()), Now()) && waiting < old(waiting)
      ensures attempts == old(attempts)
    {
      var b: Shared := *;
      if StopRelies(Now(), b) && b.waiting < waiting {
        Assign(b);
      } else {
        waiting := waiting - 1;
      }
    }

    // ----- critical sections: what they change, and the move they are -----

    method RegisterCallback() returns (last: Id)
      requires running
      modifies `waiting
      ensures waiting == old(waiting) + 1 && last == lastEventID
      ensures Performs(Register, Leaving)
    {
      waiting := waiting + 1;
      last := lastEventID;
    }

    /** Sending on a closed channel would panic. */
    method SendError(ghost i: nat)
      requires !errsClosed
      modifies `errs, `attempts
      ensures errs == (if old(errs) < 100 then old(errs) + 1 else old(errs)) && attempts == old(attempts) + 1
      ensures Performs(Report(i), Failing)
    {
      attempts := attempts + 1;
      if errs < ADAPTER_ERRORS {
        errs := errs + 1;
      }
    }

    method RememberEvent(id: Id, ghost i: nat)
      modifies `lastEventID
      ensures lastEventID == id
      ensures Performs(Remember(i), Accepted(id))
    {
      lastEventID := id;
    }

    /** The deferred `Done`. A wait group below zero would panic. */
    method Done(ghost i: nat)
      requires waiting > 0
      modifies `waiting
      ensures waiting == old(waiting) - 1
      ensures Performs(Return(i), Leaving)
    {
      waiting := waiting - 1;
    }

    /** Closing a closed channel would panic. */
    method CloseErrors()
      requires !errsClosed
      modifies `errsClosed
      ensures errsClosed
      ensures Performs(StopClose, Leaving)
    {
      errsClosed := true;
    }

    // ----- the operations -----

    method ReportAndReturn(ghost i: nat)
      requires waiting >= 1 && !errsClosed && errs <= ADAPTER_ERRORS
      modifies this
      ensures Valid() && !errsClosed && attempts == old(attempts) + 1
      ensures g.sequential ==> waiting == old(waiting) - 1 && lastEventID == old(lastEventID)
    {
      hide Performs;
      SendError(i);
      YieldInCallback();
      Done(i);
    }

    /** `data` is the encoded commitment, if it can be encoded; `accepted` is how the pool's `AddEvent` ends. */
    method HandleCommitment(data: Option<Bytes>, accepted: bool, ghost i: nat)
      returns (sent: Option<Content>)
      requires Valid()
      modifies this
      ensures Valid()
      ensures !old(running) ==> Now() == old(Now()) && sent == None && attempts == old(attempts)
      ensures old(running) ==> (sent.Some? <==> data.Some?)
      ensures old(running) ==> attempts == old(attempts) + if data.None? || !accepted then 1 else 0
      ensures old(running) ==> CallsAsTheMachine(g, i, old(lastEventID), data, sent, accepted)
      ensures sent.Some? ==>
                && sent.value.kind == MAIN && sent.value.parentId == [] && Some(sent.value.data) == data
                && sent.value.parents == if g.chain && old(lastEventID) != [] then [old(lastEventID)] else []
      ensures g.sequential ==> waiting == old(waiting)
      ensures g.sequential && !(sent.Some? && accepted) ==> lastEventID == old(lastEventID)
      ensures g.sequential && sent.Some? && accepted ==> lastEventID == ComputeCID(g.pool.h, sent.value)
      ensures old(running) ==> !errsClosed
    {
      hide Performs, CallsAsTheMachine;
      sent := None;
      if !running {
        return;
      }
      var last := RegisterCallback();
      ghost var call := if data.Some? then Some(CommitmentContent(g.chain, last, data.value)) else None;
      CallsAreTheMachines(g, i, last, data, call, accepted);
      YieldInCallback();
      if data.None? {
        ReportAndReturn(i);
        return;
      }
      var parents: seq<Id> := [];
      if g.chain && last != [] {
        parents := [last];
      }
      var event := Content(MAIN, [], parents, data.value);
      sent := Some(event);
      YieldInCallback();
      if !accepted {
        ReportAndReturn(i);
        return;
      }
      RememberEvent(ComputeCID(g.pool.h, event), i);
      YieldInCallback();
      Done(i);
    }

    /** `hashpoolStarts` is whether the hashpool node starts. The adapter ends up running, unless `Stop` came
        in between and cancelled the context; if it is running and its context is cancelled all the same, that
        was the owner's doing. */
    method Start(hashpoolStarts: bool) returns (ok: bool)
      modifies this
      ensures old(running) ==> !ok && Now() == old(Now())
      ensures !old(running) ==> ok == hashpoolStarts && (ok ==> running || cancelled) && (!ok ==> !running)
      ensures !old(running) && running && cancelled ==> ownerCancelled
    {
      if running {
        return false;
      }
      cancelled := ownerCancelled;
      running := true;
      assert Performs(StartLock, Leaving);
      YieldInStart();
      label Locked:
      if !hashpoolStarts {
        running := false;
      }
      assert Performs@Locked(StartReturn(hashpoolStarts), Leaving);
      ok := hashpoolStarts;
    }

    /** Stopping a running adapter waits for every registered callback and then closes the channel, still
        open, for good; stopping any other changes nothing. */
    method Stop() returns (stopping: bool)
      requires Valid()
      modifies this
      ensures Valid() && stopping == old(running)
      ensures !old(running) ==> Now() == old(Now())
      ensures old(running) ==> !running && cancelled && waiting == 0 && errsClosed
    {
      if !running {
        return false;
      }
      cancelled := true;
      running := false;
      assert Performs(StopLock, Leaving);
      while waiting != 0
        invariant StopRelies(Now(), Now())
        decreases waiting
      {
        AwaitReturn();
      }
      CloseErrors();
      stopping := true;
    }
  }
}
