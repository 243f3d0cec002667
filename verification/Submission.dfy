/** What becomes of a commitment: it can always be submitted and remembered while the pool has room, a failure is
    always reported, and every one ends as exactly one of the two. */
module Submission {
  import opened Wire
  import opened Encoding
  import opened Pool
  import opened Adapter
  import opened AdapterProofs

  lemma PlayFirst(g: Config, s: System, m: Move, t: System, rest: seq<Move>)
    requires CanMove(g, s, m) && Next(g, s, m) == t
    ensures Play(g, s, [m] + rest) == Play(g, t, rest)
  {
    hide CanMove, Next;
    assert ([m] + rest)[1..] == rest;
  }

  lemma PlayNothing(g: Config, s: System)
    ensures Play(g, s, []) == Some(s)
  {
  }

  /** The event a commitment is made into: its only parent is the last event, if commitments are chained and there
      is one. */
  function EventFor(g: Config, last: Id, data: Bytes): Content {
    Content(0, [], if g.chain && last != [] then [last] else [], data)
  }

  /** The adapter with callback `i` somewhere else. */
  function Moved(s: System, i: nat, c: Callback): System
    requires At(s.adapter, i)
  {
    s.(adapter := s.adapter.(callbacks := s.adapter.callbacks[i := c]))
  }

  lemma BuildCalls(g: Config, s: System, i: nat, last: Id, data: Bytes)
    requires At(s.adapter, i) && s.adapter.callbacks[i] == Registered(last) && !s.pool.life.done
    requires Occurs(g.pool.h, EventFor(g, last, data))
    ensures CanMove(g, s, Build(i, Some(data)))
    ensures Next(g, s, Build(i, Some(data))) == Moved(s, i, Calling(EventFor(g, last, data)))
  {
    hide Occurs, Enabled;
  }

  lemma AddAccepts(g: Config, s: System, i: nat, c: Content)
    requires At(s.adapter, i) && s.adapter.callbacks[i] == Calling(c) && |s.pool.intake.queue| < 100
    ensures CanMove(g, s, AddSucceeds(i))
    ensures var t, id := Next(g, s, AddSucceeds(i)), ComputeCID(g.pool.h, c);
            && t.pool == s.pool.(intake := s.pool.intake.(queue := s.pool.intake.queue + [c],
                                                          queued := s.pool.intake.queued + [c]))
            && t.adapter == Moved(s, i, Accepted(id)).adapter.(accepted := s.adapter.accepted + [c],
                              positions := s.adapter.positions + [|s.pool.intake.queued|])
  {
    hide ComputeCID;
  }

  /** The whole way of a commitment through a pool with room. */
  function Submitting(i: nat, data: Bytes): seq<Move> {
    [Build(i, Some(data))] + ([AddSucceeds(i)] + ([Remember(i)] + ([Return(i)] + [])))
  }

  /** Afterwards its event is queued and remembered, and nothing else about pool and adapter has changed. */
  predicate IsSubmitted(g: Config, s: System, t: System, i: nat, c: Content)
    requires At(s.adapter, i)
  {
    && t.pool == s.pool.(intake := s.pool.intake.(queue := s.pool.intake.queue + [c],
                                                  queued := s.pool.intake.queued + [c]))
    && t.adapter == s.adapter.(callbacks := s.adapter.callbacks[i := Finished], lastEventID := ComputeCID(g.pool.h, c),
                      accepted := s.adapter.accepted + [c], waiting := s.adapter.waiting - 1,
                      positions := s.adapter.positions + [|s.pool.intake.queued|])
  }

  /** In every reachable system a registered callback can submit its commitment, on whatever event it follows, as
      long as the pool is open and has room; its event is then the last one accepted and the one remembered. */
  lemma CommitmentsCanBeSubmitted(g: Config, run: seq<Move>, s: System, i: nat, last: Id, data: Bytes)
    returns (t: System)
    requires g.pool.interval > 0 && CollisionFree(g.pool.h) && Play(g, BEGINNING, run) == Some(s)
    requires At(s.adapter, i) && s.adapter.callbacks[i] == Registered(last)
    requires !s.pool.life.done && |s.pool.intake.queue| < 100 && Occurs(g.pool.h, EventFor(g, last, data))
    ensures Play(g, s, Submitting(i, data)) == Some(t) && IsSubmitted(g, s, t, i, EventFor(g, last, data))
  {
    hide Play, Occurs, SystemOk, CollisionFree, EventFor, ComputeCID, CanMove, Next;
    BeginningIsOk(g);
    PlayKeeps(g, BEGINNING, run, s);
    var c := EventFor(g, last, data);
    var s1 := Moved(s, i, Calling(c));
    BuildCalls(g, s, i, last, data);
    AddAccepts(g, s1, i, c);
    var s2 := Next(g, s1, AddSucceeds(i));
    assert s2.adapter.callbacks[i] == Accepted(ComputeCID(g.pool.h, c));
    var s3 := RememberAndReturn(g, s, s2, i, c);
    t := s3;
    PlayFirst(g, s, Build(i, Some(data)), s1, [AddSucceeds(i)] + ([Remember(i)] + ([Return(i)] + [])));
    PlayFirst(g, s1, AddSucceeds(i), s2, [Remember(i)] + ([Return(i)] + []));
  }

  lemma RememberAndReturn(g: Config, s: System, s2: System, i: nat, c: Content) returns (t: System)
    requires g.pool.interval > 0 && SystemOk(g, s) && At(s.adapter, i) && !s.adapter.callbacks[i].Finished?
    requires s2.adapter == s.adapter.(callbacks := s.adapter.callbacks[i := Accepted(ComputeCID(g.pool.h, c))],
                             accepted := s2.adapter.accepted, positions := s2.adapter.positions)
    ensures Play(g, s2, [Remember(i)] + ([Return(i)] + [])) == Some(t) && t.pool == s2.pool
    ensures t.adapter == s2.adapter.(callbacks := s.adapter.callbacks[i := Finished],
                           lastEventID := ComputeCID(g.pool.h, c), waiting := s.adapter.waiting - 1)
  {
    hide ComputeCID, PoolOk, CallsOk;
    LiveMeansUnfinished(s.adapter.callbacks);
    var s3 := Next(g, s2, Remember(i));
    t := Next(g, s3, Return(i));
    hide Play, Live;
    PlayFirst(g, s2, Remember(i), s3, [Return(i)] + []);
    PlayFirst(g, s3, Return(i), t, []);
    PlayNothing(g, t);
  }

  /** From the moment the adapter is running, a new callback can register and do all of this, following the event the
      adapter remembers. */
  lemma RunningAdapterSubmits(g: Config, run: seq<Move>, s: System, data: Bytes) returns (t: System)
    requires g.pool.interval > 0 && CollisionFree(g.pool.h) && Play(g, BEGINNING, run) == Some(s)
    requires s.adapter.running && (g.sequential ==> s.adapter.waiting == 0)
    requires !s.pool.life.done && |s.pool.intake.queue| < 100
    requires Occurs(g.pool.h, EventFor(g, s.adapter.lastEventID, data))
    ensures var n, c := |s.adapter.callbacks|, EventFor(g, s.adapter.lastEventID, data);
            && Play(g, s, [Register] + Submitting(n, data)) == Some(t)
            && t.adapter.accepted == s.adapter.accepted + [c] && t.adapter.lastEventID == ComputeCID(g.pool.h, c)
            && t.pool.intake.queued == s.pool.intake.queued + [c] && t.adapter.waiting == s.adapter.waiting
  {
    hide Play, Occurs, CollisionFree, EventFor, ComputeCID, PoolOk, CallsOk, Live, Submitting;
    BeginningIsOk(g);
    PlayKeeps(g, BEGINNING, run, s);
    var n := |s.adapter.callbacks|;
    var s1 := Next(g, s, Register);
    assert s1.adapter.callbacks[n] == Registered(s.adapter.lastEventID);
    PlayFirst(g, s, Register, s1, []);
    PlayNothing(g, s1);
    assert [Register] + [] == [Register];
    PlayAppend(g, BEGINNING, run, s, [Register]);
    t := CommitmentsCanBeSubmitted(g, run + [Register], s1, n, s.adapter.lastEventID, data);
    PlayFirst(g, s, Register, s1, Submitting(n, data));
  }

  // ----- failures -----

  /** An error sent to the adapter's channel: there is room for a hundred. */
  function OneMore(errs: nat): nat {
    if errs < 100 then errs + 1 else errs
  }

  /** The callback is finished and has reported; nothing was accepted or remembered. */
  predicate IsReported(s: System, t: System, i: nat)
    requires At(s.adapter, i)
  {
    && t.pool == s.pool
    && t.adapter == s.adapter.(callbacks := s.adapter.callbacks[i := Finished], errs := OneMore(s.adapter.errs),
                      reports := s.adapter.reports + 1, waiting := s.adapter.waiting - 1)
  }

  lemma ReportAndReturn(g: Config, s: System, s1: System, i: nat) returns (t: System)
    requires g.pool.interval > 0 && SystemOk(g, s) && At(s.adapter, i) && !s.adapter.callbacks[i].Finished?
    requires s1 == Moved(s, i, Failing)
    ensures Play(g, s1, [Report(i)] + ([Return(i)] + [])) == Some(t) && IsReported(s, t, i)
  {
    hide ComputeCID, PoolOk, CallsOk;
    LiveMeansUnfinished(s.adapter.callbacks);
    var s2 := Next(g, s1, Report(i));
    t := Next(g, s2, Return(i));
    hide Play, Live;
    PlayFirst(g, s1, Report(i), s2, [Return(i)] + []);
    PlayFirst(g, s2, Return(i), t, []);
    PlayNothing(g, t);
  }

  /** In every reachable system a commitment that cannot be encoded is reported. */
  lemma EncodingFailuresAreReported(g: Config, run: seq<Move>, s: System, i: nat) returns (t: System)
    requires g.pool.interval > 0 && CollisionFree(g.pool.h) && Play(g, BEGINNING, run) == Some(s)
    requires At(s.adapter, i) && s.adapter.callbacks[i].Registered?
    ensures Play(g, s, [Build(i, None)] + ([Report(i)] + ([Return(i)] + []))) == Some(t) && IsReported(s, t, i)
  {
    hide Play, SystemOk, CollisionFree, ComputeCID;
    BeginningIsOk(g);
    PlayKeeps(g, BEGINNING, run, s);
    t := ReportAndReturn(g, s, Moved(s, i, Failing), i);
    PlayFirst(g, s, Build(i, None), Moved(s, i, Failing), [Report(i)] + ([Return(i)] + []));
  }

  /** So is one whose call on the pool ends because the pool or the context is done. */
  lemma AddFailuresAreReported(g: Config, run: seq<Move>, s: System, i: nat) returns (t: System)
    requires g.pool.interval > 0 && CollisionFree(g.pool.h) && Play(g, BEGINNING, run) == Some(s)
    requires At(s.adapter, i) && s.adapter.callbacks[i].Calling? && (s.pool.life.done || s.adapter.cancelled)
    ensures Play(g, s, [AddFails(i)] + ([Report(i)] + ([Return(i)] + []))) == Some(t) && IsReported(s, t, i)
  {
    hide Play, SystemOk, CollisionFree, ComputeCID;
    BeginningIsOk(g);
    PlayKeeps(g, BEGINNING, run, s);
    t := ReportAndReturn(g, s, Moved(s, i, Failing), i);
    PlayFirst(g, s, AddFails(i), Moved(s, i, Failing), [Report(i)] + ([Return(i)] + []));
  }

  /** A pool that has begun to close takes no new commitment: one that is encoded from then on is reported. */
  lemma ClosingPoolRefuses(g: Config, run: seq<Move>, s: System, i: nat, data: Bytes) returns (t: System)
    requires g.pool.interval > 0 && CollisionFree(g.pool.h) && Play(g, BEGINNING, run) == Some(s)
    requires At(s.adapter, i) && s.adapter.callbacks[i].Registered? && s.pool.life.done
    requires Occurs(g.pool.h, EventFor(g, s.adapter.callbacks[i].last, data))
    ensures Play(g, s, [Build(i, Some(data))] + ([Report(i)] + ([Return(i)] + []))) == Some(t) && IsReported(s, t, i)
  {
    hide Play, SystemOk, CollisionFree, ComputeCID, Occurs;
    BeginningIsOk(g);
    PlayKeeps(g, BEGINNING, run, s);
    t := ReportAndReturn(g, s, Moved(s, i, Failing), i);
    PlayFirst(g, s, Build(i, Some(data)), Moved(s, i, Failing), [Report(i)] + ([Return(i)] + []));
  }

  /** The owner of the context given to `Start` can cancel it at any time, and that alone is enough to get a callback
      out of the pool's `AddEvent`. */
  lemma OwnerCanAbort(g: Config, run: seq<Move>, s: System, i: nat) returns (t: System)
    requires g.pool.interval > 0 && CollisionFree(g.pool.h) && Play(g, BEGINNING, run) == Some(s)
    requires At(s.adapter, i) && s.adapter.callbacks[i].Calling?
    ensures var cancelled := s.(adapter := s.adapter.(cancelled := true, ownerCancelled := true));
            && Play(g, s, [OwnerCancel] + ([AddFails(i)] + ([Report(i)] + ([Return(i)] + [])))) == Some(t)
            && IsReported(cancelled, t, i)
  {
    hide Play, SystemOk, CollisionFree, ComputeCID;
    var s1 := s.(adapter := s.adapter.(cancelled := true, ownerCancelled := true));
    PlayFirst(g, s, OwnerCancel, s1, []);
    PlayNothing(g, s1);
    assert [OwnerCancel] + [] == [OwnerCancel];
    PlayAppend(g, BEGINNING, run, s, [OwnerCancel]);
    t := AddFailuresAreReported(g, run + [OwnerCancel], s1, i);
    PlayFirst(g, s, OwnerCancel, s1, [AddFails(i)] + ([Report(i)] + ([Return(i)] + [])));
  }

  /** Whoever reads the adapter's errors takes one at a time. */
  lemma ErrorsAreReadOneByOne(g: Config, s: System)
    ensures CanMove(g, s, ReadAdapterError)
    ensures Next(g, s, ReadAdapterError) == s.(adapter := s.adapter.(errs := Next(g, s, ReadAdapterError).adapter.errs))
    ensures s.adapter.errs > 0 ==> Next(g, s, ReadAdapterError).adapter.errs == s.adapter.errs - 1
  {
  }

  // ----- starting and stopping -----

  /** Before `Start` has been called it can be, with either outcome of the hashpool node: the adapter then runs, its
      context cancelled only if the owner has cancelled it, or does not run. Nothing else changes. */
  lemma StartingIsExact(g: Config, run: seq<Move>, s: System, ok: bool)
    requires g.pool.interval > 0 && CollisionFree(g.pool.h) && Play(g, BEGINNING, run) == Some(s)
    requires s.adapter.start.NotStarted?
    ensures Play(g, s, [StartLock] + ([StartReturn(ok)] + [])) == Some(s.(adapter := s.adapter.(running := ok,
              cancelled := s.adapter.ownerCancelled, start := if ok then Started else StartFailed)))
  {
    hide Play, PoolOk, CallsOk, Live;
    BeginningIsOk(g);
    PlayKeeps(g, BEGINNING, run, s);
    var s1 := Next(g, s, StartLock);
    var s2 := Next(g, s1, StartReturn(ok));
    PlayFirst(g, s, StartLock, s1, [StartReturn(ok)] + []);
    PlayFirst(g, s1, StartReturn(ok), s2, []);
    PlayNothing(g, s2);
  }

  /** Whatever `Stop` and the callbacks have done meanwhile, `Start` returns with either outcome. */
  lemma StartCanReturn(g: Config, s: System, ok: bool)
    requires s.adapter.start.Starting?
    ensures CanMove(g, s, StartReturn(ok))
    ensures var a, t := s.adapter, Next(g, s, StartReturn(ok));
            t == s.(adapter := a.(running := a.running && ok, start := if ok then Started else StartFailed))
  {
  }

  /** In every reachable system whose adapter is running, `Stop` can be called and return, whatever its callbacks'
      commitments encode to and with the pool standing still; the adapter is then cancelled and not running, its error
      channel is closed, and no callback is left. */
  lemma RunningAdapterCanStop(g: Config, run: seq<Move>, s: System, payloads: seq<Option<Bytes>>)
    returns (more: seq<Move>, t: System)
    requires g.pool.interval > 0 && CollisionFree(g.pool.h) && Play(g, BEGINNING, run) == Some(s)
    requires s.adapter.running && PayloadsOccur(g, s.adapter.callbacks, payloads)
    ensures CanMove(g, s, StopLock) && Play(g, Next(g, s, StopLock), more) == Some(t)
    ensures t.pool == s.pool && t.adapter.errsClosed && t.adapter.waiting == 0
    ensures !t.adapter.running && t.adapter.cancelled && !t.adapter.panicked
  {
    hide Play, PoolOk, CallsOk, CollisionFree, PayloadsOccur, Live;
    BeginningIsOk(g);
    PlayKeeps(g, BEGINNING, run, s);
    var s1 := Next(g, s, StopLock);
    MoveKeepsAdapter(g, s, StopLock);
    more, t := StopCanComplete(g, s1, payloads);
    PlayKeepsAdapter(g, s1, more, t);
    LiveMeansUnfinished(t.adapter.callbacks);
  }

  lemma {:induction false} PlayKeepsAdapter(g: Config, s: System, run: seq<Move>, t: System)
    requires AdapterOk(s.adapter) && Play(g, s, run) == Some(t)
    ensures AdapterOk(t.adapter)
    decreases |run|
  {
    hide AdapterOk, AdapterStep, CanMove;
    if run != [] {
      MoveKeepsAdapter(g, s, run[0]);
      PlayKeepsAdapter(g, Next(g, s, run[0]), run[1..], t);
    }
  }

  // ----- every commitment is accounted for -----

  predicate IsUndecided(c: Callback) {
    c.Registered? || c.Calling? || c.Failing?
  }

  function Undecided(cs: seq<Callback>): nat {
    if cs == [] then 0 else Undecided(cs[..|cs| - 1]) + if IsUndecided(cs[|cs| - 1]) then 1 else 0
  }

  lemma {:induction false} UndecidedUpdate(cs: seq<Callback>, i: nat, c: Callback)
    requires i < |cs|
    ensures Undecided(cs[i := c]) + (if IsUndecided(cs[i]) then 1 else 0)
         == Undecided(cs) + (if IsUndecided(c) then 1 else 0)
  {
    var last := |cs| - 1;
    if i == last {
      assert cs[i := c][..last] == cs[..last];
    } else {
      assert cs[i := c][..last] == cs[..last][i := c];
      UndecidedUpdate(cs[..last], i, c);
    }
  }

  ghost predicate IsAccounted(a: Adapter) {
    |a.callbacks| == |a.accepted| + a.reports + Undecided(a.callbacks)
  }

  lemma MoverDecides(g: Config, s: System, m: Move)
    requires CanMove(g, s, m) && IsCallbackMove(m) && !s.adapter.errsClosed
    ensures var a, a', i := s.adapter, AdapterStep(g, s, m), Mover(m);
            && i < |a.callbacks| == |a'.callbacks|
            && |a'.accepted| + a'.reports + (if IsUndecided(a'.callbacks[i]) then 1 else 0)
            == |a.accepted| + a.reports + (if IsUndecided(a.callbacks[i]) then 1 else 0)
  {
    hide Enabled, Occurs, ComputeCID, CommitmentContent, Live;
    match m
    case Build(_, _) =>
    case AddSucceeds(_) =>
    case _ =>
  }

  lemma RestKeepsAccount(g: Config, s: System, m: Move)
    requires CanMove(g, s, m) && !IsCallbackMove(m) && IsAccounted(s.adapter)
    ensures IsAccounted(AdapterStep(g, s, m))
  {
    if m.Register? {
      var cs := s.adapter.callbacks;
      assert (cs + [Registered(s.adapter.lastEventID)])[..|cs|] == cs;
    }
    hide Enabled, Occurs, Live;
  }

  lemma MoveKeepsAccount(g: Config, s: System, m: Move)
    requires CanMove(g, s, m) && AdapterOk(s.adapter) && IsAccounted(s.adapter)
    ensures IsAccounted(AdapterStep(g, s, m))
  {
    if IsCallbackMove(m) {
      CallbackMoveIsLocal(g, s, m);
      LiveMeansUnfinished(s.adapter.callbacks);
      hide AdapterStep, CanMove;
      MoverDecides(g, s, m);
      UndecidedUpdate(s.adapter.callbacks, Mover(m), AdapterStep(g, s, m).callbacks[Mover(m)]);
    } else {
      RestKeepsAccount(g, s, m);
    }
  }

  lemma {:induction false} PlayKeepsAccount(g: Config, s: System, run: seq<Move>, t: System)
    requires AdapterOk(s.adapter) && IsAccounted(s.adapter) && Play(g, s, run) == Some(t)
    ensures IsAccounted(t.adapter)
    decreases |run|
  {
    hide AdapterOk, IsAccounted, AdapterStep, CanMove;
    if run != [] {
      MoveKeepsAdapter(g, s, run[0]);
      MoveKeepsAccount(g, s, run[0]);
      PlayKeepsAccount(g, Next(g, s, run[0]), run[1..], t);
    }
  }

  /** In every interleaving each callback that registered has had its event accepted, has reported an error, or is
      still to do one of the two; none does both. Once all have finished the counts add up. */
  lemma CommitmentsAreAccountedFor(g: Config, run: seq<Move>, s: System)
    requires Play(g, BEGINNING, run) == Some(s)
    ensures |s.adapter.callbacks| == |s.adapter.accepted| + s.adapter.reports + Undecided(s.adapter.callbacks)
    ensures Live(s.adapter.callbacks) == 0 ==> |s.adapter.callbacks| == |s.adapter.accepted| + s.adapter.reports
  {
    hide Play;
    PlayKeepsAccount(g, BEGINNING, run, s);
    LiveMeansUnfinished(s.adapter.callbacks);
    if Live(s.adapter.callbacks) == 0 {
      FinishedAreDecided(s.adapter.callbacks);
    }
  }

  lemma {:induction false} FinishedAreDecided(cs: seq<Callback>)
    requires forall i :: 0 <= i < |cs| ==> cs[i].Finished?
    ensures Undecided(cs) == 0
  {
    if cs != [] {
      FinishedAreDecided(cs[..|cs| - 1]);
    }
  }
}
