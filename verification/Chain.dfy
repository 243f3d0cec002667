/** Chained commitments through the adapter, the pool's queue and the DAG. */
module Chain {
  import opened Wire
  import opened Encoding
  import opened Events
  import opened Snapshot
  import opened RunLoop
  import opened RunLoopProofs
  import opened Pool
  import opened PoolTheorems
  import opened Adapter
  import opened AdapterProofs

  // ----- identifiers along a chain -----

  /** No commitment's identifier repeats, even when payloads do: equal identifiers would have equal
      predecessors, back to the one that has none. */
  lemma {:induction false} ChainIdsDistinct(h: Hash, cs: seq<Content>, j: nat, k: nat)
    requires CollisionFree(h) && IsChainOf(h, cs) && j < k < |cs|
    ensures ComputeCID(h, cs[j]) != ComputeCID(h, cs[k])
    decreases j
  {
    hide CollisionFree, Occurs, ComputeCID;
    if ComputeCID(h, cs[j]) == ComputeCID(h, cs[k]) {
      assert IsChained(h, cs, j) && IsChained(h, cs, k);
      SameIdSameContent(h, cs[j], cs[k]);
      assert cs[k].parents == [ComputeCID(h, cs[k - 1])];
      SameSingleton(ComputeCID(h, cs[k - 1]), cs[j].parents);
      assert cs[j].parents == if j == 0 then [] else [ComputeCID(h, cs[j - 1])];
      ChainIdsDistinct(h, cs, j - 1, k - 1);
    }
  }

  lemma SameSingleton(x: Id, ys: seq<Id>)
    requires multiset([x]) == multiset(ys)
    ensures ys == [x]
  {
    assert |ys| == |multiset(ys)| == 1;
    assert ys[0] in multiset([x]);
  }

  lemma ParentsOfNext(h: Hash, cs: seq<Content>)
    requires CollisionFree(h) && IsChainOf(h, cs)
    ensures ParentsAfter(true, IdOf(h, cs)) == if cs == [] then [] else [ComputeCID(h, cs[|cs| - 1])]
  {
    if cs != [] {
      assert IsChained(h, cs, |cs| - 1);
      IdentifierIsNonEmpty(h, cs[|cs| - 1]);
    }
  }

  lemma ExtendChain(h: Hash, cs: seq<Content>, c: Content)
    requires CollisionFree(h) && IsChainOf(h, cs) && IsMainContent(c) && Occurs(h, c)
    requires c.parents == ParentsAfter(true, IdOf(h, cs))
    ensures IsChainOf(h, cs + [c])
  {
    hide CollisionFree, Occurs, ComputeCID, ParentsAfter, IdOf;
    ParentsOfNext(h, cs);
    var longer := cs + [c];
    forall k: nat | k < |longer| ensures IsChained(h, longer, k) {
      if k < |cs| {
        assert IsChained(h, cs, k);
        assert longer[k] == cs[k];
        assert k > 0 ==> longer[k - 1] == cs[k - 1];
      } else {
        assert longer[k] == c;
        assert k > 0 ==> longer[k - 1] == cs[|cs| - 1];
      }
    }
  }

  // ----- through the queue -----

  lemma PlacedStays(a: Adapter, s: State, s': State)
    requires Placed(a, s) && s.intake.queued <= s'.intake.queued
    ensures Placed(a, s')
  {
  }

  lemma QueuedGrows(p: Params, s: State, a: Action)
    requires Enabled(p, s, a)
    ensures s.intake.queued <= Step(p, s, a).intake.queued
    ensures s.loop.verdicts <= Step(p, s, a).loop.verdicts
    ensures !a.Take? ==> Step(p, s, a).loop.verdicts == s.loop.verdicts
  {
    hide Add, Verdict, Occurs, WithBeacon;
  }

  /** A main event whose parents are stored is inserted, unless it already is. */
  lemma MainWithStoredParents(h: Hash, keys: set<Id>, c: Content)
    requires IsMainContent(c) && ComputeCID(h, c) != [] && forall q :: q in c.parents ==> q in keys
    ensures var id := ComputeCID(h, c);
            Verdict(keys, NewNode(h, c)) == if id in keys then Err(DuplicateEvent(id)) else Ok(())
  {
  }

  /** A stored event with a main event's identifier is that main event. */
  lemma StoredUnderMainId(h: Hash, s: Store, c: Content)
    requires CollisionFree(h) && IsMainContent(c) && Occurs(h, c)
    requires KeyedById(s) && ComputeCID(h, c) in s && ContentOk(h, s[ComputeCID(h, c)])
    ensures IsMain(s, ComputeCID(h, c))
  {
    SameIdSameContent(h, s[ComputeCID(h, c)].content, c);
  }

  lemma DuplicateWasQueued(g: Config, s: State, c: Content)
    requires CollisionFree(g.pool.h) && StoreOk(g.pool.h, s.loop) && CameFromQueue(g.pool.h, s)
    requires IsMainContent(c) && Occurs(g.pool.h, c) && ComputeCID(g.pool.h, c) in s.loop.store
    ensures QueuedBefore(g.pool.h, s.intake.queued, |s.loop.verdicts|, c)
  {
    hide CollisionFree, Occurs;
    StoredUnderMainId(g.pool.h, s.loop.store, c);
  }

  lemma TakeStoresCommitment(g: Config, s: State, a: Adapter, k: nat)
    requires CollisionFree(g.pool.h) && QueueOk(g.pool, s) && s.loop.pc.Idle? && s.intake.queue != []
    requires StoreOk(g.pool.h, s.loop) && CameFromQueue(g.pool.h, s)
    requires IsTree(g.pool.h, a.accepted) && Placed(a, s) && ChainStored(g.pool.h, a, s)
    requires k < |a.positions| && a.positions[k] == |s.loop.verdicts|
    ensures var l := TakeMain(g.pool.h, s.loop, s.intake.queue[0]);
            var r := Verdict(s.loop.store.Keys, NewNode(g.pool.h, a.accepted[k]));
            && ComputeCID(g.pool.h, a.accepted[k]) in l.store && l.verdicts == s.loop.verdicts + [r]
            && (r.Ok? || (IsDuplicate(r) && QueuedBefore(g.pool.h, s.intake.queued, a.positions[k], a.accepted[k])))
  {
    var h, c := g.pool.h, a.accepted[k];
    assert s.intake.queue[0] == c;
    assert IsGrafted(h, a.accepted, k);
    if c.parents != [] {
      var j :| 0 <= j < k && c.parents == [ComputeCID(h, a.accepted[..k][j])];
      assert a.positions[j] < a.positions[k];
      assert ComputeCID(h, a.accepted[j]) in s.loop.store;
    }
    assert forall q :: q in c.parents ==> q in s.loop.store;
    hide LinkAll, Targets, Verdict, StoreOk, QueueOk, Placed, IsTree, Occurs, CollisionFree, CameFromQueue;
    IdentifierIsNonEmpty(h, c);
    MainWithStoredParents(h, s.loop.store.Keys, c);
    AddChangesOnlyChildren(s.loop.store, NewNode(h, c));
    if ComputeCID(h, c) in s.loop.store {
      DuplicateWasQueued(g, s, c);
    }
  }

  lemma TakeKeepsChainStored(g: Config, s: State, a: Adapter)
    requires CollisionFree(g.pool.h) && QueueOk(g.pool, s) && Enabled(g.pool, s, Take)
    requires StoreOk(g.pool.h, s.loop) && CameFromQueue(g.pool.h, s)
    requires IsTree(g.pool.h, a.accepted) && Placed(a, s) && ChainStored(g.pool.h, a, s)
    ensures ChainStored(g.pool.h, a, Step(g.pool, s, Take))
  {
    var s' := Step(g.pool, s, Take);
    QueuedGrows(g.pool, s, Take);
    hide Add, Verdict, QueueOk, IsTree, CollisionFree, StoreOk, CameFromQueue, QueuedBefore;
    forall k | 0 <= k < |a.positions| && a.positions[k] < |s'.loop.verdicts|
      ensures ComputeCID(g.pool.h, a.accepted[k]) in s'.loop.store
      ensures var r := s'.loop.verdicts[a.positions[k]];
              r.Ok? || (IsDuplicate(r) && QueuedBefore(g.pool.h, s.intake.queued, a.positions[k], a.accepted[k]))
    {
      if a.positions[k] < |s.loop.verdicts| {
        LoopKeepsContent(g.pool, s, Take, ComputeCID(g.pool.h, a.accepted[k]));
      } else {
        TakeStoresCommitment(g, s, a, k);
      }
    }
  }

  lemma QueuedBeforeKept(h: Hash, queued: seq<Content>, queued': seq<Content>, n: nat, c: Content)
    requires QueuedBefore(h, queued, n, c) && queued <= queued'
    ensures QueuedBefore(h, queued', n, c)
  {
    var m :| 0 <= m < n && m < |queued| && ComputeCID(h, queued[m]) == ComputeCID(h, c);
    assert queued'[m] == queued[m];
  }

  lemma PoolKeepsChainStored(g: Config, s: State, a: Adapter, action: Action)
    requires CollisionFree(g.pool.h) && QueueOk(g.pool, s) && Enabled(g.pool, s, action)
    requires StoreOk(g.pool.h, s.loop) && CameFromQueue(g.pool.h, s)
    requires IsTree(g.pool.h, a.accepted) && Placed(a, s) && ChainStored(g.pool.h, a, s)
    ensures ChainStored(g.pool.h, a, Step(g.pool, s, action))
  {
    hide QueueOk, IsTree, CollisionFree, Step, Enabled, StoreOk, CameFromQueue, QueuedBefore;
    if action.Take? {
      TakeKeepsChainStored(g, s, a);
    } else {
      var s' := Step(g.pool, s, action);
      QueuedGrows(g.pool, s, action);
      forall k | 0 <= k < |a.positions| && a.positions[k] < |s.loop.verdicts|
        ensures ComputeCID(g.pool.h, a.accepted[k]) in s'.loop.store
        ensures var r := s.loop.verdicts[a.positions[k]];
                r.Ok? || QueuedBefore(g.pool.h, s'.intake.queued, a.positions[k], a.accepted[k])
      {
        LoopKeepsContent(g.pool, s, action, ComputeCID(g.pool.h, a.accepted[k]));
        if !s.loop.verdicts[a.positions[k]].Ok? {
          QueuedBeforeKept(g.pool.h, s.intake.queued, s'.intake.queued, a.positions[k], a.accepted[k]);
        }
      }
    }
  }

  /** A step's new main event, if any, is the one it takes off the queue. */
  lemma NewMainsAreTaken(p: Params, s: State, a: Action, id: Id)
    requires QueueOk(p, s) && Enabled(p, s, a) && IsMain(Step(p, s, a).loop.store, id)
    ensures IsMain(s.loop.store, id) || (a.Take? && id == ComputeCID(p.h, s.intake.queue[0]))
  {
    hide Verdict, Targets, LinkAll, Add, Occurs;
    match a
    case Take => AddChangesOnlyChildren(s.loop.store, NewNode(p.h, s.intake.queue[0]));
    case Spawn(parents) =>
      AddChangesOnlyChildren(s.loop.store, NewNode(p.h, SubContent(s.loop.pc.main, s.loop.pc.next, parents)));
    case _ =>
  }

  lemma TakeRecordsVerdict(p: Params, s: State)
    requires QueueOk(p, s) && Enabled(p, s, Take)
    ensures |Step(p, s, Take).loop.verdicts| == |s.loop.verdicts| + 1
    ensures |s.loop.verdicts| < |s.intake.queued| && s.intake.queue[0] == s.intake.queued[|s.loop.verdicts|]
  {
    hide Add, Verdict, Occurs;
  }

  lemma TakenStaysTaken(h: Hash, s: State, s': State, id: Id)
    requires WasTaken(h, s, id)
    requires s.intake.queued <= s'.intake.queued && |s.loop.verdicts| <= |s'.loop.verdicts|
    ensures WasTaken(h, s', id)
  {
    var m :| 0 <= m < |s.loop.verdicts| && m < |s.intake.queued| && ComputeCID(h, s.intake.queued[m]) == id;
    assert s'.intake.queued[m] == s.intake.queued[m];
  }

  lemma StepKeepsCameFromQueue(p: Params, s: State, a: Action)
    requires QueueOk(p, s) && CameFromQueue(p.h, s) && Enabled(p, s, a)
    ensures CameFromQueue(p.h, Step(p, s, a))
  {
    hide QueueOk, Step, Enabled;
    var s' := Step(p, s, a);
    QueuedGrows(p, s, a);
    forall id | IsMain(s'.loop.store, id) ensures WasTaken(p.h, s', id) {
      NewMainsAreTaken(p, s, a, id);
      if IsMain(s.loop.store, id) {
        TakenStaysTaken(p.h, s, s', id);
      } else {
        TakeRecordsVerdict(p, s);
        assert s'.intake.queued[|s.loop.verdicts|] == s.intake.queued[|s.loop.verdicts|];
      }
    }
  }

  // ----- the callbacks' view of the tip -----

  /** Only the live callback moves; all others have finished and know nothing. */
  lemma OneMovesOn(g: Config, a: Adapter, a': Adapter, i: nat)
    requires TipKnown(g, a) && i < |a.callbacks| && !a.callbacks[i].Finished?
    requires |a'.callbacks| == |a.callbacks| && a'.callbacks == a.callbacks[i := a'.callbacks[i]]
    requires Knows(g, IdOf(g.pool.h, a'.accepted), a'.callbacks[i])
    requires !a'.callbacks[i].Accepted? ==> a'.lastEventID == IdOf(g.pool.h, a'.accepted)
    ensures TipKnown(g, a')
  {
    forall k | 0 <= k < |a.callbacks| && k != i ensures a.callbacks[k].Finished? && a'.callbacks[k] == a.callbacks[k] {
    }
    if a'.callbacks[i].Accepted? {
      assert !(forall k :: 0 <= k < |a'.callbacks| ==> !a'.callbacks[k].Accepted?);
    }
  }

  lemma OthersFinished(g: Config, a: Adapter, i: nat, k: nat)
    requires TipKnown(g, a) && i < |a.callbacks| && !a.callbacks[i].Finished?
    requires k < |a.callbacks| && k != i
    ensures a.callbacks[k].Finished?
  {
  }

  /** What the live callback and `lastEventID` have to do with each other. */
  lemma LiveKnows(g: Config, a: Adapter, i: nat)
    requires TipKnown(g, a) && i < |a.callbacks| && !a.callbacks[i].Finished?
    ensures Knows(g, IdOf(g.pool.h, a.accepted), a.callbacks[i])
    ensures !a.callbacks[i].Accepted? ==> a.lastEventID == IdOf(g.pool.h, a.accepted)
  {
    if !a.callbacks[i].Accepted? {
      forall k | 0 <= k < |a.callbacks| ensures !a.callbacks[k].Accepted? {
        if k != i {
          OthersFinished(g, a, i, k);
        }
      }
    }
  }

  /** `callbacks[i]` knows the tip, and `lastEventID` is it unless the callback is about to say so. */
  ghost predicate InTouch(g: Config, a: Adapter, i: nat) {
    var tip := IdOf(g.pool.h, a.accepted);
    At(a, i) && Knows(g, tip, a.callbacks[i]) && (!a.callbacks[i].Accepted? ==> a.lastEventID == tip)
  }

  lemma BuildLearns(g: Config, s: System, i: nat, data: Option<Bytes>)
    requires CanMove(g, s, Build(i, data)) && InTouch(g, s.adapter, i)
    ensures InTouch(g, AdapterStep(g, s, Build(i, data)), i)
  {
    hide Occurs, IdOf;
  }

  lemma AddLearns(g: Config, s: System, i: nat)
    requires CanMove(g, s, AddSucceeds(i)) && InTouch(g, s.adapter, i)
    ensures InTouch(g, AdapterStep(g, s, AddSucceeds(i)), i)
  {
    hide Occurs, ComputeCID;
    var cs := s.adapter.accepted + [s.adapter.callbacks[i].content];
    assert cs[|cs| - 1] == s.adapter.callbacks[i].content;
  }

  lemma LiveLearns(g: Config, s: System, m: Move)
    requires CanMove(g, s, m) && IsCallbackMove(m) && InTouch(g, s.adapter, Mover(m))
    ensures InTouch(g, AdapterStep(g, s, m), Mover(m))
  {
    hide Occurs, ComputeCID, IdOf, Enabled;
    match m
    case Build(i, data) => BuildLearns(g, s, i, data);
    case AddSucceeds(i) => AddLearns(g, s, i);
    case _ =>
  }

  lemma CallbackKeepsTip(g: Config, s: System, m: Move)
    requires TipKnown(g, s.adapter) && CanMove(g, s, m) && IsCallbackMove(m)
    ensures TipKnown(g, AdapterStep(g, s, m))
  {
    hide TipKnown, Occurs, Enabled, AdapterStep, Knows;
    CallbackMoveIsLocal(g, s, m);
    LiveKnows(g, s.adapter, Mover(m));
    LiveLearns(g, s, m);
    OneMovesOn(g, s.adapter, AdapterStep(g, s, m), Mover(m));
  }

  lemma RegisterKeepsTip(g: Config, s: System)
    requires g.sequential && TipKnown(g, s.adapter) && CanMove(g, s, Register)
    ensures TipKnown(g, AdapterStep(g, s, Register))
  {
    LiveMeansUnfinished(s.adapter.callbacks);
  }

  lemma MoveKeepsTip(g: Config, s: System, m: Move)
    requires g.sequential && TipKnown(g, s.adapter) && CanMove(g, s, m)
    ensures TipKnown(g, AdapterStep(g, s, m))
  {
    if IsCallbackMove(m) {
      CallbackKeepsTip(g, s, m);
    } else if m.Register? {
      RegisterKeepsTip(g, s);
    } else {
      TipReads(g, s.adapter, AdapterStep(g, s, m));
    }
  }

  lemma TipReads(g: Config, a: Adapter, a': Adapter)
    requires TipKnown(g, a) && a'.callbacks == a.callbacks
    requires a'.accepted == a.accepted && a'.lastEventID == a.lastEventID
    ensures TipKnown(g, a')
  {
  }

  lemma AddKeepsPlaced(g: Config, s: System, i: nat)
    requires Placed(s.adapter, s.pool) && CanMove(g, s, AddSucceeds(i))
    ensures var t := Next(g, s, AddSucceeds(i)); Placed(t.adapter, t.pool)
  {
    hide Occurs;
  }

  lemma AddKeepsChain(g: Config, s: System, i: nat)
    requires g.chain && CollisionFree(g.pool.h) && ChainOk(g, s.adapter) && CanMove(g, s, AddSucceeds(i))
    ensures ChainOk(g, AdapterStep(g, s, AddSucceeds(i)))
  {
    hide Occurs, CollisionFree, TipKnown, IsChainOf;
    CallKnowsTip(g, s.adapter, i);
    ExtendChain(g.pool.h, s.adapter.accepted, s.adapter.callbacks[i].content);
    CallbackKeepsTip(g, s, AddSucceeds(i));
  }

  lemma CallKnowsTip(g: Config, a: Adapter, i: nat)
    requires TipKnown(g, a) && i < |a.callbacks| && a.callbacks[i].Calling?
    ensures var c := a.callbacks[i].content;
            IsMainContent(c) && Occurs(g.pool.h, c) && c.parents == ParentsAfter(g.chain, IdOf(g.pool.h, a.accepted))
  {
  }

  lemma NewestIsNotTaken(g: Config, s: System, i: nat)
    requires QueueOk(g.pool, s.pool) && Placed(s.adapter, s.pool) && ChainStored(g.pool.h, s.adapter, s.pool)
    requires CanMove(g, s, AddSucceeds(i))
    ensures var t := Next(g, s, AddSucceeds(i)); ChainStored(g.pool.h, t.adapter, t.pool)
  {
    hide Occurs, QueuedBefore, ComputeCID, Enabled, Live;
    var h, a, s', t := g.pool.h, s.adapter, s.pool, Next(g, s, AddSucceeds(i));
    forall k | 0 <= k < |a.positions| && a.positions[k] < |s'.loop.verdicts| && !s'.loop.verdicts[a.positions[k]].Ok?
      ensures QueuedBefore(h, t.pool.intake.queued, a.positions[k], a.accepted[k])
    {
      QueuedBeforeKept(h, s'.intake.queued, t.pool.intake.queued, a.positions[k], a.accepted[k]);
    }
  }

  lemma AddKeepsCameFromQueue(g: Config, s: System, i: nat)
    requires CameFromQueue(g.pool.h, s.pool) && CanMove(g, s, AddSucceeds(i))
    ensures CameFromQueue(g.pool.h, Next(g, s, AddSucceeds(i)).pool)
  {
    hide Occurs, ComputeCID, Enabled, WasTaken;
    var t := Next(g, s, AddSucceeds(i));
    forall id | IsMain(t.pool.loop.store, id) ensures WasTaken(g.pool.h, t.pool, id) {
      TakenStaysTaken(g.pool.h, s.pool, t.pool, id);
    }
  }

  // ----- commitments as a tree, whatever overlaps -----

  lemma KnownGrows(h: Hash, cs: seq<Content>, c: Content, x: Callback)
    requires Reads(h, cs, x)
    ensures Reads(h, cs + [c], x)
  {
    hide ComputeCID;
    forall j | 0 <= j < |cs| ensures (cs + [c])[j] == cs[j] {
    }
  }

  lemma KnownIdGrows(h: Hash, cs: seq<Content>, c: Content, id: Id)
    requires Known(h, cs, id)
    ensures Known(h, cs + [c], id) && Known(h, cs + [c], ComputeCID(h, c))
  {
    hide ComputeCID;
    assert (cs + [c])[|cs|] == c;
    forall j | 0 <= j < |cs| ensures (cs + [c])[j] == cs[j] {
    }
  }

  lemma ExtendTree(h: Hash, cs: seq<Content>, c: Content)
    requires IsTree(h, cs) && IsMainContent(c) && Occurs(h, c) && KnownParents(h, cs, c.parents)
    ensures IsTree(h, cs + [c])
  {
    hide Occurs, KnownParents;
    var longer := cs + [c];
    forall k | 0 <= k < |longer| ensures IsGrafted(h, longer, k) {
      assert k < |cs| ==> longer[..k] == cs[..k] && IsGrafted(h, cs, k);
      assert k == |cs| ==> longer[..k] == cs;
    }
  }

  lemma AddReads(g: Config, s: System, i: nat)
    requires CanMove(g, s, AddSucceeds(i)) && Known(g.pool.h, s.adapter.accepted, s.adapter.lastEventID)
    ensures var a' := AdapterStep(g, s, AddSucceeds(i));
            && i < |a'.callbacks| && Reads(g.pool.h, a'.accepted, a'.callbacks[i])
            && Known(g.pool.h, a'.accepted, a'.lastEventID)
  {
    hide Occurs, Enabled, ComputeCID, Live, Known, KnownParents;
    KnownIdGrows(g.pool.h, s.adapter.accepted, s.adapter.callbacks[i].content, s.adapter.lastEventID);
  }

  lemma BuildEffects(g: Config, s: System, i: nat, data: Option<Bytes>)
    requires CanMove(g, s, Build(i, data))
    ensures var a, a' := s.adapter, AdapterStep(g, s, Build(i, data));
            && i < |a.callbacks| == |a'.callbacks| && a.callbacks[i].Registered?
            && a'.accepted == a.accepted && a'.lastEventID == a.lastEventID
            && match a'.callbacks[i]
               case Calling(c) => c.parents == ParentsAfter(g.chain, a.callbacks[i].last)
               case c => c == Failing
  {
    hide Occurs, Enabled, Live, ParentsAfter;
  }

  lemma BuildReads(g: Config, s: System, i: nat, data: Option<Bytes>)
    requires CanMove(g, s, Build(i, data)) && ReadersOk(g.pool.h, s.adapter)
    ensures var a' := AdapterStep(g, s, Build(i, data));
            && i < |a'.callbacks| && Reads(g.pool.h, a'.accepted, a'.callbacks[i])
            && Known(g.pool.h, a'.accepted, a'.lastEventID)
  {
    hide CanMove, AdapterStep, Known, KnownParents, ParentsAfter;
    BuildEffects(g, s, i, data);
    assert Reads(g.pool.h, s.adapter.accepted, s.adapter.callbacks[i]);
    ParentsAreKnown(g, s.adapter.accepted, s.adapter.callbacks[i].last);
  }

  /** What the moving callback has read afterwards. */
  lemma MoverReads(g: Config, s: System, m: Move)
    requires CanMove(g, s, m) && IsCallbackMove(m) && ReadersOk(g.pool.h, s.adapter)
    ensures var a' := AdapterStep(g, s, m);
            && Mover(m) < |a'.callbacks| && Reads(g.pool.h, a'.accepted, a'.callbacks[Mover(m)])
            && Known(g.pool.h, a'.accepted, a'.lastEventID)
  {
    hide Occurs, Enabled, ComputeCID, Live, Known, KnownParents;
    match m
    case Build(i, data) => BuildReads(g, s, i, data);
    case AddSucceeds(i) => AddReads(g, s, i);
    case Remember(i) => assert Reads(g.pool.h, s.adapter.accepted, s.adapter.callbacks[i]);
    case _ =>
  }

  lemma ParentsAreKnown(g: Config, cs: seq<Content>, last: Id)
    requires Known(g.pool.h, cs, last)
    ensures KnownParents(g.pool.h, cs, ParentsAfter(g.chain, last))
  {
    hide ComputeCID;
  }

  lemma RestStillReads(h: Hash, a: Adapter, a': Adapter, i: nat, more: seq<Content>)
    requires ReadersOk(h, a) && i < |a.callbacks| == |a'.callbacks| && a'.callbacks == a.callbacks[i := a'.callbacks[i]]
    requires a'.accepted == a.accepted + more && |more| <= 1
    requires Reads(h, a'.accepted, a'.callbacks[i]) && Known(h, a'.accepted, a'.lastEventID)
    ensures ReadersOk(h, a')
  {
    hide Reads, Known, ComputeCID;
    forall k | 0 <= k < |a.callbacks| && k != i ensures Reads(h, a'.accepted, a'.callbacks[k]) {
      assert a'.callbacks[k] == a.callbacks[k] && Reads(h, a.accepted, a.callbacks[k]);
      if more == [] {
        assert a'.accepted == a.accepted;
      } else {
        assert more == [more[0]];
        KnownGrows(h, a.accepted, more[0], a.callbacks[k]);
      }
    }
  }

  lemma CallbackKeepsReaders(g: Config, s: System, m: Move)
    requires CanMove(g, s, m) && IsCallbackMove(m) && ReadersOk(g.pool.h, s.adapter)
    ensures ReadersOk(g.pool.h, AdapterStep(g, s, m))
  {
    hide AdapterStep, CanMove, ReadersOk, Reads, Known, ComputeCID;
    MoverReads(g, s, m);
    CallbackMoveIsLocal(g, s, m);
    var more := AcceptedGrows(g, s, m);
    RestStillReads(g.pool.h, s.adapter, AdapterStep(g, s, m), Mover(m), more);
  }

  lemma AcceptedGrows(g: Config, s: System, m: Move) returns (more: seq<Content>)
    requires CanMove(g, s, m)
    ensures AdapterStep(g, s, m).accepted == s.adapter.accepted + more && |more| <= 1
  {
    hide Enabled, Occurs, ComputeCID, Live;
    if m.AddSucceeds? {
      more := [s.adapter.callbacks[m.i].content];
    } else {
      more := [];
      HistoryStays(g, s, m);
      hide AdapterStep;
    }
  }

  lemma OthersKeepReaders(g: Config, s: System, m: Move)
    requires CanMove(g, s, m) && !IsCallbackMove(m) && ReadersOk(g.pool.h, s.adapter)
    ensures ReadersOk(g.pool.h, AdapterStep(g, s, m))
  {
    hide Enabled, Occurs, ComputeCID, Known, KnownParents, Live;
  }

  lemma MoveKeepsReaders(g: Config, s: System, m: Move)
    requires CanMove(g, s, m) && ReadersOk(g.pool.h, s.adapter)
    ensures ReadersOk(g.pool.h, AdapterStep(g, s, m))
  {
    hide CanMove, AdapterStep, ReadersOk;
    if IsCallbackMove(m) {
      CallbackKeepsReaders(g, s, m);
    } else {
      OthersKeepReaders(g, s, m);
    }
  }

  lemma CallIsGrafted(g: Config, a: Adapter, i: nat)
    requires ReadersOk(g.pool.h, a) && CallsOk(g.pool.h, a) && i < |a.callbacks| && a.callbacks[i].Calling?
    ensures var c := a.callbacks[i].content;
            IsMainContent(c) && Occurs(g.pool.h, c) && KnownParents(g.pool.h, a.accepted, c.parents)
  {
    hide Occurs, ComputeCID;
    assert Reads(g.pool.h, a.accepted, a.callbacks[i]);
  }

  lemma AddKeepsTree(g: Config, s: System, i: nat)
    requires QueueOk(g.pool, s.pool) && CallsOk(g.pool.h, s.adapter)
    requires TreeOk(g, s) && CanMove(g, s, AddSucceeds(i))
    ensures TreeOk(g, Next(g, s, AddSucceeds(i)))
  {
    hide Occurs, Placed, ReadersOk, IsTree, ChainStored, CameFromQueue, QueueOk, CallsOk;
    CallIsGrafted(g, s.adapter, i);
    ExtendTree(g.pool.h, s.adapter.accepted, s.adapter.callbacks[i].content);
    MoveKeepsReaders(g, s, AddSucceeds(i));
    AddKeepsPlaced(g, s, i);
    NewestIsNotTaken(g, s, i);
    AddKeepsCameFromQueue(g, s, i);
  }

  lemma OtherKeepsTree(g: Config, s: System, m: Move)
    requires g.pool.interval > 0 && CollisionFree(g.pool.h)
    requires SystemOk(g, s) && TreeOk(g, s) && CanMove(g, s, m) && !m.AddSucceeds?
    ensures TreeOk(g, Next(g, s, m))
  {
    var t := Next(g, s, m);
    HistoryStays(g, s, m);
    hide LoopOk, CollisionFree, Placed, ReadersOk, IsTree, AdapterOk, CallsOk, AdapterStep;
    hide ChainStored, CameFromQueue, CanMove, QueueOk;
    MoveKeepsReaders(g, s, m);
    if m.PoolMove? {
      PoolPartKeeps(g, s, m.action);
      ChainReadsHistory(g.pool.h, s.adapter, t.adapter, t.pool);
    } else {
      ChainReadsHistory(g.pool.h, s.adapter, t.adapter, s.pool);
    }
  }

  lemma PoolPartKeeps(g: Config, s: System, action: Action)
    requires g.pool.interval > 0 && CollisionFree(g.pool.h) && SystemOk(g, s) && TreeOk(g, s)
    requires CanMove(g, s, PoolMove(action))
    ensures var s' := Step(g.pool, s.pool, action);
            Placed(s.adapter, s') && ChainStored(g.pool.h, s.adapter, s') && CameFromQueue(g.pool.h, s')
  {
    hide StoreOk, PcOk, RecentOk, AnchorsOk, MainsOk, ScheduleOk;
    hide CollisionFree, Placed, ReadersOk, IsTree, AdapterOk, CallsOk;
    hide ChainStored, CameFromQueue, QueueOk, Step, Enabled;
    QueuedGrows(g.pool, s.pool, action);
    PlacedStays(s.adapter, s.pool, Step(g.pool, s.pool, action));
    PoolKeepsChainStored(g, s.pool, s.adapter, action);
    StepKeepsCameFromQueue(g.pool, s.pool, action);
  }

  lemma HistoryStays(g: Config, s: System, m: Move)
    requires CanMove(g, s, m) && !m.AddSucceeds?
    ensures AdapterStep(g, s, m).accepted == s.adapter.accepted
    ensures AdapterStep(g, s, m).positions == s.adapter.positions
  {
    hide Enabled, Occurs, ComputeCID, Live, CommitmentContent, IdOf;
    match m
    case PoolMove(_) =>
    case Build(_, _) =>
    case Report(_) =>
    case Return(_) =>
    case _ =>
  }

  lemma ChainReadsHistory(h: Hash, a: Adapter, a': Adapter, s: State)
    requires a'.accepted == a.accepted && a'.positions == a.positions
    ensures Placed(a, s) ==> Placed(a', s)
    ensures ChainStored(h, a, s) ==> ChainStored(h, a', s)
  {
  }

  lemma OneMoveKeepsTree(g: Config, s: System, m: Move)
    requires g.pool.interval > 0 && CollisionFree(g.pool.h)
    requires SystemOk(g, s) && TreeOk(g, s) && CanMove(g, s, m)
    ensures TreeOk(g, Next(g, s, m))
  {
    hide TreeOk, Next, CanMove, CollisionFree, LoopOk, AdapterOk;
    if m.AddSucceeds? {
      AddKeepsTree(g, s, m.i);
    } else {
      OtherKeepsTree(g, s, m);
    }
  }

  lemma {:induction false} PlayKeepsTree(g: Config, s: System, run: seq<Move>, t: System)
    requires g.pool.interval > 0 && CollisionFree(g.pool.h)
    requires SystemOk(g, s) && TreeOk(g, s) && Play(g, s, run) == Some(t)
    ensures SystemOk(g, t) && TreeOk(g, t)
    decreases |run|
  {
    hide SystemOk, TreeOk, Next, CanMove, CollisionFree;
    if run != [] {
      MoveKeeps(g, s, run[0]);
      OneMoveKeepsTree(g, s, run[0]);
      PlayKeepsTree(g, Next(g, s, run[0]), run[1..], t);
    }
  }

  lemma BeginningIsTree(g: Config)
    ensures TreeOk(g, BEGINNING)
  {
  }

  /** Whatever overlaps, and with chaining on or off: no commitment is ever rejected for a missing parent. Once
      taken off the queue it is in the DAG. */
  lemma CommitmentsAreStored(g: Config, run: seq<Move>, t: System)
    requires g.pool.interval > 0 && CollisionFree(g.pool.h) && Play(g, BEGINNING, run) == Some(t)
    ensures Placed(t.adapter, t.pool) && ChainStored(g.pool.h, t.adapter, t.pool)
    ensures IsTree(g.pool.h, t.adapter.accepted)
  {
    BeginningIsTree(g);
    hide SystemOk, Play, CollisionFree, IsTree, Placed, ChainStored, CameFromQueue, ReadersOk;
    BeginningIsOk(g);
    PlayKeepsTree(g, BEGINNING, run, t);
  }

  // ----- commitments as a chain -----

  lemma OneMoveKeepsChain(g: Config, s: System, m: Move)
    requires g.chain && g.sequential && CollisionFree(g.pool.h) && ChainOk(g, s.adapter) && CanMove(g, s, m)
    ensures ChainOk(g, AdapterStep(g, s, m))
  {
    if m.AddSucceeds? {
      AddKeepsChain(g, s, m.i);
    } else {
      HistoryStays(g, s, m);
      hide CanMove, AdapterStep, TipKnown, IsChainOf;
      MoveKeepsTip(g, s, m);
    }
  }

  lemma {:induction false} PlayKeepsChain(g: Config, s: System, run: seq<Move>, t: System)
    requires g.chain && g.sequential && CollisionFree(g.pool.h) && ChainOk(g, s.adapter)
    requires Play(g, s, run) == Some(t)
    ensures ChainOk(g, t.adapter)
    decreases |run|
  {
    hide ChainOk, AdapterStep, CanMove, CollisionFree;
    if run != [] {
      OneMoveKeepsChain(g, s, run[0]);
      PlayKeepsChain(g, Next(g, s, run[0]), run[1..], t);
    }
  }

  predicate DistinctIds(h: Hash, cs: seq<Content>) {
    forall j, k :: 0 <= j < k < |cs| ==> ComputeCID(h, cs[j]) != ComputeCID(h, cs[k])
  }

  predicate IsAfterThePrevious(h: Hash, cs: seq<Content>, k: nat)
    requires k < |cs|
  {
    cs[k].parents == if k == 0 then [] else [ComputeCID(h, cs[k - 1])]
  }

  predicate EachAfterThePrevious(h: Hash, cs: seq<Content>) {
    forall k :: 0 <= k < |cs| ==> IsAfterThePrevious(h, cs, k)
  }

  lemma ChainFacts(h: Hash, cs: seq<Content>)
    requires CollisionFree(h) && IsChainOf(h, cs)
    ensures DistinctIds(h, cs) && EachAfterThePrevious(h, cs)
  {
    forall j, k | 0 <= j < k < |cs| ensures ComputeCID(h, cs[j]) != ComputeCID(h, cs[k]) {
      ChainIdsDistinct(h, cs, j, k);
    }
    forall k | 0 <= k < |cs| ensures IsAfterThePrevious(h, cs, k) {
      assert IsChained(h, cs, k);
    }
  }

  lemma IdleKnowsTip(g: Config, a: Adapter)
    requires TipKnown(g, a) && Live(a.callbacks) == 0
    ensures a.lastEventID == IdOf(g.pool.h, a.accepted)
  {
    LiveMeansUnfinished(a.callbacks);
    assert forall i :: 0 <= i < |a.callbacks| ==> !a.callbacks[i].Accepted?;
  }

  /** With chaining on and callbacks that do not overlap: the identifiers the pool accepts are pairwise
      distinct, each commitment's sole parent is its predecessor, and whatever other callers do, none is
      ever rejected for a missing parent: once taken off the queue it is in the DAG. */
  lemma CommitmentsFormAChain(g: Config, run: seq<Move>, t: System)
    requires g.pool.interval > 0 && g.chain && g.sequential && CollisionFree(g.pool.h)
    requires Play(g, BEGINNING, run) == Some(t)
    ensures DistinctIds(g.pool.h, t.adapter.accepted) && EachAfterThePrevious(g.pool.h, t.adapter.accepted)
    ensures Placed(t.adapter, t.pool) && ChainStored(g.pool.h, t.adapter, t.pool)
    ensures Live(t.adapter.callbacks) == 0 ==> t.adapter.lastEventID == IdOf(g.pool.h, t.adapter.accepted)
  {
    assert ChainOk(g, BEGINNING.adapter);
    hide Play, CollisionFree, IsChainOf, Placed, ChainStored, TipKnown, DistinctIds, EachAfterThePrevious;
    PlayKeepsChain(g, BEGINNING, run, t);
    ChainFacts(g.pool.h, t.adapter.accepted);
    CommitmentsAreStored(g, run, t);
    if Live(t.adapter.callbacks) == 0 {
      IdleKnowsTip(g, t.adapter);
    }
  }

  // ----- exactly when they chain -----

  /** No two accepted commitments were built on the same `lastEventID`. */
  predicate OnDifferentTips(cs: seq<Content>) {
    forall j, k :: 0 <= j < k < |cs| ==> cs[j].parents != cs[k].parents
  }

  lemma ChainHasDifferentTips(h: Hash, cs: seq<Content>)
    requires CollisionFree(h) && IsTree(h, cs) && EachAfterThePrevious(h, cs)
    ensures IsChainOf(h, cs) && OnDifferentTips(cs)
  {
    hide CollisionFree, Occurs, ComputeCID, KnownParents;
    forall k | 0 <= k < |cs| ensures IsChained(h, cs, k) {
      assert IsGrafted(h, cs, k) && IsAfterThePrevious(h, cs, k);
    }
    forall j, k | 0 <= j < k < |cs| ensures cs[j].parents != cs[k].parents {
      assert IsAfterThePrevious(h, cs, j) && IsAfterThePrevious(h, cs, k);
      if j > 0 {
        ChainIdsDistinct(h, cs, j - 1, k - 1);
        assert cs[j].parents[0] != cs[k].parents[0];
      }
    }
  }

  lemma SameTipSameCommitment(cs: seq<Content>, j: nat, k: nat)
    requires OnDifferentTips(cs) && j <= k < |cs| && cs[j].parents == cs[k].parents
    ensures j == k
  {
  }

  /** On different tips each one can only follow the previous: every older one has its follower already. */
  lemma {:induction false} DifferentTipsChain(h: Hash, cs: seq<Content>, k: nat)
    requires IsTree(h, cs) && OnDifferentTips(cs) && k < |cs|
    ensures IsAfterThePrevious(h, cs, k)
  {
    hide Occurs, ComputeCID;
    assert IsGrafted(h, cs, k);
    if k > 0 {
      DifferentTipsChain(h, cs, 0);
      var j :| 0 <= j < k && cs[k].parents == [ComputeCID(h, cs[..k][j])];
      if j < k - 1 {
        DifferentTipsChain(h, cs, j + 1);
      }
      SameTipSameCommitment(cs, j + 1, k);
    }
  }

  /** In every interleaving, overlapping or not: each accepted commitment's sole parent is the one accepted just
      before it if and only if no two of them were built on the same `lastEventID`; and then no two have the
      same identifier. */
  lemma CommitmentsChainExactly(g: Config, run: seq<Move>, t: System)
    requires g.pool.interval > 0 && CollisionFree(g.pool.h) && Play(g, BEGINNING, run) == Some(t)
    ensures EachAfterThePrevious(g.pool.h, t.adapter.accepted) <==> OnDifferentTips(t.adapter.accepted)
    ensures OnDifferentTips(t.adapter.accepted) ==> DistinctIds(g.pool.h, t.adapter.accepted)
  {
    var h, cs := g.pool.h, t.adapter.accepted;
    CommitmentsAreStored(g, run, t);
    hide Play, CollisionFree, IsTree, IsChainOf, OnDifferentTips, DistinctIds, ComputeCID, Placed, ChainStored;
    if OnDifferentTips(cs) {
      forall k | 0 <= k < |cs| ensures IsAfterThePrevious(h, cs, k) {
        DifferentTipsChain(h, cs, k);
      }
    }
    if EachAfterThePrevious(h, cs) {
      ChainHasDifferentTips(h, cs);
      ChainFacts(h, cs);
    }
  }

  /** A commitment the DAG already knew was queued earlier by some other caller: the adapter itself never
      submits the same event twice. */
  lemma DuplicatesComeFromOthers(h: Hash, a: Adapter, s: State, k: nat) returns (m: nat)
    requires DistinctIds(h, a.accepted) && Placed(a, s) && ChainStored(h, a, s)
    requires k < |a.positions| && a.positions[k] < |s.loop.verdicts| && !s.loop.verdicts[a.positions[k]].Ok?
    ensures m < a.positions[k] && m < |s.intake.queued| && m !in a.positions
    ensures ComputeCID(h, s.intake.queued[m]) == ComputeCID(h, a.accepted[k])
  {
    hide ComputeCID;
    assert QueuedBefore(h, s.intake.queued, a.positions[k], a.accepted[k]);
    m :| 0 <= m < a.positions[k] && m < |s.intake.queued|
         && ComputeCID(h, s.intake.queued[m]) == ComputeCID(h, a.accepted[k]);
    forall j | 0 <= j < |a.positions| ensures a.positions[j] != m {
      assert s.intake.queued[a.positions[j]] == a.accepted[j];
      if j < k {
        assert ComputeCID(h, a.accepted[j]) != ComputeCID(h, a.accepted[k]);
      } else if j > k {
        assert a.positions[k] < a.positions[j];
      }
    }
  }

  // ----- when callbacks overlap -----

  lemma PlayOne(g: Config, s: System, run: seq<Move>)
    requires run != [] && CanMove(g, s, run[0])
    ensures Play(g, s, run) == Play(g, Next(g, s, run[0]), run[1..])
  {
  }

  lemma PlayNone(g: Config, s: System)
    ensures Play(g, s, []) == Some(s)
  {
  }

  function Overlapping(d: Bytes): seq<Move> {
    [StartLock, Register, Register, Build(0, Some(d)), Build(1, Some(d)), AddSucceeds(0), AddSucceeds(1)]
  }

  /** The adapter once both callbacks have called the pool. */
  function BothCalling(c: Content): Adapter {
    FRESH.(running := true, start := Starting, callbacks := [Calling(c), Calling(c)], waiting := 2)
  }

  lemma BothCallPool(g: Config, d: Bytes, rest: seq<Move>)
    requires !g.sequential && Occurs(g.pool.h, Content(MAIN, [], [], d))
    ensures Play(g, BEGINNING, [StartLock, Register, Register, Build(0, Some(d)), Build(1, Some(d))] + rest)
         == Play(g, System(INITIAL, BothCalling(Content(MAIN, [], [], d))), rest)
  {
    hide Play, Occurs, Live, Enabled, ComputeCID;
    var c, r: Callback := Content(MAIN, [], [], d), Registered([]);
    var run := [StartLock, Register, Register, Build(0, Some(d)), Build(1, Some(d))] + rest;
    var a0 := FRESH.(running := true, start := Starting);
    var a1 := a0.(callbacks := [r], waiting := 1);
    var a2 := a0.(callbacks := [r, r], waiting := 2);
    var a3 := a2.(callbacks := [Calling(c), r]);
    assert [] + [r] == [r] && [r] + [r] == [r, r];
    assert [r, r][0 := Calling(c)] == [Calling(c), r];
    assert [Calling(c), r][1 := Calling(c)] == [Calling(c), Calling(c)];
    PlayOne(g, BEGINNING, run);
    PlayOne(g, System(INITIAL, a0), run[1..]);
    PlayOne(g, System(INITIAL, a1), run[1..][1..]);
    PlayOne(g, System(INITIAL, a2), run[1..][1..][1..]);
    PlayOne(g, System(INITIAL, a3), run[1..][1..][1..][1..]);
    assert run[1..][1..][1..][1..][1..] == rest;
  }

  /** A run in which the condition fails: two callbacks that both read `lastEventID` before either updates it
      submit the same event twice when their payloads agree. */
  lemma OverlapBreaksTheChain(g: Config, d: Bytes) returns (t: System)
    requires !g.sequential && Occurs(g.pool.h, Content(MAIN, [], [], d))
    ensures Play(g, BEGINNING, Overlapping(d)) == Some(t)
    ensures t.adapter.accepted == [Content(MAIN, [], [], d), Content(MAIN, [], [], d)]
    ensures !DistinctIds(g.pool.h, t.adapter.accepted) && !OnDifferentTips(t.adapter.accepted)
  {
    hide Play, Occurs, Live, Enabled, ComputeCID;
    var c, rest := Content(MAIN, [], [], d), [AddSucceeds(0), AddSucceeds(1)];
    var id := ComputeCID(g.pool.h, c);
    var a5 := BothCalling(c).(callbacks := [Accepted(id), Calling(c)], accepted := [c], positions := [0]);
    var a6 := BothCalling(c).(callbacks := [Accepted(id), Accepted(id)], accepted := [c, c], positions := [0, 1]);
    var p5 := QueuedByAdapter(INITIAL, c);
    t := System(QueuedByAdapter(p5, c), a6);
    assert Overlapping(d) == [StartLock, Register, Register, Build(0, Some(d)), Build(1, Some(d))] + rest;
    BothCallPool(g, d, rest);
    assert [Calling(c), Calling(c)][0 := Accepted(id)] == [Accepted(id), Calling(c)];
    assert [Accepted(id), Calling(c)][1 := Accepted(id)] == [Accepted(id), Accepted(id)];
    assert [] + [c] == [c] && [c] + [c] == [c, c];
    assert Next(g, System(INITIAL, BothCalling(c)), AddSucceeds(0)) == System(p5, a5);
    assert Next(g, System(p5, a5), AddSucceeds(1)) == t;
    PlayOne(g, System(INITIAL, BothCalling(c)), rest);
    PlayOne(g, System(p5, a5), rest[1..]);
    assert rest[1..][1..] == [];
    PlayNone(g, t);
    assert t.adapter.accepted[0] == t.adapter.accepted[1];
  }
}
