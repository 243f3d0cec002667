/** What single operations of the pool achieve in reachable states, stated on the state alone: calls that get
    through, events taken or refused, and the errors that are reported. */
module PoolEffects {
  import opened Wire
  import opened Encoding
  import opened Events
  import opened CycleCheck
  import opened Subscribers
  import opened RunLoop
  import opened RunLoopProofs
  import opened Pool
  import opened PoolProofs

  /** An error is reported if there is room for it, at most a hundred at a time. */
  function Reported(errs: seq<PoolError>, e: PoolError): seq<PoolError> {
    if |errs| < 100 then errs + [e] else errs
  }

  /** While the goroutine runs its error channel is open. */
  lemma ErrorsAreOpen(s: State)
    requires LifeOk(s) && !s.loop.pc.Exited?
    ensures !s.life.errsClosed
  {
  }

  // ----- AddEvent -----

  lemma TwoSteps(p: Params, s: State, a: Action, b: Action)
    requires Enabled(p, s, a) && Enabled(p, Step(p, s, a), b)
    ensures Exec(p, s, [a, b]) == Some(Step(p, Step(p, s, a), b))
  {
    hide Step, Enabled;
    var t := Step(p, s, a);
    assert [a, b][1..] == [b] && [b][1..] == [];
    assert Exec(p, Step(p, t, b), []) == Some(Step(p, t, b));
    assert Exec(p, t, [b]) == Exec(p, Step(p, t, b), [b][1..]);
  }

  /** A call on a pool that is not closed gets through: its event becomes the last one queued if there is room, and
      it may give up instead, leaving nothing behind. Its content is a main event with the caller's parents and
      data. */
  lemma OpenPoolTakesCalls(p: Params, s: State, data: Bytes, parents: seq<Id>)
    requires !s.life.done && Occurs(p.h, Content(0, [], parents, data))
    ensures var c := Content(0, [], parents, data);
            && (|s.intake.queue| < 100 ==>
                  Exec(p, s, [StartAdd(c), Enqueue(c)]) == Some(s.(intake :=
                    Intake(s.intake.queue + [c], s.intake.inFlight, s.intake.queued + [c]))))
            && Exec(p, s, [StartAdd(c), GiveUp(c)]) == Some(s)
  {
    hide Occurs, Exec;
    var c := Content(0, [], parents, data);
    assert s.intake.inFlight + multiset{c} - multiset{c} == s.intake.inFlight;
    if |s.intake.queue| < 100 {
      TwoSteps(p, s, StartAdd(c), Enqueue(c));
    }
    TwoSteps(p, s, StartAdd(c), GiveUp(c));
  }

  /** A call on a closed pool changes nothing. */
  lemma ClosedPoolRefusesCalls(p: Params, run: seq<Action>, s: State, c: Content)
    requires p.interval > 0 && CollisionFree(p.h) && Reached(p, run, s) && Enabled(p, s, StartAdd(c))
    ensures Step(p, s, StartAdd(c)) == s <==> !s.life.closing.Open?
  {
    hide LoopOk, FrontOk, QueueOk, ToldOk, Exec, Occurs;
    ReachedIsOk(p, run, s);
    assert (s.intake.inFlight + multiset{c})[c] == s.intake.inFlight[c] + 1;
  }

  // ----- taking events -----

  /** The DAG accepts a main event exactly when it is new and knows its parents. */
  predicate IsWelcome(s: Store, id: Id, c: Content) {
    id !in s && forall q :: q in c.parents ==> q in s
  }

  lemma WelcomeIsAccepted(p: Params, s: State, c: Content)
    requires p.interval > 0 && CollisionFree(p.h) && PoolOk(p, s) && IsMainContent(c) && Occurs(p.h, c)
    ensures Accepts(s.loop.store.Keys, NewNode(p.h, c)) <==> IsWelcome(s.loop.store, ComputeCID(p.h, c), c)
  {
    hide PcOk, RecentOk, AnchorsOk, MainsOk, ScheduleOk, LifeOk, QueueOk, ToldOk, FrontOk;
    hide CollisionFree, Occurs, Verdict;
    IdentifierIsNonEmpty(p.h, c);
    VerdictMeaning(s.loop.store.Keys, NewNode(p.h, c));
  }

  lemma TakeEffects(p: Params, s: State)
    requires s.intake.queue != [] && !s.life.errsClosed
    ensures var c, l, t := s.intake.queue[0], s.loop, Taken(p, s);
            var id := ComputeCID(p.h, c);
            && t.intake == s.intake.(queue := s.intake.queue[1..]) && t.front == s.front
            && (forall x :: x in l.store ==> x in t.loop.store && Unchanged(l.store[x], t.loop.store[x]))
            && if Accepts(l.store.Keys, NewNode(p.h, c))
               then t.loop.store.Keys == l.store.Keys + {id} && t.loop.store[id] == Node(id, c, [], None)
                    && t.loop.inserted == l.inserted + [id] && t.loop.pc == Telling(MainItem(id)) && t.life == s.life
               else t.loop.store.Keys == l.store.Keys && t.loop.inserted == l.inserted && t.loop.pc == Idle
                    && t.life == s.life.(errs := Reported(s.life.errs, AddFailed(id)))
  {
    hide Add, Verdict, ComputeCID;
    AddChangesOnlyChildren(s.loop.store, NewNode(p.h, s.intake.queue[0]));
  }

  /** In every reachable state an idle goroutine takes the oldest queued event. It is inserted as it was queued if it
      is new and its parents are stored, and nothing is reported; otherwise nothing is inserted and the failure is
      reported under its identifier. */
  lemma TakingIsExact(p: Params, run: seq<Action>, s: State)
    requires p.interval > 0 && CollisionFree(p.h) && Reached(p, run, s) && s.loop.pc.Idle? && s.intake.queue != []
    ensures Enabled(p, s, Take)
    ensures var c, l, t := s.intake.queue[0], s.loop, Step(p, s, Take);
            var id := ComputeCID(p.h, c);
            && t.intake == s.intake.(queue := s.intake.queue[1..]) && t.front == s.front
            && (forall x :: x in l.store ==> x in t.loop.store && Unchanged(l.store[x], t.loop.store[x]))
            && if IsWelcome(l.store, id, c)
               then t.loop.store.Keys == l.store.Keys + {id} && t.loop.store[id] == Node(id, c, [], None)
                    && t.loop.inserted == l.inserted + [id] && t.loop.pc == Telling(MainItem(id)) && t.life == s.life
               else t.loop.store.Keys == l.store.Keys && t.loop.inserted == l.inserted && t.loop.pc == Idle
                    && t.life == s.life.(errs := Reported(s.life.errs, AddFailed(id)))
  {
    hide LoopOk, FrontOk, LifeOk, QueueOk, ToldOk, Exec, Occurs, CollisionFree, Accepts, IsWelcome, Taken, ComputeCID;
    ReachedIsOk(p, run, s);
    ErrorsAreOpen(s);
    HeadOccurs(p, s);
    WelcomeIsAccepted(p, s, s.intake.queue[0]);
    TakeEffects(p, s);
  }

  /** The periodic check reports exactly when the DAG does not verify, and changes nothing else. */
  lemma CheckingIsExact(p: Params, run: seq<Action>, s: State)
    requires p.interval > 0 && CollisionFree(p.h) && Reached(p, run, s) && s.loop.pc.Idle?
    ensures Enabled(p, s, Check)
    ensures Step(p, s, Check) ==
              if ReferencesStored(s.loop.store, true) && Acyclic(s.loop.store) then s
              else s.(life := s.life.(errs := Reported(s.life.errs, VerifyFailed)))
  {
    hide LoopOk, FrontOk, QueueOk, ToldOk, Exec, ReferencesStored, Acyclic;
    ReachedIsOk(p, run, s);
    ErrorsAreOpen(s);
  }

  /** Reading an error takes the oldest one. */
  lemma ErrorsAreReadInOrder(p: Params, s: State)
    requires s.life.errs != []
    ensures Enabled(p, s, ReadError)
    ensures var t := Step(p, s, ReadError); [s.life.errs[0]] + t.life.errs == s.life.errs && t == s.(life := t.life)
    ensures var t := Step(p, s, ReadError); t.life == s.life.(errs := t.life.errs)
  {
  }

  // ----- subscribers come and go -----

  /** As long as `Close` has not begun, subscribing adds an open subscription with an empty channel at the end of the
      list, and afterwards it changes nothing; unsubscribing and reading are always possible. */
  lemma JoiningIsExact(p: Params, run: seq<Action>, s: State)
    requires p.interval > 0 && CollisionFree(p.h) && Reached(p, run, s)
    ensures Enabled(p, s, Join)
    ensures var f, t, i := s.front, Step(p, s, Join), |s.front.subs|;
            if !s.life.closing.Open? then t == s
            else && t == s.(front := t.front) && t.front.listed == f.listed + [i] && i !in f.listed
                 && |t.front.subs| == i + 1 && t.front.subs[..i] == f.subs
                 && !t.front.subs[i].closed && t.front.subs[i].buf == [] && t.front.subs[i].accepted == []
                 && t.front.dropped == f.dropped && t.front.notices == f.notices
  {
    hide LoopOk, QueueOk, ToldOk, Exec, Followed, Conserved;
    ReachedIsOk(p, run, s);
  }

  lemma LeavingIsExact(p: Params, run: seq<Action>, s: State, i: nat)
    requires p.interval > 0 && CollisionFree(p.h) && Reached(p, run, s)
    ensures Enabled(p, s, Part(i)) && Step(p, s, Part(i)) == s.(front := Step(p, s, Part(i)).front)
    ensures var f, g := s.front, Step(p, s, Part(i)).front;
            && (i !in f.listed ==> g == f) && (forall j :: j in g.listed <==> j in f.listed && j != i)
            && |g.subs| == |f.subs| && (forall j :: 0 <= j < |f.subs| && j != i ==> g.subs[j] == f.subs[j])
            && (i < |f.subs| ==>
                  g.subs[i].closed && g.subs[i].buf == f.subs[i].buf && g.subs[i].accepted == f.subs[i].accepted)
  {
    hide LoopOk, LifeOk, QueueOk, ToldOk, Exec, Followed, Conserved, Unsubscribed;
    ReachedIsOk(p, run, s);
    UnsubscribeDetaches(s.front, i);
  }

  /** A subscriber that reads gets its oldest unread event. */
  lemma SubscribersReadInOrder(p: Params, run: seq<Action>, s: State, i: nat)
    requires p.interval > 0 && CollisionFree(p.h) && Reached(p, run, s)
    requires i < |s.front.subs| && s.front.subs[i].buf != []
    ensures Enabled(p, s, Read(i))
    ensures var f, t := s.front, Step(p, s, Read(i));
            && |t.front.subs| == |f.subs| && BufferOk(t.front.subs[i]) && BufferOk(f.subs[i])
            && t == s.(front := f.(subs := f.subs[i := f.subs[i].(buf := t.front.subs[i].buf)]))
            && ReadSoFar(t.front.subs[i]) == ReadSoFar(f.subs[i]) + [f.subs[i].buf[0]]
  {
    hide LoopOk, LifeOk, QueueOk, ToldOk, Exec, Conserved, StreamOk, ListenedTo, Received, ReadSoFar;
    ReachedIsOk(p, run, s);
    assert Followed(s.front, i);
    ReadingTakesTheOldest(s.front, i);
  }
}
