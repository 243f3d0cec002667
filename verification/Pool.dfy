/** The whole pool as a state machine: the run goroutine, callers of `AddEvent`, `Subscribe` and
    `Unsubscribe`, the readers of its channels and `Close`, interleaved step by step. Random draws and
    beacon answers are part of the action. Sending on or closing a closed channel sets `panicked`. */
module Pool {
  import opened Wire
  import opened Encoding
  import opened CycleCheck
  import opened Subscribers
  import opened RunLoop

  const QUEUE_SIZE: nat := 100
  const ERRORS_SIZE: nat := 100

  datatype PoolError = AddFailed(id: Id) | NoBeacon | StaleBeacon(round: nat) | VerifyFailed

  /** The phases of `Close`, which runs at most once. */
  datatype Closing = Open | Signalled | Drained | ErrsClosed | Closed

  datatype Life = Life(running: bool, done: bool, cancelled: bool, closing: Closing,
                       errs: seq<PoolError>, errsClosed: bool, panicked: bool)

  /** The queue, the `AddEvent` calls past their first check, and, as history, everything ever queued. */
  datatype Intake = Intake(queue: seq<Content>, inFlight: multiset<Content>, queued: seq<Content>)

  datatype State = State(loop: Loop, front: Front, life: Life, intake: Intake)

  const INITIAL: State :=
    State(START, NOBODY, Life(true, false, false, Open, [], false, false), Intake([], multiset{}, []))

  datatype Params = Params(h: Hash, interval: nat)

  datatype Action =
    | StartAdd(content: Content)       // AddEvent's check of `done`, and its event
    | Enqueue(content: Content)        // its send succeeds
    | GiveUp(content: Content)         // it returns because of `done` or its caller's context
    | Take                             // the run goroutine receives an event and inserts it
    | Tell                             // notifies the subscribers
    | Record(count: nat)               // extends the window; draws the number of sub-events
    | Spawn(parents: seq<Id>)          // creates the next sub-event with the drawn parents
    | Finish(answer: Option<Round>)    // counts and perhaps anchors the main event
    | Check                            // the verify tick
    | Leave                            // sees the cancelled context and returns
    | Join                             // Subscribe
    | Part(sub: nat)                   // Unsubscribe
    | Read(sub: nat)                   // a subscriber reads
    | ReadError                        // somebody reads the error channel
    | Cancel                           // the context given to NewPool is cancelled
    | CloseSignal | CloseWait | CloseErrors | CloseSubscribers

  // ----- effects -----

  function SendError(life: Life, e: PoolError): Life {
    if life.errsClosed then life.(panicked := true)
    else if |life.errs| < ERRORS_SIZE then life.(errs := life.errs + [e])
    else life
  }

  predicate SomeClosed(f: Front) {
    exists i :: 0 <= i < |f.subs| && i in f.listed && f.subs[i].closed
  }

  function PanicIf(life: Life, b: bool): Life {
    if b then life.(panicked := true) else life
  }

  /** The content `AddEvent` builds from its arguments. */
  predicate IsMainContent(c: Content) {
    c.kind == MAIN && c.parentId == []
  }

  function Taken(p: Params, s: State): State
    requires s.intake.queue != []
  {
    var c := s.intake.queue[0];
    var loop := TakeMain(p.h, s.loop, c);
    s.(loop := loop, intake := s.intake.(queue := s.intake.queue[1..]),
       life := if loop.pc.Telling? then s.life else SendError(s.life, AddFailed(ComputeCID(p.h, c))))
  }

  function SubSpawned(p: Params, s: State, parents: seq<Id>): State
    requires CanSpawn(s.loop)
  {
    var loop := SpawnSub(p.h, s.loop, parents);
    var c := SubContent(s.loop.pc.main, s.loop.pc.next, parents);
    s.(loop := loop,
       life := if loop.pc.Telling? then s.life else SendError(s.life, AddFailed(ComputeCID(p.h, c))))
  }

  function Finished(p: Params, s: State, answer: Option<Round>): State
    requires AtAnchor(s.loop)
  {
    var due := s.loop.eventCount + 1 >= p.interval;
    var life :=
      if !due then s.life
      else if answer.None? || !ValidRound(answer.value) then SendError(s.life, NoBeacon)
      else if answer.value.number <= s.loop.lastRound then SendError(s.life, StaleBeacon(answer.value.number))
      else s.life;
    s.(loop := Anchored(p.interval, s.loop, answer), life := life)
  }

  /** The number of events a choice of parents may hold: none drawn, or one to three. */
  predicate IsDraw(recent: seq<Id>, parents: seq<Id>) {
    parents == [] || exists count :: 1 <= count <= MAX_PARENTS && IsChoice(recent, count, parents)
  }

  // ----- one step -----

  ghost predicate Enabled(p: Params, s: State, a: Action) {
    match a
    case StartAdd(c) => IsMainContent(c) && Occurs(p.h, c)
    case Enqueue(c) => c in s.intake.inFlight && |s.intake.queue| < QUEUE_SIZE
    case GiveUp(c) => c in s.intake.inFlight
    case Take => s.loop.pc.Idle? && s.intake.queue != []
    case Tell => s.loop.pc.Telling? && AllKnown(s.front.subs, s.front.listed)
    case Record(count) => s.loop.pc.Recording? && count <= MAX_SUB_EVENTS
    case Spawn(parents) =>
      CanSpawn(s.loop) && IsDraw(s.loop.recent, parents)
      && Occurs(p.h, SubContent(s.loop.pc.main, s.loop.pc.next, parents))
    case Finish(_) => AtAnchor(s.loop)
    case Check => s.loop.pc.Idle?
    case Leave => s.loop.pc.Idle? && s.life.cancelled
    case CloseSignal => s.life.closing.Open?
    case CloseWait => s.life.closing.Signalled? && s.loop.pc.Exited?
    case CloseErrors => s.life.closing.Drained?
    case CloseSubscribers => s.life.closing.ErrsClosed?
    case _ => true
  }

  ghost function Step(p: Params, s: State, a: Action): State
    requires Enabled(p, s, a)
  {
    match a
    case StartAdd(c) => if s.life.done then s else s.(intake := s.intake.(inFlight := s.intake.inFlight + multiset{c}))
    case Enqueue(c) =>
      s.(intake := Intake(s.intake.queue + [c], s.intake.inFlight - multiset{c}, s.intake.queued + [c]))
    case GiveUp(c) => s.(intake := s.intake.(inFlight := s.intake.inFlight - multiset{c}))
    case Take => Taken(p, s)
    case Tell =>
      s.(loop := Told(s.loop), front := Notified(s.front, s.loop.pc.item.id),
         life := PanicIf(s.life, SomeClosed(s.front)))
    case Record(count) => s.(loop := Recorded(s.loop, count))
    case Spawn(parents) => SubSpawned(p, s, parents)
    case Finish(answer) => Finished(p, s, answer)
    case Check =>
      if ReferencesStored(s.loop.store, true) && Acyclic(s.loop.store) then s
      else s.(life := SendError(s.life, VerifyFailed))
    case Leave => s.(loop := s.loop.(pc := Exited))
    case Join => if s.life.running then s.(front := Subscribed(s.front)) else s
    case Part(i) =>
      s.(front := Unsubscribed(s.front, i),
         life := PanicIf(s.life, i in s.front.listed && i < |s.front.subs| && s.front.subs[i].closed))
    case Read(i) => s.(front := Received(s.front, i))
    case ReadError => if s.life.errs == [] then s else s.(life := s.life.(errs := s.life.errs[1..]))
    case Cancel => s.(life := s.life.(cancelled := true))
    case CloseSignal =>
      s.(life := PanicIf(s.life.(running := false, done := true, cancelled := true, closing := Signalled), s.life.done))
    case CloseWait => s.(life := s.life.(closing := Drained))
    case CloseErrors => s.(life := PanicIf(s.life.(closing := ErrsClosed, errsClosed := true), s.life.errsClosed))
    case CloseSubscribers =>
      s.(front := ClosedAll(s.front), life := PanicIf(s.life.(closing := Closed), SomeClosed(s.front)))
  }

  /** The state after a run, if each of its actions was possible when it was taken. */
  ghost function Exec(p: Params, s: State, run: seq<Action>): Option<State>
    decreases |run|
  {
    if run == [] then Some(s)
    else if Enabled(p, s, run[0]) then Exec(p, Step(p, s, run[0]), run[1..])
    else None
  }

  // ----- the invariant -----

  ghost predicate LifeOk(s: State) {
    var l := s.life;
    && !l.panicked && |l.errs| <= ERRORS_SIZE
    && (l.running <==> l.closing.Open?) && (l.done <==> !l.closing.Open?) && (l.done ==> l.cancelled)
    && (l.errsClosed <==> l.closing.ErrsClosed? || l.closing.Closed?)
    && (l.closing.Drained? || l.closing.ErrsClosed? || l.closing.Closed? ==> s.loop.pc.Exited?)
    && (l.closing.Closed? ==> s.front.listed == []) && (s.loop.pc.Exited? ==> l.cancelled)
  }

  /** The queue holds, in order, what was queued and not yet taken. */
  ghost predicate QueueOk(p: Params, s: State) {
    && |s.intake.queue| <= QUEUE_SIZE
    && |s.loop.verdicts| <= |s.intake.queued| && s.intake.queue == s.intake.queued[|s.loop.verdicts|..]
    && (forall c :: c in s.intake.queued ==> IsMainContent(c) && Occurs(p.h, c))
    && (forall c :: c in s.intake.inFlight ==> IsMainContent(c) && Occurs(p.h, c))
  }

  /** Subscribers were told of every inserted event, in order, but the one just inserted. */
  predicate ToldOk(s: State) {
    Ids(s.front.notices) ==
      if s.loop.pc.Telling? && s.loop.inserted != [] then s.loop.inserted[..|s.loop.inserted| - 1] else s.loop.inserted
  }

  ghost predicate PoolOk(p: Params, s: State)
    requires p.interval > 0
  {
    LoopOk(p.h, p.interval, s.loop) && FrontOk(s.front) && LifeOk(s) && QueueOk(p, s) && ToldOk(s)
  }
}
