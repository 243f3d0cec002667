/** The hashpool adapter: one `Start`, one `Stop`, and commitment callbacks, interleaved with each other
    and with the pool they feed. */
module Adapter {
  import opened Wire
  import opened Encoding
  import opened Events
  import opened RunLoop
  import opened Pool

  const ADAPTER_ERRORS: nat := 100

  /** How far a callback has come. */
  datatype Callback =
    | Registered(last: Id)          // counted in the wait group, predecessor read
    | Calling(content: Content)     // inside the pool's AddEvent, past its first check
    | Accepted(id: Id)              // AddEvent returned; lastEventID not updated yet
    | Failing                       // about to report an error
    | Leaving                       // only the deferred Done is left
    | Finished

  datatype StartPc = NotStarted | Starting | Started | StartFailed

  /** `Skipped` is a Stop that found nothing running; it may be called again. */
  datatype StopPc = NotStopped | Skipped | Signalled | Halted | Drained | Stopped

  /** `cancelled` is the lifecycle context, derived by `Start` from one whose owner may cancel it as well.
      `accepted`, `positions` and `reports` are history: the contents the pool accepted, where it queued them,
      and the errors callbacks have sent. */
  datatype Adapter = Adapter(running: bool, cancelled: bool, ownerCancelled: bool, lastEventID: Id,
                             callbacks: seq<Callback>, waiting: int,
                             errs: nat, errsClosed: bool, start: StartPc, stop: StopPc, panicked: bool,
                             accepted: seq<Content>, positions: seq<nat>, reports: nat)

  const FRESH: Adapter := Adapter(false, false, false, [], [], 0, 0, false, NotStarted, NotStopped, false, [], [], 0)

  datatype Config = Config(pool: Params, chain: bool, sequential: bool)

  datatype System = System(pool: State, adapter: Adapter)

  datatype Move =
    | PoolMove(action: Action)
    | OwnerCancel                                 // the context given to Start is cancelled
    | StartLock                                   // Start marks the adapter running
    | StartReturn(ok: bool)                       // the hashpool node has started, or failed to
    | StopLock                                    // Stop cancels the context and clears running
    | StopHashpool | StopWait | StopClose
    | Register                                    // a callback begins
    | Build(i: nat, data: Option<Bytes>)          // it encodes its event, or fails to, and calls the pool
    | AddSucceeds(i: nat)
    | AddFails(i: nat)
    | Remember(i: nat)                            // lastEventID := its event
    | Report(i: nat)                              // it sends its error
    | Return(i: nat)                              // the deferred Done
    | ReadAdapterError

  function Live(cs: seq<Callback>): nat {
    if cs == [] then 0 else Live(cs[..|cs| - 1]) + if cs[|cs| - 1].Finished? then 0 else 1
  }

  /** The parents of a commitment event: its predecessor, when chaining and when there is one. */
  function ParentsAfter(chain: bool, last: Id): seq<Id> {
    if chain && last != [] then [last] else []
  }

  function CommitmentContent(chain: bool, last: Id, data: Bytes): Content {
    Content(MAIN, [], ParentsAfter(chain, last), data)
  }

  predicate At(a: Adapter, i: nat) {
    i < |a.callbacks|
  }

  function To(a: Adapter, i: nat, c: Callback): Adapter
    requires At(a, i)
  {
    a.(callbacks := a.callbacks[i := c])
  }

  ghost predicate CanMove(g: Config, s: System, m: Move) {
    var a := s.adapter;
    match m
    case PoolMove(action) => Enabled(g.pool, s.pool, action)
    case OwnerCancel => true
    case StartLock => a.start.NotStarted?
    case StartReturn(_) => a.start.Starting?
    case StopLock => a.stop.NotStopped? || a.stop.Skipped?
    case StopHashpool => a.stop.Signalled?
    case StopWait => a.stop.Halted? && a.waiting == 0
    case StopClose => a.stop.Drained?
    case Register => g.sequential ==> Live(a.callbacks) == 0
    case Build(i, data) =>
      At(a, i) && a.callbacks[i].Registered?
      && (data.Some? ==> Occurs(g.pool.h, CommitmentContent(g.chain, a.callbacks[i].last, data.value)))
    case AddSucceeds(i) => At(a, i) && a.callbacks[i].Calling? && |s.pool.intake.queue| < QUEUE_SIZE
    case AddFails(i) => At(a, i) && a.callbacks[i].Calling? && (s.pool.life.done || a.cancelled)
    case Remember(i) => At(a, i) && a.callbacks[i].Accepted?
    case Report(i) => At(a, i) && a.callbacks[i].Failing?
    case Return(i) => At(a, i) && a.callbacks[i].Leaving?
    case ReadAdapterError => true
  }

  function SendErrorTo(a: Adapter): Adapter {
    if a.errsClosed then a.(panicked := true)
    else if a.errs < ADAPTER_ERRORS then a.(errs := a.errs + 1, reports := a.reports + 1)
    else a.(reports := a.reports + 1)
  }

  /** `AddEvent`'s send, made by a call that the adapter holds rather than the pool's own callers. */
  function QueuedByAdapter(s: State, c: Content): State {
    s.(intake := s.intake.(queue := s.intake.queue + [c], queued := s.intake.queued + [c]))
  }

  ghost function AdapterStep(g: Config, s: System, m: Move): Adapter
    requires CanMove(g, s, m)
  {
    var a := s.adapter;
    match m
    case PoolMove(_) => a
    case OwnerCancel => a.(ownerCancelled := true, cancelled := true)
    case StartLock =>
      if a.running then a.(start := StartFailed)
      else a.(running := true, cancelled := a.ownerCancelled, start := Starting)
    case StartReturn(ok) => if ok then a.(start := Started) else a.(running := false, start := StartFailed)
    case StopLock =>
      if a.running then a.(cancelled := true, running := false, stop := StopPc.Signalled) else a.(stop := Skipped)
    case StopHashpool => a.(stop := Halted)
    case StopWait => a.(stop := StopPc.Drained)
    case StopClose => a.(stop := Stopped, errsClosed := true, panicked := a.panicked || a.errsClosed)
    case Register =>
      if a.running then a.(callbacks := a.callbacks + [Registered(a.lastEventID)], waiting := a.waiting + 1) else a
    case Build(i, data) =>
      if data.None? || s.pool.life.done then To(a, i, Failing)
      else To(a, i, Calling(CommitmentContent(g.chain, a.callbacks[i].last, data.value)))
    case AddSucceeds(i) =>
      var c := a.callbacks[i].content;
      To(a, i, Accepted(ComputeCID(g.pool.h, c)))
        .(accepted := a.accepted + [c], positions := a.positions + [|s.pool.intake.queued|])
    case AddFails(i) => To(a, i, Failing)
    case Remember(i) => To(a, i, Leaving).(lastEventID := a.callbacks[i].id)
    case Report(i) => SendErrorTo(To(a, i, Leaving))
    case Return(i) => To(a, i, Finished).(waiting := a.waiting - 1, panicked := a.panicked || a.waiting <= 0)
    case ReadAdapterError => if a.errs == 0 then a else a.(errs := a.errs - 1)
  }

  ghost function Next(g: Config, s: System, m: Move): System
    requires CanMove(g, s, m)
  {
    var pool :=
      match m
      case PoolMove(action) => Step(g.pool, s.pool, action)
      case AddSucceeds(i) => QueuedByAdapter(s.pool, s.adapter.callbacks[i].content)
      case _ => s.pool;
    System(pool, AdapterStep(g, s, m))
  }

  ghost function Play(g: Config, s: System, run: seq<Move>): Option<System>
    decreases |run|
  {
    if run == [] then Some(s)
    else if CanMove(g, s, run[0]) then Play(g, Next(g, s, run[0]), run[1..])
    else None
  }

  const BEGINNING: System := System(INITIAL, FRESH)

  // ----- the stop and drain protocol -----

  predicate StopTookEffect(a: Adapter) {
    a.stop.Signalled? || a.stop.Halted? || a.stop.Drained? || a.stop.Stopped?
  }

  ghost predicate AdapterOk(a: Adapter) {
    && !a.panicked && a.waiting == Live(a.callbacks) && a.errs <= ADAPTER_ERRORS
    && (a.running ==> a.start.Starting? || a.start.Started?)
    && (a.start.NotStarted? ==> a.callbacks == []) && (a.ownerCancelled ==> a.cancelled)
    && (StopTookEffect(a) ==> a.cancelled && !a.running && !a.start.NotStarted?)
    && (a.errsClosed <==> a.stop.Stopped?)
    && (a.stop.Drained? || a.stop.Stopped? ==> Live(a.callbacks) == 0)
  }

  /** How many steps a callback has left at most. */
  function StepsLeft(c: Callback): nat {
    match c
    case Registered(_) => 4
    case Calling(_) => 3
    case Accepted(_) => 2
    case Failing => 2
    case Leaving => 1
    case Finished => 0
  }

  function TotalStepsLeft(cs: seq<Callback>): nat {
    if cs == [] then 0 else TotalStepsLeft(cs[..|cs| - 1]) + StepsLeft(cs[|cs| - 1])
  }

  predicate IsCallbackMove(m: Move) {
    m.Build? || m.AddSucceeds? || m.AddFails? || m.Remember? || m.Report? || m.Return?
  }

  function CallbackMoves(run: seq<Move>): nat {
    if run == [] then 0 else (if IsCallbackMove(run[0]) then 1 else 0) + CallbackMoves(run[1..])
  }

  // ----- the chain -----

  function IdOf(h: Hash, cs: seq<Content>): Id {
    if cs == [] then [] else ComputeCID(h, cs[|cs| - 1])
  }

  /** The commitment's only parent is its predecessor; the first has none. */
  ghost predicate IsChained(h: Hash, cs: seq<Content>, k: nat)
    requires k < |cs|
  {
    IsMainContent(cs[k]) && Occurs(h, cs[k]) && cs[k].parents == if k == 0 then [] else [ComputeCID(h, cs[k - 1])]
  }

  ghost predicate IsChainOf(h: Hash, cs: seq<Content>) {
    forall k :: 0 <= k < |cs| ==> IsChained(h, cs, k)
  }

  // ----- commitments when callbacks may overlap -----

  /** Nothing, or an accepted commitment's identifier. */
  ghost predicate Known(h: Hash, cs: seq<Content>, id: Id) {
    id == [] || exists j :: 0 <= j < |cs| && ComputeCID(h, cs[j]) == id
  }

  ghost predicate KnownParents(h: Hash, cs: seq<Content>, ps: seq<Id>) {
    ps == [] || exists j :: 0 <= j < |cs| && ps == [ComputeCID(h, cs[j])]
  }

  /** The commitment has no parent, or some earlier one. */
  ghost predicate IsGrafted(h: Hash, cs: seq<Content>, k: nat)
    requires k < |cs|
  {
    IsMainContent(cs[k]) && Occurs(h, cs[k]) && KnownParents(h, cs[..k], cs[k].parents)
  }

  /** In general commitments form a tree. */
  ghost predicate IsTree(h: Hash, cs: seq<Content>) {
    forall k :: 0 <= k < |cs| ==> IsGrafted(h, cs, k)
  }

  /** What a callback has read refers to accepted commitments. */
  ghost predicate Reads(h: Hash, cs: seq<Content>, c: Callback) {
    match c
    case Registered(last) => Known(h, cs, last)
    case Calling(content) => KnownParents(h, cs, content.parents)
    case Accepted(id) => Known(h, cs, id)
    case _ => true
  }

  ghost predicate ReadersOk(h: Hash, a: Adapter) {
    && Known(h, a.accepted, a.lastEventID)
    && forall i :: 0 <= i < |a.callbacks| ==> Reads(h, a.accepted, a.callbacks[i])
  }

  ghost predicate Placed(a: Adapter, s: State) {
    && |a.positions| == |a.accepted|
    && (forall k :: 0 <= k < |a.positions| ==>
          a.positions[k] < |s.intake.queued| && s.intake.queued[a.positions[k]] == a.accepted[k])
    && (forall j, k :: 0 <= j < k < |a.positions| ==> a.positions[j] < a.positions[k])
  }

  predicate IsDuplicate(r: Result<()>) {
    r.Err? && r.error.DuplicateEvent?
  }

  /** Something with the identifier of `c` was queued before position `n`. */
  ghost predicate QueuedBefore(h: Hash, queued: seq<Content>, n: nat, c: Content) {
    exists m :: 0 <= m < n && m < |queued| && ComputeCID(h, queued[m]) == ComputeCID(h, c)
  }

  /** Every commitment the pool has taken off its queue is in the DAG, by its own insertion or
      because its like was queued earlier. */
  ghost predicate ChainStored(h: Hash, a: Adapter, s: State) {
    forall k :: 0 <= k < |a.positions| && a.positions[k] < |s.loop.verdicts| && k < |a.accepted| ==>
      && ComputeCID(h, a.accepted[k]) in s.loop.store
      && var r := s.loop.verdicts[a.positions[k]];
         r.Ok? || (IsDuplicate(r) && QueuedBefore(h, s.intake.queued, a.positions[k], a.accepted[k]))
  }

  /** The event with this identifier has been taken off the queue. */
  ghost predicate WasTaken(h: Hash, s: State, id: Id) {
    exists m :: 0 <= m < |s.loop.verdicts| && m < |s.intake.queued| && ComputeCID(h, s.intake.queued[m]) == id
  }

  /** Every main event in the DAG came off the queue. */
  ghost predicate CameFromQueue(h: Hash, s: State) {
    forall id :: IsMain(s.loop.store, id) ==> WasTaken(h, s, id)
  }

  /** What a callback knows about the end of the chain. */
  ghost predicate Knows(g: Config, tip: Id, c: Callback) {
    match c
    case Registered(last) => last == tip
    case Calling(content) =>
      IsMainContent(content) && Occurs(g.pool.h, content) && content.parents == ParentsAfter(g.chain, tip)
    case Accepted(id) => id == tip
    case _ => true
  }

  /** At most one callback is live, it knows the tip, and `lastEventID` is the tip unless it is about to be. */
  ghost predicate TipKnown(g: Config, a: Adapter) {
    var tip := IdOf(g.pool.h, a.accepted);
    && (forall i, j :: 0 <= i < j < |a.callbacks| ==> a.callbacks[i].Finished? || a.callbacks[j].Finished?)
    && (forall i :: 0 <= i < |a.callbacks| ==> Knows(g, tip, a.callbacks[i]))
    && ((forall i :: 0 <= i < |a.callbacks| ==> !a.callbacks[i].Accepted?) ==> a.lastEventID == tip)
  }

  /** Kept by every interleaving. */
  ghost predicate TreeOk(g: Config, s: System) {
    && IsTree(g.pool.h, s.adapter.accepted) && ReadersOk(g.pool.h, s.adapter)
    && Placed(s.adapter, s.pool)
    && ChainStored(g.pool.h, s.adapter, s.pool)
    && CameFromQueue(g.pool.h, s.pool)
  }

  /** Kept when callbacks do not overlap. */
  ghost predicate ChainOk(g: Config, a: Adapter) {
    IsChainOf(g.pool.h, a.accepted) && TipKnown(g, a)
  }
}
