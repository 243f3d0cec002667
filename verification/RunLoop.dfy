/** The pool's single consumer: it inserts queued events, spawns sub-events from a window of recent
    ones, and anchors every interval's last event to a beacon round. Each function below is one
    uninterrupted stretch of an iteration; other goroutines run between them. */
module RunLoop {
  import opened Wire
  import opened Encoding
  import opened Events
  import opened SubEventWalk
  import opened History

  const MAX_RECENT: nat := 100
  const MAX_SUB_EVENTS: nat := 3
  const MAX_PARENTS: nat := 3
  const MAX_AGE: int := 3_600_000_000_000 // one hour in nanoseconds

  // ----- beacon rounds -----

  datatype Round = Round(number: nat, randomness: Bytes, signature: Bytes, age: int)

  predicate ValidRound(r: Round) {
    r.number != 0 && r.randomness != [] && r.signature != [] && r.age <= MAX_AGE
  }

  // ----- the state of the loop -----

  datatype Item =
    | MainItem(id: Id)
    | SubItem(main: Id, id: Id, next: nat, count: nat)

  /** Where the goroutine is within an iteration. */
  datatype Pc =
    | Idle
    | Telling(item: Item)      // inserted; subscribers not told yet
    | Recording(item: Item)    // subscribers told; not in the window yet
    | Spawning(main: Id, next: nat, count: nat)
    | Exited

  /** A main event whose iteration is complete, and the round it was anchored to. */
  datatype MainRecord = MainRecord(id: Id, round: Option<nat>)

  /** `inserted`, `calls`, `mains`, `failed` and `verdicts` are history: the insertion log, the calls made
      on the DAG, the completed main events, the failed anchoring attempts and the outcome of each event
      taken off the queue. */
  datatype Loop = Loop(store: Store, recent: seq<Id>, eventCount: nat, lastRound: nat, pc: Pc,
                       inserted: seq<Id>, calls: Calls, mains: seq<MainRecord>, failed: nat, verdicts: seq<Result<()>>)

  const START: Loop := Loop(map[], [], 0, 0, Idle, [], [], [], 0, [])

  function NewNode(h: Hash, c: Content): Node {
    Node(ComputeCID(h, c), c, [], None)
  }

  /** The bytes of "sub-event-" and the index. */
  function SubData(i: nat): Bytes
    requires i < MAX_SUB_EVENTS
  {
    [115, 117, 98, 45, 101, 118, 101, 110, 116, 45, 48 + i as u8]
  }

  function SubContent(main: Id, i: nat, parents: seq<Id>): Content
    requires i < MAX_SUB_EVENTS
  {
    Content(SUB, main, parents, SubData(i))
  }

  function InsertEvent(l: Loop, n: Node, item: Item, otherwise: Pc): Loop {
    var called := l.(store := Add(l.store, n), calls := l.calls + [n]);
    if Accepts(l.store.Keys, n) then called.(pc := Telling(item), inserted := l.inserted + [n.id])
    else called.(pc := otherwise)
  }

  function TakeMain(h: Hash, l: Loop, c: Content): Loop {
    var n := NewNode(h, c);
    InsertEvent(l, n, MainItem(n.id), Idle).(verdicts := l.verdicts + [Verdict(l.store.Keys, n)])
  }

  predicate CanSpawn(l: Loop) {
    l.pc.Spawning? && l.pc.next < l.pc.count && l.pc.count <= MAX_SUB_EVENTS
  }

  function SpawnSub(h: Hash, l: Loop, parents: seq<Id>): Loop
    requires CanSpawn(l)
  {
    var Spawning(main, next, count) := l.pc;
    var n := NewNode(h, SubContent(main, next, parents));
    InsertEvent(l, n, SubItem(main, n.id, next, count), Spawning(main, next + 1, count))
  }

  function Told(l: Loop): Loop {
    if l.pc.Telling? then l.(pc := Recording(l.pc.item)) else l
  }

  function Window(recent: seq<Id>, id: Id): seq<Id> {
    var longer := recent + [id];
    if |longer| > MAX_RECENT then longer[1..] else longer
  }

  /** `count` is the drawn number of sub-events, zero when none are to be created. */
  function Recorded(l: Loop, count: nat): Loop
    requires l.pc.Recording?
  {
    l.(recent := Window(l.recent, l.pc.item.id),
       pc := match l.pc.item
             case MainItem(id) => Spawning(id, 0, count)
             case SubItem(main, _, next, n) => Spawning(main, next + 1, n))
  }

  /** What `selectRandomParents` may return: distinct recent events, no more than drawn. */
  predicate IsChoice(recent: seq<Id>, count: nat, parents: seq<Id>) {
    && |parents| <= count && |parents| <= |recent|
    && NoDuplicates(parents)
    && (forall p :: p in parents ==> p in recent)
    && (recent != [] && count > 0 ==> parents != [])
  }

  function WithBeacon(s: Store, id: Id, a: Anchor): Store
    requires id in s
  {
    s[id := s[id].(beacon := Some(a))]
  }

  predicate AtAnchor(l: Loop) {
    l.pc.Spawning? && l.pc.next >= l.pc.count && l.pc.main in l.store
  }

  /** The end of an iteration. `answer` is the beacon's round, or nothing if none could be had. */
  function Anchored(interval: nat, l: Loop, answer: Option<Round>): Loop
    requires AtAnchor(l)
  {
    var main, due := l.pc.main, l.eventCount + 1 >= interval;
    if due && answer.Some? && ValidRound(answer.value) && answer.value.number > l.lastRound then
      var r := answer.value;
      l.(store := WithBeacon(l.store, main, Anchor(r.number, r.randomness)),
         lastRound := r.number, eventCount := 0, pc := Idle,
         mains := l.mains + [MainRecord(main, Some(r.number))])
    else
      l.(eventCount := l.eventCount + 1, pc := Idle,
         mains := l.mains + [MainRecord(main, None)],
         failed := l.failed + if due then 1 else 0)
  }

  // ----- what every reachable state of the loop satisfies -----

  ghost predicate ContentOk(h: Hash, n: Node) {
    n.id == ComputeCID(h, n.content) && Occurs(h, n.content) && (n.content.kind == MAIN || n.content.kind == SUB)
  }

  /** Insertion order ranks the store, and every event carries the identifier of its content. */
  ghost predicate StoreOk(h: Hash, l: Loop) {
    InOrder(l.store, l.inserted) && forall id :: id in l.store ==> ContentOk(h, l.store[id])
  }

  function MainOf(pc: Pc): Option<Id> {
    match pc
    case Telling(MainItem(id)) => Some(id)
    case Telling(SubItem(main, _, _, _)) => Some(main)
    case Recording(MainItem(id)) => Some(id)
    case Recording(SubItem(main, _, _, _)) => Some(main)
    case Spawning(main, _, _) => Some(main)
    case _ => None
  }

  /** The sub-events of `main` so far carry the payloads of the first `k` indices. */
  ghost predicate SubsBelow(s: Store, main: Id, k: nat) {
    forall id :: id in s && Spawned(s, main, id) ==>
      exists j :: 0 <= j < k && j < MAX_SUB_EVENTS && s[id].content.data == SubData(j)
  }

  ghost predicate ItemOk(l: Loop, item: Item) {
    && l.inserted != [] && l.inserted[|l.inserted| - 1] == item.id
    && match item
       case MainItem(id) => SubsBelow(l.store, id, 0)
       case SubItem(main, _, next, count) => next < count <= MAX_SUB_EVENTS && SubsBelow(l.store, main, next + 1)
  }

  ghost predicate PcOk(l: Loop) {
    match l.pc
    case Telling(item) => ItemOk(l, item)
    case Recording(item) => ItemOk(l, item)
    case Spawning(main, next, count) => next <= count <= MAX_SUB_EVENTS && SubsBelow(l.store, main, next)
    case _ => true
  }

  /** The log without the event that has not reached the window yet. */
  function RecordedLog(l: Loop): seq<Id> {
    if (l.pc.Telling? || l.pc.Recording?) && l.inserted != [] then l.inserted[..|l.inserted| - 1] else l.inserted
  }

  function LastOf(log: seq<Id>, n: nat): seq<Id> {
    if |log| <= n then log else log[|log| - n..]
  }

  predicate RecentOk(l: Loop) {
    l.recent == LastOf(RecordedLog(l), MAX_RECENT)
  }

  function RoundOf(s: Store, id: Id): Option<nat>
    requires id in s
  {
    if s[id].beacon.Some? then Some(s[id].beacon.value.round) else None
  }

  /** Rounds rise along the insertion log and stay at or below the last one used; nothing from the
      current main event on is anchored yet. */
  ghost predicate RoundsRise(s: Store, log: seq<Id>, lastRound: nat) {
    && (forall i :: 0 <= i < |log| ==> log[i] in s)
    && (forall i :: 0 <= i < |log| && RoundOf(s, log[i]).Some? ==> RoundOf(s, log[i]).value <= lastRound)
    && (forall i, j :: 0 <= i < j < |log| && RoundOf(s, log[i]).Some? && RoundOf(s, log[j]).Some?
          ==> RoundOf(s, log[i]).value < RoundOf(s, log[j]).value)
  }

  ghost predicate UnanchoredFrom(s: Store, log: seq<Id>, main: Id) {
    exists m :: 0 <= m < |log| && log[m] == main
             && forall j :: m <= j < |log| ==> log[j] in s && RoundOf(s, log[j]) == None
  }

  ghost predicate AnchorsOk(l: Loop) {
    && RoundsRise(l.store, l.inserted, l.lastRound)
    && (MainOf(l.pc).Some? ==> UnanchoredFrom(l.store, l.inserted, MainOf(l.pc).value))
  }

  predicate IsMain(s: Store, id: Id) {
    id in s && s[id].content.kind == MAIN
  }

  predicate RecordsMain(s: Store, r: MainRecord) {
    IsMain(s, r.id) && RoundOf(s, r.id) == r.round
  }

  /** `mains` lists the main events of the store, each once, with the rounds they carry. */
  ghost predicate MainsOk(l: Loop) {
    && (forall i :: 0 <= i < |l.mains| ==> RecordsMain(l.store, l.mains[i]) && Some(l.mains[i].id) != MainOf(l.pc))
    && (forall i, j :: 0 <= i < j < |l.mains| ==> l.mains[i].id != l.mains[j].id)
    && (forall id :: IsMain(l.store, id) && Some(id) != MainOf(l.pc) ==>
          exists i :: 0 <= i < |l.mains| && l.mains[i].id == id)
    && (MainOf(l.pc).Some? ==> IsMain(l.store, MainOf(l.pc).value))
  }

  // ----- the anchoring schedule -----

  function AnchorCount(mains: seq<MainRecord>): nat {
    if mains == [] then 0
    else AnchorCount(mains[..|mains| - 1]) + if mains[|mains| - 1].round.Some? then 1 else 0
  }

  function Min(a: int, b: int): int {
    if a <= b then a else b
  }

  /** Whether the `i`-th main event, counted from zero, closes an interval. */
  predicate ClosesInterval(interval: nat, i: nat)
    requires interval > 0
  {
    (i + 1) % interval == 0
  }

  /** Exactly the events that close an interval are anchored. */
  predicate OnSchedule(interval: nat, mains: seq<MainRecord>)
    requires interval > 0
  {
    forall i :: 0 <= i < |mains| ==> (mains[i].round.Some? <==> ClosesInterval(interval, i))
  }

  /** Nothing since the last anchor, which is `eventCount` main events ago; no two anchors closer than an interval. */
  ghost predicate Spaced(interval: nat, mains: seq<MainRecord>, eventCount: nat) {
    && eventCount <= |mains|
    && (forall i :: |mains| - eventCount <= i < |mains| ==> mains[i].round == None)
    && (forall i :: 0 <= i < |mains| && mains[i].round.Some? ==> i + 1 >= interval)
    && (forall i, j :: 0 <= i < j < |mains| && mains[i].round.Some? && mains[j].round.Some? ==> j - i >= interval)
  }

  ghost predicate ScheduleOk(interval: nat, mains: seq<MainRecord>, eventCount: nat, failed: nat)
    requires interval > 0
  {
    && |mains| == AnchorCount(mains) * interval + failed + Min(eventCount, interval - 1)
    && Spaced(interval, mains, eventCount)
    && (failed == 0 ==> eventCount == |mains| % interval)
    && (failed == 0 <==> OnSchedule(interval, mains))
  }

  ghost predicate LoopOk(h: Hash, interval: nat, l: Loop)
    requires interval > 0
  {
    && StoreOk(h, l) && PcOk(l) && RecentOk(l) && AnchorsOk(l) && MainsOk(l)
    && ScheduleOk(interval, l.mains, l.eventCount, l.failed)
  }
}
