/** The run goroutine's own code, piece by piece, over the memory DAG it writes to. Each piece is
    proved equal to the corresponding stretch of the loop. */
module Consumer {
  import opened Wire
  import opened Encoding
  import opened Events
  import opened Stored
  import opened SubEventWalk
  import opened MemoryDag
  import opened RunLoop
  import opened RunLoopProofs

  class Consumer {
    const h: Hash
    const interval: nat
    const dag: MemoryDag
    var recentEvents: seq<Id>
    var eventCount: nat
    var lastBeaconRound: nat
    ghost var pc: Pc
    ghost var inserted: seq<Id>
    ghost var calls: seq<Node>
    ghost var mains: seq<MainRecord>
    ghost var failed: nat
    ghost var verdicts: seq<Result<()>>

    constructor (h: Hash, interval: nat, dag: MemoryDag)
      requires dag.Valid() && dag.View() == map[]
      ensures this.h == h && this.interval == interval && this.dag == dag
      ensures dag.Valid() && State() == START
    {
      this.h, this.interval, this.dag := h, interval, dag;
      recentEvents, eventCount, lastBeaconRound := [], 0, 0;
      pc, inserted, calls, mains, failed, verdicts := Idle, [], [], [], 0, [];
    }

    ghost function State(): Loop
      reads this, dag, dag.events.Values
    {
      Loop(dag.View(), recentEvents, eventCount, lastBeaconRound, pc, inserted, calls, mains, failed, verdicts)
    }

    /** Inserts an event received from the queue. */
    method TakeMain(event: Event) returns (r: Result<()>)
      requires dag.Valid() && event !in dag.events.Values && event.Value() == NewNode(h, event.content)
      modifies this, dag, dag.events.Values
      ensures dag.Valid()
      ensures r == Verdict(old(dag.events.Keys), NewNode(h, event.content))
      ensures State() == RunLoop.TakeMain(h, old(State()), event.content)
    {
      hide Add, Verdict, ViewOf;
      ViewKeys(dag.events);
      r := dag.AddEvent(event);
      calls := calls + [event.Value()];
      if r.Ok? {
        pc := Telling(MainItem(event.id));
        inserted := inserted + [event.id];
      } else {
        pc := Idle;
      }
      verdicts := verdicts + [r];
    }

    /** Builds a sub-event of the current main event and inserts it. */
    method CreateSubEvent(main: Id, i: nat, ghost count: nat, parents: seq<Id>) returns (r: Result<()>)
      requires dag.Valid() && i < count <= MAX_SUB_EVENTS && pc == Spawning(main, i, count)
      modifies this, dag, dag.events.Values
      ensures dag.Valid()
      ensures State() == SpawnSub(h, old(State()), parents)
    {
      hide Add, Verdict, ViewOf;
      var subEvent := new Event(NewNode(h, SubContent(main, i, parents)));
      r := InsertSubEvent(subEvent, main, i, count);
    }

    method InsertSubEvent(subEvent: Event, main: Id, i: nat, ghost count: nat) returns (r: Result<()>)
      requires dag.Valid() && subEvent !in dag.events.Values
      modifies this, dag, dag.events.Values
      ensures dag.Valid()
      ensures var n := old(subEvent.Value());
              State() == InsertEvent(old(State()), n, SubItem(main, n.id, i, count), Spawning(main, i + 1, count))
    {
      hide Add, Verdict, ViewOf;
      ViewKeys(dag.events);
      r := dag.AddEvent(subEvent);
      calls := calls + [subEvent.Value()];
      if r.Ok? {
        pc := Telling(SubItem(main, subEvent.id, i, count));
        inserted := inserted + [subEvent.id];
      } else {
        pc := Spawning(main, i + 1, count);
      }
    }

    /** Keeps the window at the last hundred of whatever log it was the last hundred of. */
    method AddRecentEvent(id: Id)
      modifies this`recentEvents
      ensures forall log :: old(recentEvents) == LastOf(log, MAX_RECENT)
                ==> recentEvents == LastOf(log + [id], MAX_RECENT)
      ensures |old(recentEvents)| <= MAX_RECENT ==> recentEvents == LastOf(old(recentEvents) + [id], MAX_RECENT)
    {
      recentEvents := recentEvents + [id];
      if |recentEvents| > MAX_RECENT {
        recentEvents := recentEvents[1..];
      }
      forall log | old(recentEvents) == LastOf(log, MAX_RECENT)
        ensures recentEvents == LastOf(log + [id], MAX_RECENT)
      {
        WindowIsLast(log, id);
      }
    }

    /** Up to `count` rounds of drawing, each with up to five tries; `draws(i, j)` is what the `j`-th try of round `i`
        draws. A round adds nothing only if all its tries hit events already chosen; if the first tries are all
        different, they are the parents. */
    method SelectRandomParents(count: nat, draws: (nat, nat) -> nat) returns (parents: seq<Id>)
      requires recentEvents != [] ==> forall i, j :: draws(i, j) < |recentEvents|
      ensures IsChoice(recentEvents, count, parents)
      ensures recentEvents == [] ==> parents == []
      ensures recentEvents != [] && |parents| < Rounds(count) ==>
                exists i: nat :: i < Rounds(count) && AllTaken(draws, i, parents)
      ensures recentEvents != [] && FirstTriesDiffer(draws, Rounds(count)) ==>
                |parents| == Rounds(count)
                && forall i :: 0 <= i < Rounds(count) ==> parents[i] == recentEvents[draws(i, 0)]
    {
      parents := [];
      var snapshot := recentEvents;
      if |snapshot| == 0 {
        return;
      }
      var seen: set<Id> := {};
      var i := 0;
      while i < count && i < |snapshot|
        invariant |parents| <= i <= Rounds(count)
        invariant i > 0 ==> parents != []
        invariant NoDuplicates(parents)
        invariant forall p :: p in parents ==> p in snapshot
        invariant forall p :: p in parents <==> p in seen
        invariant |parents| < i ==> exists k: nat :: k < i && AllTaken(draws, k, parents)
        invariant FirstTriesDiffer(draws, Rounds(count)) ==>
                    |parents| == i && forall k :: 0 <= k < i ==> parents[k] == snapshot[draws(k, 0)]
      {
        var before := parents;
        var j := 0;
        while j < 5
          invariant j <= 5 && parents == before
          invariant j > 0 ==> parents != []
          invariant forall k :: 0 <= k < j ==> snapshot[draws(i, k)] in parents
        {
          var id := snapshot[draws(i, j)];
          if id !in seen {
            parents := parents + [id];
            seen := seen + {id};
            break;
          }
          j := j + 1;
        }
        assert parents == before ==> AllTaken(draws, i, parents);
        if |before| < i {
          ghost var k: nat :| k < i && AllTaken(draws, k, before);
          assert AllTaken(draws, k, parents);
        }
        i := i + 1;
      }
    }

    function Rounds(count: nat): nat
      reads this
    {
      if count <= |recentEvents| then count else |recentEvents|
    }

    ghost predicate AllTaken(draws: (nat, nat) -> nat, i: nat, parents: seq<Id>)
      reads this
    {
      forall j :: 0 <= j < 5 ==> draws(i, j) < |recentEvents| && recentEvents[draws(i, j)] in parents
    }

    ghost predicate FirstTriesDiffer(draws: (nat, nat) -> nat, rounds: nat)
      reads this
    {
      forall i, k :: 0 <= i < k < rounds ==>
        && draws(i, 0) < |recentEvents| && draws(k, 0) < |recentEvents|
        && recentEvents[draws(i, 0)] != recentEvents[draws(k, 0)]
    }

    /** Anchors a stored event through its pointer. */
    method SetBeacon(event: Event, anchor: Anchor)
      requires dag.Valid() && event.id in dag.events && dag.events[event.id] == event
      modifies event`beacon
      ensures dag.View() == WithBeacon(old(dag.View()), event.id, anchor)
    {
      event.beacon := Some(anchor);
    }

    /** Counts the main event and anchors it when its interval is full and the beacon has moved on. */
    method AnchorIfDue(event: Event, answer: Option<Round>)
      requires dag.Valid() && event.id in dag.events && dag.events[event.id] == event
      requires pc.Spawning? && pc.next >= pc.count && pc.main == event.id
      modifies this, event`beacon
      ensures dag.Valid()
      ensures State() == Anchored(interval, old(State()), answer)
    {
      hide WithBeacon, ViewOf;
      eventCount := eventCount + 1;
      ghost var round: Option<nat> := None;
      if eventCount >= interval {
        if answer.Some? && ValidRound(answer.value) && answer.value.number > lastBeaconRound {
          SetBeacon(event, Anchor(answer.value.number, answer.value.randomness));
          lastBeaconRound := answer.value.number;
          eventCount := 0;
          round := Some(answer.value.number);
        } else {
          failed := failed + 1;
        }
      }
      mains := mains + [MainRecord(event.id, round)];
      pc := Idle;
    }
  }
}
