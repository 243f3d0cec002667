/** Events as the heap objects both backends keep pointers to. */
module Stored {
  import opened Wire
  import opened Encoding
  import opened Events

  class Event {
    const content: Content
    var id: Id
    var children: seq<Id>
    var beacon: Option<Anchor>

    constructor (n: Node)
      ensures Value() == n
    {
      id, content, children, beacon := n.id, n.content, n.children, n.beacon;
    }

    function Value(): Node
      reads this
    {
      Node(id, content, children, beacon)
    }
  }

  /** No event object is stored under two identifiers. */
  ghost predicate Distinct(events: map<Id, Event>) {
    forall a, b :: a in events && b in events && a != b ==> events[a] != events[b]
  }

  /** The contents of an event map as a value. */
  function ViewOf(events: map<Id, Event>): Store
    reads events.Values
  {
    map id | id in events :: events[id].Value()
  }

  lemma ViewKeys(events: map<Id, Event>)
    ensures ViewOf(events).Keys == events.Keys
  {
  }

  lemma ViewInsert(events: map<Id, Event>, id: Id, event: Event)
    ensures ViewOf(events[id := event]) == ViewOf(events)[id := event.Value()]
  {
  }

  lemma ViewAt(events: map<Id, Event>, id: Id)
    requires id in events
    ensures id in ViewOf(events) && ViewOf(events)[id] == events[id].Value()
  {
  }

  /** Fresh event objects for the events of a decoded snapshot. */
  method Decoded(values: Store) returns (events: map<Id, Event>)
    ensures Distinct(events) && fresh(events.Values)
    ensures ViewOf(events) == values
  {
    events := map[];
    var todo := values.Keys;
    while todo != {}
      invariant todo <= values.Keys && events.Keys == values.Keys - todo
      invariant Distinct(events) && forall id :: id in events ==> fresh(events[id])
      invariant forall id :: id in events ==> events[id].Value() == values[id]
      decreases todo
    {
      var id :| id in todo;
      var event := new Event(values[id]);
      events := events[id := event];
      todo := todo - {id};
    }
  }
}
