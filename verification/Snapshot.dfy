/** The snapshot that carries a DAG from one backend to another, as the value its JSON stands for.
    `None` is a field absent from the JSON. */
module Snapshot {
  import opened Wire
  import opened Events

  const CURRENT_VERSION: int := 1

  type ChildIndex = map<Id, seq<Id>>

  datatype Snapshot = Snapshot(version: int, events: Option<Store>, children: Option<ChildIndex>)

  /** An empty child index is omitted from the JSON. */
  function ExportDAG(events: Store, children: ChildIndex): Snapshot {
    Snapshot(CURRENT_VERSION, Some(events), if children == map[] then None else Some(children))
  }

  function ImportDAG(snapshot: Snapshot): Result<(Store, ChildIndex)> {
    if snapshot.version != CURRENT_VERSION then Err(UnsupportedVersion)
    else Ok((if snapshot.events.Some? then snapshot.events.value else map[],
             if snapshot.children.Some? then snapshot.children.value else map[]))
  }

  /** A snapshot is accepted exactly when it is of version 1; an absent map counts as empty. */
  lemma ImportMeaning(snapshot: Snapshot)
    ensures ImportDAG(snapshot).Ok? <==> snapshot.version == 1
    ensures ImportDAG(snapshot).Err? ==> ImportDAG(snapshot) == Err(UnsupportedVersion)
    ensures forall events, children :: ImportDAG(snapshot) == Ok((events, children)) ==>
              && (snapshot.events == Some(events) || (snapshot.events == None && events == map[]))
              && (snapshot.children == Some(children) || (snapshot.children == None && children == map[]))
  {
  }

  lemma ExportThenImport(events: Store, children: ChildIndex)
    ensures ImportDAG(ExportDAG(events, children)) == Ok((events, children))
    ensures ExportDAG(events, children).children == None <==> children == map[]
  {
  }

  // ----- the memory backend's side -----

  /** Every event is stored under its own identifier, as `AddEvent` stores it. */
  predicate KeyedById(s: Store) {
    forall id :: id in s ==> s[id].id == id
  }

  function ChildIndexOf(s: Store): ChildIndex {
    map id | id in s && s[id].children != [] :: s[id].children
  }

  /** The index holds non-empty child lists only, each that of an event with the identifier it is under, and no
      such event is left out. Events stored under foreign keys may share an identifier; then one list wins. */
  ghost predicate ListsChildren(s: Store, done: set<Id>, children: ChildIndex) {
    && (forall k :: k in children ==> exists id :: IsListed(s, done, k, children[k], id))
    && (forall id :: id in s && id in done && s[id].children != [] ==> s[id].id in children)
  }

  predicate IsListed(s: Store, done: set<Id>, k: Id, list: seq<Id>, id: Id) {
    id in s && id in done && s[id].id == k && s[id].children == list != []
  }

  lemma NothingListed(s: Store)
    ensures ListsChildren(s, {}, map[])
  {
  }

  lemma ListOneMore(s: Store, done: set<Id>, children: ChildIndex, id: Id)
    requires ListsChildren(s, done, children) && id in s
    ensures ListsChildren(s, done + {id},
                          if s[id].children != [] then children[s[id].id := s[id].children] else children)
  {
    var children' := if s[id].children != [] then children[s[id].id := s[id].children] else children;
    forall k | k in children' ensures exists x :: IsListed(s, done + {id}, k, children'[k], x) {
      if k == s[id].id && s[id].children != [] {
        assert IsListed(s, done + {id}, k, children'[k], id);
      } else {
        var x :| IsListed(s, done, k, children[k], x);
        assert IsListed(s, done + {id}, k, children'[k], x);
      }
    }
  }

  /** For events stored under their own identifiers there is only one such index. */
  lemma OnlyIndex(s: Store, children: ChildIndex)
    requires KeyedById(s) && ListsChildren(s, s.Keys, children)
    ensures children == ChildIndexOf(s)
  {
    forall k | k in children ensures k in ChildIndexOf(s) && children[k] == ChildIndexOf(s)[k] {
      var id :| IsListed(s, s.Keys, k, children[k], id);
    }
    assert children.Keys == ChildIndexOf(s).Keys;
  }

  /** The imported events, with the listed child lists put back in place. */
  function WithChildren(events: Store, children: ChildIndex): Store {
    map id | id in events :: if id in children then events[id].(children := children[id]) else events[id]
  }

  lemma RestoreOne(events: Store, children: ChildIndex, todo: set<Id>, id: Id, before: Store)
    requires id in todo && id in children && before == WithChildren(events, children - todo)
    ensures WithChildren(events, children - (todo - {id}))
         == if id in events then before[id := before[id].(children := children[id])] else before
  {
  }
}
