/** The in-memory backend. Each operation is proved against its meaning on the store value. */
module MemoryDag {
  import opened Wire
  import opened Encoding
  import opened Events
  import opened Stored
  import CycleCheck
  import SubEventWalk
  import opened Snapshot

  class MemoryDag {
    var events: map<Id, Event>

    constructor ()
      ensures Valid() && View() == map[]
    {
      events := map[];
    }

    ghost predicate Valid()
      reads this
    {
      Distinct(events)
    }

    function View(): Store
      reads this, events.Values
    {
      ViewOf(events)
    }

    method AddEvent(event: Event?) returns (r: Result<()>)
      requires Valid() && (event != null ==> event !in events.Values)
      modifies this, events.Values
      ensures Valid()
      ensures event == null ==> r == Err(InvalidEvent) && View() == old(View())
      ensures event != null ==> r == Verdict(old(events.Keys), event.Value())
      ensures event != null ==> View() == Add(old(View()), event.Value())
      ensures event != null ==> event.Value() == old(event.Value())
      ensures events == if r.Ok? then old(events)[event.id := event] else old(events)
    {
      if event == null {
        return Err(InvalidEvent);
      }
      LinkNothing(View(), event.id);
      assert View().Keys == events.Keys;
      if event.id == [] {
        return Err(InvalidEvent);
      }
      if event.id in events {
        return Err(DuplicateEvent(event.id));
      }
      r := Link(event);
      if r.Ok? {
        Insert(event);
      }
    }

    method Insert(event: Event)
      requires Valid() && event !in events.Values && event.id !in events
      modifies this
      ensures Valid() && events == old(events)[event.id := event]
      ensures View() == old(View())[event.id := event.Value()]
    {
      events := events[event.id := event];
    }

    /** The body of `AddEvent` between the duplicate check and the final insertion. */
    method Link(event: Event) returns (r: Result<()>)
      requires Valid() && event !in events.Values && event.id != [] && event.id !in events
      modifies events.Values
      ensures r == Verdict(events.Keys, event.Value())
      ensures View() == LinkAll(old(View()), Targets(events.Keys, event.Value()), event.id)
    {
      LinkNothing(View(), event.id);
      ghost var s := View();
      if event.content.kind == SUB {
        if event.content.parentId == [] {
          return Err(InvalidEvent);
        }
        if event.content.parentId !in events {
          return Err(MissingParent(event.content.parentId));
        }
        LinkOne(s, event.content.parentId, event.id);
        AppendChild(event.content.parentId, event.id);
      }
      assert View() == LinkAll(s, Spawner(event.Value()), event.id);
      var parents := event.content.parents;
      var k := LinkParents(parents, event.id);
      LinkInStages(s, Spawner(event.Value()), parents[..k], event.id);
      if k < |parents| {
        return Err(MissingParent(parents[k]));
      }
      r := Ok(());
    }

    /** Links `child` below each parent in turn and stops in front of the first that is not stored. */
    method LinkParents(parents: seq<Id>, child: Id) returns (k: nat)
      requires Valid()
      modifies events.Values
      ensures k == Present(events.Keys, parents)
      ensures View() == LinkAll(old(View()), parents[..k], child)
    {
      ghost var s := View();
      LinkNothing(s, child);
      k := 0;
      while k < |parents|
        invariant k <= |parents| && forall i :: 0 <= i < k ==> parents[i] in events
        invariant View() == LinkAll(s, parents[..k], child)
      {
        if parents[k] !in events {
          break;
        }
        LinkOneMore(s, parents, k, child);
        AppendChild(parents[k], child);
        k := k + 1;
      }
      PresentStops(events.Keys, parents, k);
    }

    /** Extends one stored event's child list through its pointer. */
    method AppendChild(id: Id, child: Id)
      requires Valid() && id in events
      modifies events[id]
      ensures View() == Append(old(View()), id, child)
    {
      var parent := events[id];
      parent.children := parent.children + [child];
    }

    method GetParents(id: Id) returns (r: Result<seq<Node>>)
      requires Valid()
      ensures r == ParentsOf(View(), id)
    {
      if id == [] {
        return Err(EmptyId);
      }
      if id !in events {
        return Err(NotFound(id));
      }
      var ids := events[id].content.parents;
      var parents := [];
      for i := 0 to |ids|
        invariant forall k :: 0 <= k < i ==> ids[k] in events
        invariant |parents| == i && forall k :: 0 <= k < i ==> parents[k] == View()[ids[k]]
      {
        if ids[i] !in events {
          PresentStops(View().Keys, ids, i);
          return Err(MissingParent(ids[i]));
        }
        parents := parents + [events[ids[i]].Value()];
      }
      PresentStops(View().Keys, ids, |ids|);
      assert parents == Nodes(View(), ids);
      r := Ok(parents);
    }

    method GetChildren(id: Id) returns (r: Result<seq<Node>>)
      requires Valid()
      ensures r == ChildrenOf(View(), id)
    {
      if id == [] {
        return Err(EmptyId);
      }
      if id !in events {
        return Err(NotFound(id));
      }
      var ids := events[id].children;
      var children := [];
      for i := 0 to |ids|
        invariant forall k :: 0 <= k < i ==> ids[k] in events
        invariant |children| == i && forall k :: 0 <= k < i ==> children[k] == View()[ids[k]]
      {
        if ids[i] !in events {
          PresentStops(View().Keys, ids, i);
          return Err(NotFound(ids[i]));
        }
        children := children + [events[ids[i]].Value()];
      }
      PresentStops(View().Keys, ids, |ids|);
      assert children == Nodes(View(), ids);
      r := Ok(children);
    }

    method GetSubEvents(id: Id) returns (r: Result<seq<Id>>)
      requires Valid()
      ensures r == SubEventWalk.SubEventsOf(View(), id)
    {
      r := SubEventWalk.GetSubEvents(View(), id);
    }

    /** Lists the main events in whatever order the map yields them, each once. */
    method GetMainEvents() returns (mains: seq<Id>)
      requires Valid()
      ensures SubEventWalk.NoDuplicates(mains)
      ensures forall id :: id in mains <==> id in View() && View()[id].content.kind == 0
    {
      mains := [];
      var todo := events.Keys;
      while todo != {}
        invariant todo <= events.Keys && SubEventWalk.NoDuplicates(mains)
        invariant forall id :: id in mains <==> id in View() && View()[id].content.kind == MAIN && id !in todo
        decreases todo
      {
        var id :| id in todo;
        if events[id].content.kind == MAIN {
          mains := mains + [id];
        }
        todo := todo - {id};
      }
    }

    method Verify() returns (r: Result<()>)
      requires Valid()
      ensures r.Ok? <==> CycleCheck.ReferencesStored(View(), true) && CycleCheck.Acyclic(View())
      ensures r == Err(CycleDetected) <==> CycleCheck.ReferencesStored(View(), true) && !CycleCheck.Acyclic(View())
    {
      ghost var order;
      r, order := CycleCheck.VerifyStore(View(), true);
    }

    /** What importing the snapshot gives back is this store and an index of its child lists. */
    method Export() returns (snapshot: Snapshot)
      requires Valid()
      ensures ImportDAG(snapshot).Ok? && snapshot.version == CURRENT_VERSION
      ensures var (values, children) := ImportDAG(snapshot).value;
              && values == View() && ListsChildren(View(), View().Keys, children)
              && (KeyedById(View()) ==> children == ChildIndexOf(View()))
    {
      hide ViewOf, ListsChildren, ChildIndexOf, KeyedById;
      ViewKeys(events);
      var children: ChildIndex := map[];
      var todo := events.Keys;
      assert ListsChildren(View(), {}, children) by { NothingListed(View()); }
      assert events.Keys - todo == {};
      while todo != {}
        invariant todo <= events.Keys
        invariant ListsChildren(View(), events.Keys - todo, children)
        decreases todo
      {
        var id :| id in todo;
        var event := events[id];
        assert View()[id] == event.Value() by { ViewAt(events, id); }
        ListOneMore(View(), events.Keys - todo, children, id);
        assert events.Keys - (todo - {id}) == events.Keys - todo + {id};
        if event.children != [] {
          children := children[event.id := event.children];
        }
        todo := todo - {id};
      }
      assert events.Keys - todo == View().Keys;
      ExportThenImport(View(), children);
      if KeyedById(View()) {
        OnlyIndex(View(), children);
      }
      snapshot := ExportDAG(View(), children);
    }

    method Import(snapshot: Snapshot) returns (r: Result<()>)
      requires Valid()
      modifies this
      ensures Valid() && fresh(events.Values - old(events.Values))
      ensures snapshot.version != CURRENT_VERSION ==> r == Err(UnsupportedVersion) && View() == old(View())
      ensures snapshot.version == CURRENT_VERSION ==> r == Ok(())
      ensures forall v, c :: ImportDAG(snapshot) == Ok((v, c)) ==> View() == WithChildren(v, c)
    {
      var imported := ImportDAG(snapshot);
      if imported.Err? {
        return Err(imported.error);
      }
      var (values, children) := imported.value;
      events := Decoded(values);
      RestoreChildren(values, children);
      r := Ok(());
    }

    /** Puts the listed child lists back, in whatever order the map yields them. */
    method RestoreChildren(ghost values: Store, children: ChildIndex)
      requires Valid() && View() == values
      modifies events.Values
      ensures View() == WithChildren(values, children)
    {
      var todo := children.Keys;
      assert children - todo == map[];
      while todo != {}
        invariant todo <= children.Keys
        invariant View() == WithChildren(values, children - todo)
        decreases todo
      {
        var parent :| parent in todo;
        RestoreOne(values, children, todo, parent, View());
        if parent in events {
          SetChildren(parent, children[parent]);
        }
        todo := todo - {parent};
      }
      assert children - todo == children;
    }

    method SetChildren(id: Id, children: seq<Id>)
      requires Valid() && id in events
      modifies events[id]
      ensures View() == old(View())[id := old(View())[id].(children := children)]
    {
      events[id].children := children;
    }
  }
}
