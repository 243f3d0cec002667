/** The IPFS backend: events in one map, child lists in another, and a remote store whose answers are
    arbitrary. */
module IpfsDag {
  import opened Wire
  import opened Encoding
  import opened Events
  import opened Stored
  import opened Snapshot
  import CycleCheck
  import SubEventWalk

  datatype Index = Index(events: Store, children: ChildIndex)

  function ChildIds(children: ChildIndex, id: Id): seq<Id> {
    if id in children then children[id] else []
  }

  /** The store a reader of this backend sees: each event with its child list filled in. */
  function Merged(index: Index): Store {
    map id | id in index.events :: index.events[id].(children := ChildIds(index.children, id))
  }

  function LinkIndex(children: ChildIndex, targets: seq<Id>, c: Id): ChildIndex {
    map x | x in children.Keys + (set t | t in targets) :: ChildIds(children, x) + Repeat(c, multiset(targets)[x])
  }

  /** An event without an identifier is given the one its content determines. */
  function Identified(h: Hash, n: Node): Node {
    if n.id == [] then n.(id := ComputeCID(h, n.content)) else n
  }

  /** `stored` is whether the remote store takes an event that passes the checks. When it does not, the
      event is not indexed either, but the links to it stay. */
  function AddToIndex(index: Index, n: Node, stored: bool): Index {
    var linked := LinkIndex(index.children, Targets(index.events.Keys, n), n.id);
    Index(if Accepts(index.events.Keys, n) && stored then index.events[n.id := n] else index.events, linked)
  }

  function IndexVerdict(keys: set<Id>, n: Node, stored: bool): Result<()> {
    if Accepts(keys, n) && !stored then Err(RemoteFailed) else Verdict(keys, n)
  }

  lemma LinkIndexNothing(children: ChildIndex, c: Id)
    ensures LinkIndex(children, [], c) == children
  {
    forall x | x in children ensures LinkIndex(children, [], c)[x] == children[x] {
      assert children[x] + Repeat(c, 0) == children[x];
    }
  }

  function AppendTo(children: ChildIndex, t: Id, c: Id): ChildIndex {
    children[t := ChildIds(children, t) + [c]]
  }

  lemma LinkIndexOne(children: ChildIndex, t: Id, c: Id)
    ensures LinkIndex(children, [t], c) == AppendTo(children, t, c)
  {
    forall x | x in LinkIndex(children, [t], c)
      ensures LinkIndex(children, [t], c)[x] == AppendTo(children, t, c)[x]
    {
      assert Repeat(c, 1) == [c];
      assert ChildIds(children, x) + Repeat(c, 0) == ChildIds(children, x);
    }
  }

  /** The child list of every event, linked or not, known to the index or not. */
  lemma LinkedChildIds(children: ChildIndex, targets: seq<Id>, c: Id, x: Id)
    ensures ChildIds(LinkIndex(children, targets, c), x) == ChildIds(children, x) + Repeat(c, multiset(targets)[x])
  {
    if x !in LinkIndex(children, targets, c) {
      assert Repeat(c, 0) == [];
    }
  }

  lemma RepeatMore(ids: seq<Id>, c: Id, m: nat, k: nat)
    ensures ids + Repeat(c, m) + Repeat(c, k) == ids + Repeat(c, m + k)
  {
  }

  lemma LinkIndexKeys(children: ChildIndex, targets: seq<Id>, c: Id)
    ensures LinkIndex(children, targets, c).Keys == children.Keys + set t | t in targets
  {
  }

  lemma LinkIndexInStages(children: ChildIndex, first: seq<Id>, second: seq<Id>, c: Id)
    ensures LinkIndex(LinkIndex(children, first, c), second, c) == LinkIndex(children, first + second, c)
  {
    hide LinkIndex, Repeat;
    var once := LinkIndex(children, first, c);
    var staged := LinkIndex(once, second, c);
    var whole := LinkIndex(children, first + second, c);
    LinkIndexKeys(children, first, c);
    LinkIndexKeys(once, second, c);
    LinkIndexKeys(children, first + second, c);
    assert staged.Keys == whole.Keys;
    forall x | x in whole ensures staged[x] == whole[x] {
      LinkedChildIds(children, first, c, x);
      LinkedChildIds(once, second, c, x);
      LinkedChildIds(children, first + second, c, x);
      RepeatMore(ChildIds(children, x), c, multiset(first)[x], multiset(second)[x]);
    }
  }

  lemma LinkIndexOneMore(children: ChildIndex, targets: seq<Id>, k: nat, c: Id)
    requires k < |targets|
    ensures LinkIndex(children, targets[..k + 1], c) == AppendTo(LinkIndex(children, targets[..k], c), targets[k], c)
  {
    assert targets[..k + 1] == targets[..k] + [targets[k]];
    LinkIndexInStages(children, targets[..k], [targets[k]], c);
    LinkIndexOne(LinkIndex(children, targets[..k], c), targets[k], c);
  }

  /** What a lookup can return: the empty identifier is refused even when it is stored. */
  function Readable(index: Index): Store {
    map id | id in index.events && id != [] :: index.events[id].(children := ChildIds(index.children, id))
  }

  // ----- queries -----

  /** What the remote store holds under an identifier. */
  datatype RemoteEvent = RemoteEvent(content: Content, beacon: Option<Anchor>)

  type Remote = Id -> Option<RemoteEvent>

  /** Whether a lookup finds the event here or there. */
  predicate Obtainable(index: Index, remote: Remote, id: Id) {
    id != [] && (id in index.events || remote(id).Some?)
  }

  /** A fetched event is cached under the identifier asked for, without looking at its references or at whether
      the identifier has been indexed meanwhile. */
  function Cache(index: Index, id: Id, e: RemoteEvent): Index {
    index.(events := index.events[id := Node(id, e.content, ChildIds(index.children, id), e.beacon)])
  }

  /** A lookup, when no other call comes between its parts. */
  function Fetch(index: Index, remote: Remote, id: Id): Index {
    if Obtainable(index, remote, id) && id !in index.events then Cache(index, id, remote(id).value) else index
  }

  /** Lookups in turn, up to the first that fails. */
  function FetchEach(index: Index, remote: Remote, ids: seq<Id>): Index
    decreases |ids|
  {
    if ids == [] || !Obtainable(index, remote, ids[0]) then index
    else FetchEach(Fetch(index, remote, ids[0]), remote, ids[1..])
  }

  function EventIn(index: Index, id: Id): Result<Node> {
    if id == [] then Err(EmptyId)
    else if id in Readable(index) then Ok(Readable(index)[id]) else Err(NotFound(id))
  }

  /** The index after `GetParents`, and its answer. */
  function ParentsIn(index: Index, remote: Remote, id: Id): (Index, Result<seq<Node>>) {
    var found := Fetch(index, remote, id);
    var event := EventIn(found, id);
    if event.Err? then (found, Err(event.error))
    else
      var parents := event.value.content.parents;
      var all := FetchEach(found, remote, parents);
      (all, Collect(Readable(all), parents, p => NotFound(p)))
  }

  /** Unlike the memory backend, this one does not look the queried event up. */
  function ChildrenIn(index: Index, remote: Remote, id: Id): (Index, Result<seq<Node>>) {
    if id == [] then (index, Err(EmptyId))
    else
      var children := ChildIds(index.children, id);
      var all := FetchEach(index, remote, children);
      (all, Collect(Readable(all), children, c => NotFound(c)))
  }

  /** Fetching adds events and leaves those already there, and the child lists, alone. */
  ghost predicate Extends(small: Index, big: Index) {
    && big.children == small.children
    && forall id :: id in small.events ==> id in big.events && big.events[id] == small.events[id]
  }

  lemma {:induction false} FetchEachExtends(index: Index, remote: Remote, ids: seq<Id>)
    ensures Extends(index, FetchEach(index, remote, ids))
    ensures forall id :: id in FetchEach(index, remote, ids).events
              ==> id in index.events || Obtainable(index, remote, id)
    decreases |ids|
  {
    if ids != [] && Obtainable(index, remote, ids[0]) {
      FetchEachExtends(Fetch(index, remote, ids[0]), remote, ids[1..]);
    }
  }

  lemma FetchExtends(index: Index, remote: Remote, id: Id)
    ensures Extends(index, Fetch(index, remote, id))
    ensures Obtainable(index, remote, id) <==> id in Readable(Fetch(index, remote, id))
  {
  }

  lemma FetchNothing(index: Index, remote: Remote, id: Id)
    requires !Obtainable(index, remote, id)
    ensures Fetch(index, remote, id) == index
  {
  }

  lemma LookupMeans(index: Index, id: Id)
    ensures if id in Readable(index) then EventIn(index, id) == Ok(Readable(index)[id]) else EventIn(index, id).Err?
  {
  }

  lemma ReadableStays(small: Index, big: Index, id: Id)
    requires Extends(small, big) && id in Readable(small)
    ensures id in Readable(big) && Readable(big)[id] == Readable(small)[id]
  {
  }

  lemma ObtainableStays(small: Index, big: Index, remote: Remote, id: Id)
    requires Extends(small, big) && forall x :: x in big.events ==> x in small.events || Obtainable(small, remote, x)
    ensures Obtainable(big, remote, id) <==> Obtainable(small, remote, id)
  {
  }

  /** One more lookup at the end. */
  lemma {:induction false} FetchEachOneMore(index: Index, remote: Remote, ids: seq<Id>, k: nat)
    requires k < |ids| && forall i :: 0 <= i < k ==> Obtainable(index, remote, ids[i])
    ensures FetchEach(index, remote, ids[..k + 1]) == Fetch(FetchEach(index, remote, ids[..k]), remote, ids[k])
    ensures !Obtainable(index, remote, ids[k]) ==> FetchEach(index, remote, ids) == FetchEach(index, remote, ids[..k])
    decreases |ids|
  {
    if k == 0 {
      assert ids[..1][1..] == [];
    } else {
      var next := Fetch(index, remote, ids[0]);
      FetchEachOneMore(next, remote, ids[1..], k - 1);
      assert ids[..k + 1][1..] == ids[1..][..k] && ids[..k][1..] == ids[1..][..k - 1];
    }
  }

  /** The first `k` lookups have succeeded with these nodes and have left this index. */
  ghost predicate FoundSoFar(before: Index, remote: Remote, ids: seq<Id>, k: nat, now: Index, found: seq<Node>) {
    && k <= |ids| && |found| == k && now == FetchEach(before, remote, ids[..k])
    && (forall i :: 0 <= i < k ==> Obtainable(before, remote, ids[i]))
    && (forall i :: 0 <= i < k ==> ids[i] in Readable(now) && found[i] == Readable(now)[ids[i]])
  }

  lemma NothingFoundYet(before: Index, remote: Remote, ids: seq<Id>)
    ensures FoundSoFar(before, remote, ids, 0, before, [])
  {
  }

  lemma LookupFinds(before: Index, remote: Remote, ids: seq<Id>, k: nat, now: Index, found: seq<Node>)
    requires FoundSoFar(before, remote, ids, k, now, found) && k < |ids|
    requires EventIn(Fetch(now, remote, ids[k]), ids[k]).Ok?
    ensures var next := Fetch(now, remote, ids[k]);
            FoundSoFar(before, remote, ids, k + 1, next, found + [EventIn(next, ids[k]).value])
  {
    hide Readable, Fetch, FetchEach, Extends, Obtainable, EventIn;
    var next := Fetch(now, remote, ids[k]);
    FetchEachExtends(before, remote, ids[..k]);
    FetchEachOneMore(before, remote, ids, k);
    ObtainableStays(before, now, remote, ids[k]);
    FetchExtends(now, remote, ids[k]);
    LookupMeans(next, ids[k]);
    forall i | 0 <= i < k ensures ids[i] in Readable(next) && Readable(next)[ids[i]] == Readable(now)[ids[i]] {
      ReadableStays(now, next, ids[i]);
    }
  }

  lemma LookupFails(before: Index, remote: Remote, ids: seq<Id>, k: nat, now: Index, found: seq<Node>)
    requires FoundSoFar(before, remote, ids, k, now, found) && k < |ids|
    requires EventIn(Fetch(now, remote, ids[k]), ids[k]).Err?
    ensures Fetch(now, remote, ids[k]) == now == FetchEach(before, remote, ids)
    ensures Collect(Readable(now), ids, p => NotFound(p)) == Err(NotFound(ids[k]))
  {
    hide Readable, Fetch, FetchEach, Extends, Obtainable, EventIn;
    FetchEachExtends(before, remote, ids[..k]);
    FetchEachOneMore(before, remote, ids, k);
    ObtainableStays(before, now, remote, ids[k]);
    FetchExtends(now, remote, ids[k]);
    LookupMeans(Fetch(now, remote, ids[k]), ids[k]);
    FetchNothing(now, remote, ids[k]);
    PresentStops(Readable(now).Keys, ids, k);
  }

  lemma AllFound(before: Index, remote: Remote, ids: seq<Id>, now: Index, found: seq<Node>)
    requires FoundSoFar(before, remote, ids, |ids|, now, found)
    ensures now == FetchEach(before, remote, ids)
    ensures Collect(Readable(now), ids, p => NotFound(p)) == Ok(found)
  {
    assert ids[..|ids|] == ids;
    PresentStops(Readable(now).Keys, ids, |ids|);
    assert found == Nodes(Readable(now), ids);
  }

  // ----- what these operations mean -----

  /** An event the remote store refuses is not indexed and the caller is told; its links stay as if it had been. */
  lemma RefusalMeans(index: Index, n: Node)
    ensures AddToIndex(index, n, false) == AddToIndex(index, n, true).(events := index.events)
    ensures IndexVerdict(index.events.Keys, n, true) == Verdict(index.events.Keys, n)
    ensures IndexVerdict(index.events.Keys, n, false)
         == if Accepts(index.events.Keys, n) then Err(RemoteFailed) else Verdict(index.events.Keys, n)
  {
  }

  /** Where an event's content comes from: the index first, and then the remote store. */
  function ContentAt(index: Index, remote: Remote, id: Id): Content
    requires Obtainable(index, remote, id)
  {
    if id in index.events then index.events[id].content else remote(id).value.content
  }

  predicate IsFirstUnobtainable(index: Index, remote: Remote, ids: seq<Id>, k: nat) {
    k < |ids| && !Obtainable(index, remote, ids[k]) && forall i :: 0 <= i < k ==> Obtainable(index, remote, ids[i])
  }

  /** Looking up identifiers in turn: all of them if every one is here or there, each with its own content and the
      children indexed for it; otherwise not found, for the first that is nowhere. */
  ghost predicate LooksUp(index: Index, remote: Remote, ids: seq<Id>, r: Result<seq<Node>>) {
    && (r.Ok? <==> forall x :: x in ids ==> Obtainable(index, remote, x))
    && (r.Ok? ==> |r.value| == |ids| && forall i :: 0 <= i < |ids| ==>
          && Obtainable(index, remote, ids[i]) && r.value[i].content == ContentAt(index, remote, ids[i])
          && r.value[i].children == ChildIds(index.children, ids[i]))
    && (r.Err? ==> exists k: nat :: IsFirstUnobtainable(index, remote, ids, k) && r == Err(NotFound(ids[k])))
  }

  lemma {:induction false} EachIsFetched(index: Index, remote: Remote, ids: seq<Id>, i: nat)
    requires i < |ids| && forall j :: 0 <= j <= i ==> Obtainable(index, remote, ids[j])
    ensures var s := Readable(FetchEach(index, remote, ids));
            && ids[i] in s && s[ids[i]].content == ContentAt(index, remote, ids[i])
            && s[ids[i]].children == ChildIds(index.children, ids[i])
    decreases |ids|
  {
    var next := Fetch(index, remote, ids[0]);
    if i == 0 {
      FetchEachExtends(next, remote, ids[1..]);
    } else {
      EachIsFetched(next, remote, ids[1..], i - 1);
    }
  }

  lemma NothingElseIsFetched(index: Index, remote: Remote, ids: seq<Id>, x: Id)
    requires x in Readable(FetchEach(index, remote, ids))
    ensures Obtainable(index, remote, x)
  {
    FetchEachExtends(index, remote, ids);
  }

  lemma LookupsMean(index: Index, remote: Remote, ids: seq<Id>)
    ensures var after := FetchEach(index, remote, ids);
            Extends(index, after) && LooksUp(index, remote, ids, Collect(Readable(after), ids, x => NotFound(x)))
  {
    hide FetchEach, Readable, ContentAt, Obtainable, Extends;
    var s := Readable(FetchEach(index, remote, ids));
    FetchEachExtends(index, remote, ids);
    var k := Present(s.Keys, ids);
    forall i | 0 <= i < k ensures Obtainable(index, remote, ids[i]) {
      NothingElseIsFetched(index, remote, ids, ids[i]);
    }
    forall i | 0 <= i < k
      ensures s[ids[i]].content == ContentAt(index, remote, ids[i])
      ensures s[ids[i]].children == ChildIds(index.children, ids[i])
    {
      EachIsFetched(index, remote, ids, i);
    }
    if k < |ids| {
      if Obtainable(index, remote, ids[k]) {
        EachIsFetched(index, remote, ids, k);
      }
      assert IsFirstUnobtainable(index, remote, ids, k);
    }
  }

  /** What `GetParents` answers: an error for the empty identifier and for one that is nowhere, and otherwise what
      looking up its parents gives. Nothing indexed is lost or changed. */
  lemma ParentsInMeans(index: Index, remote: Remote, id: Id)
    ensures var (after, r) := ParentsIn(index, remote, id);
            && Extends(index, after) && (id == [] ==> r == Err(EmptyId))
            && (id != [] && !Obtainable(index, remote, id) ==> r == Err(NotFound(id)))
            && (Obtainable(index, remote, id) ==> LooksUp(index, remote, ContentAt(index, remote, id).parents, r))
  {
    var found := Fetch(index, remote, id);
    FetchExtends(index, remote, id);
    if Obtainable(index, remote, id) {
      FetchedContent(index, remote, id);
      var parents := ContentAt(index, remote, id).parents;
      hide Fetch, FetchEach, Readable, Collect, LooksUp, Obtainable, ContentAt;
      LookupsMean(found, remote, parents);
      FetchedLooksAlike(index, remote, id, parents, ParentsIn(index, remote, id).1);
    }
  }

  lemma FetchedContent(index: Index, remote: Remote, id: Id)
    requires Obtainable(index, remote, id)
    ensures EventIn(Fetch(index, remote, id), id).Ok?
    ensures EventIn(Fetch(index, remote, id), id).value.content == ContentAt(index, remote, id)
  {
  }

  /** What `GetChildren` answers: an error for the empty identifier, and otherwise what looking up the indexed
      children gives. */
  lemma ChildrenInMeans(index: Index, remote: Remote, id: Id)
    ensures var (after, r) := ChildrenIn(index, remote, id);
            && Extends(index, after) && (id == [] ==> r == Err(EmptyId))
            && (id != [] ==> LooksUp(index, remote, ChildIds(index.children, id), r))
  {
    hide FetchEach, Readable, Collect, LooksUp;
    LookupsMean(index, remote, ChildIds(index.children, id));
  }

  lemma FetchedLooksAlike(index: Index, remote: Remote, id: Id, ids: seq<Id>, r: Result<seq<Node>>)
    requires Obtainable(index, remote, id) && LooksUp(Fetch(index, remote, id), remote, ids, r)
    ensures LooksUp(index, remote, ids, r)
  {
    var found := Fetch(index, remote, id);
    forall x ensures Obtainable(found, remote, x) <==> Obtainable(index, remote, x) {
    }
    forall x | Obtainable(index, remote, x) ensures ContentAt(found, remote, x) == ContentAt(index, remote, x) {
    }
    hide Fetch, Obtainable, ContentAt;
    if r.Err? {
      var k: nat :| IsFirstUnobtainable(found, remote, ids, k) && r == Err(NotFound(ids[k]));
      assert IsFirstUnobtainable(index, remote, ids, k);
    }
  }

  class IpfsDag {
    const h: Hash
    var events: map<Id, Event>
    var children: ChildIndex

    constructor (h: Hash)
      ensures this.h == h && Valid() && State() == Index(map[], map[])
    {
      this.h := h;
      events, children := map[], map[];
    }

    ghost predicate Valid()
      reads this
    {
      Distinct(events)
    }

    function State(): Index
      reads this, events.Values
    {
      Index(ViewOf(events), children)
    }

    /** `stored` is how the remote store answers when it is asked to take the event. */
    method AddEvent(event: Event?, stored: bool) returns (r: Result<()>)
      requires Valid() && (event != null ==> event !in events.Values)
      requires event != null ==> Identified(h, event.Value()).id != []
      modifies this, event
      ensures Valid()
      ensures event == null ==> r == Err(InvalidEvent) && State() == old(State())
      ensures event != null ==> event.Value() == old(Identified(h, event.Value()))
      ensures event != null ==>
                && event.id == (if old(event.id) == [] then ComputeCID(h, event.content) else old(event.id))
                && event.children == old(event.children) && event.beacon == old(event.beacon)
      ensures event != null ==> r == IndexVerdict(old(events.Keys), event.Value(), stored)
      ensures event != null ==> State() == AddToIndex(old(State()), event.Value(), stored)
      ensures events == if r.Ok? then old(events)[event.id := event] else old(events)
    {
      if event == null {
        return Err(InvalidEvent);
      }
      if event.id == [] {
        event.id := ComputeCID(h, event.content);
      }
      assert State() == old(State());
      r := AddIdentified(event, stored);
    }

    method AddIdentified(event: Event, stored: bool) returns (r: Result<()>)
      requires Valid() && event !in events.Values && event.id != []
      modifies this
      ensures Valid()
      ensures r == IndexVerdict(old(events.Keys), event.Value(), stored)
      ensures State() == AddToIndex(old(State()), event.Value(), stored)
      ensures events == if r.Ok? then old(events)[event.id := event] else old(events)
    {
      LinkIndexNothing(children, event.id);
      assert State().events.Keys == events.Keys;
      if event.id in events {
        return Err(DuplicateEvent(event.id));
      }
      r := Link(event);
      if r.Err? {
        return;
      }
      if !stored {
        return Err(RemoteFailed);
      }
      Insert(event);
    }

    method Insert(event: Event)
      requires Valid() && event !in events.Values && event.id !in events
      modifies this`events
      ensures Valid() && events == old(events)[event.id := event]
      ensures State() == old(State()).(events := old(State()).events[event.id := event.Value()])
    {
      events := events[event.id := event];
    }

    method Link(event: Event) returns (r: Result<()>)
      requires event.id != [] && event.id !in events
      modifies this`children
      ensures r == Verdict(events.Keys, event.Value())
      ensures children == LinkIndex(old(children), Targets(events.Keys, event.Value()), event.id)
    {
      LinkIndexNothing(children, event.id);
      if event.content.kind == SUB {
        if event.content.parentId == [] {
          return Err(InvalidEvent);
        }
        if event.content.parentId !in events {
          return Err(MissingParent(event.content.parentId));
        }
        LinkIndexOne(children, event.content.parentId, event.id);
        children := AppendTo(children, event.content.parentId, event.id);
      }
      assert children == LinkIndex(old(children), Spawner(event.Value()), event.id);
      var parents := event.content.parents;
      var k := LinkParents(parents, event.id);
      LinkIndexInStages(old(children), Spawner(event.Value()), parents[..k], event.id);
      if k < |parents| {
        return Err(MissingParent(parents[k]));
      }
      r := Ok(());
    }

    method LinkParents(parents: seq<Id>, child: Id) returns (k: nat)
      modifies this`children
      ensures k == Present(events.Keys, parents)
      ensures children == LinkIndex(old(children), parents[..k], child)
    {
      ghost var before := children;
      LinkIndexNothing(before, child);
      hide LinkIndex;
      k := 0;
      while k < |parents|
        invariant k <= |parents| && forall i :: 0 <= i < k ==> parents[i] in events
        invariant children == LinkIndex(before, parents[..k], child)
      {
        if parents[k] !in events {
          break;
        }
        LinkIndexOneMore(before, parents, k, child);
        children := AppendTo(children, parents[k], child);
        k := k + 1;
      }
      PresentStops(events.Keys, parents, k);
    }

    /** The locked section of a lookup after its fetch; other calls may have come in between. */
    method CacheFetched(id: Id, e: RemoteEvent)
      requires Valid()
      modifies this`events
      ensures Valid() && fresh(events.Values - old(events.Values))
      ensures State() == Cache(old(State()), id, e)
      ensures events.Keys == old(events.Keys) + {id}
    {
      hide ViewOf;
      var event := new Event(Node(id, e.content, ChildIds(children, id), e.beacon));
      ViewInsert(events, id, event);
      events := events[id := event];
    }

    /** A copy of the event with its child list filled in, fetched and cached if it is not here. */
    method GetEvent(id: Id, remote: Remote) returns (r: Result<Node>)
      requires Valid()
      modifies this`events
      ensures Valid() && fresh(events.Values - old(events.Values))
      ensures State() == Fetch(old(State()), remote, id)
      ensures r == EventIn(State(), id)
    {
      if id == [] {
        return Err(EmptyId);
      }
      if id !in events {
        var answer := remote(id);
        if answer.None? {
          return Err(NotFound(id));
        }
        CacheFetched(id, answer.value);
      }
      r := Ok(events[id].Value().(children := ChildIds(children, id)));
    }

    method GetEvents(ids: seq<Id>, remote: Remote) returns (r: Result<seq<Node>>)
      requires Valid()
      modifies this`events
      ensures Valid() && fresh(events.Values - old(events.Values))
      ensures State() == FetchEach(old(State()), remote, ids)
      ensures r == Collect(Readable(State()), ids, p => NotFound(p))
    {
      hide Readable, Fetch, FetchEach, ViewOf, EventIn, FoundSoFar, Collect;
      ghost var before := State();
      NothingFoundYet(before, remote, ids);
      var found := [];
      for i := 0 to |ids|
        invariant Valid() && fresh(events.Values - old(events.Values))
        invariant FoundSoFar(before, remote, ids, i, State(), found)
      {
        ghost var now := State();
        var next := GetEvent(ids[i], remote);
        if next.Err? {
          LookupFails(before, remote, ids, i, now, found);
          return Err(NotFound(ids[i]));
        }
        LookupFinds(before, remote, ids, i, now, found);
        found := found + [next.value];
      }
      AllFound(before, remote, ids, State(), found);
      r := Ok(found);
    }

    method GetParents(id: Id, remote: Remote) returns (r: Result<seq<Node>>)
      requires Valid()
      modifies this`events
      ensures Valid()
      ensures (State(), r) == ParentsIn(old(State()), remote, id)
    {
      var event := GetEvent(id, remote);
      if event.Err? {
        return Err(event.error);
      }
      r := GetEvents(event.value.content.parents, remote);
    }

    method GetChildren(id: Id, remote: Remote) returns (r: Result<seq<Node>>)
      requires Valid()
      modifies this`events
      ensures Valid()
      ensures (State(), r) == ChildrenIn(old(State()), remote, id)
    {
      if id == [] {
        return Err(EmptyId);
      }
      r := GetEvents(ChildIds(children, id), remote);
    }

    method GetSubEvents(id: Id) returns (r: Result<seq<Id>>)
      requires Valid()
      ensures r == SubEventWalk.SubEventsOf(Merged(State()), id)
    {
      r := SubEventWalk.GetSubEvents(Merged(State()), id);
    }

    /** Child lists are not checked. */
    method Verify() returns (r: Result<()>)
      requires Valid()
      ensures r.Ok? <==> CycleCheck.ReferencesStored(Merged(State()), false) && CycleCheck.Acyclic(Merged(State()))
    {
      ghost var order;
      r, order := CycleCheck.VerifyStore(Merged(State()), false);
    }

    /** What importing the snapshot gives back is this index. */
    method Export() returns (snapshot: Snapshot)
      requires Valid()
      ensures snapshot.version == CURRENT_VERSION
      ensures ImportDAG(snapshot) == Ok((State().events, State().children))
    {
      ExportThenImport(ViewOf(events), children);
      snapshot := ExportDAG(ViewOf(events), children);
    }

    method Import(snapshot: Snapshot) returns (r: Result<()>)
      requires Valid()
      modifies this
      ensures Valid()
      ensures snapshot.version != CURRENT_VERSION ==> r == Err(UnsupportedVersion) && State() == old(State())
      ensures snapshot.version == CURRENT_VERSION ==> r == Ok(())
      ensures forall v, c :: ImportDAG(snapshot) == Ok((v, c)) ==> State() == Index(v, c)
    {
      var imported := ImportDAG(snapshot);
      if imported.Err? {
        return Err(imported.error);
      }
      events := Decoded(imported.value.0);
      children := imported.value.1;
      r := Ok(());
    }
  }
}
