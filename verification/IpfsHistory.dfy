/** What histories of calls leave in the IPFS backend when its remote store may fail to take an event, and may
    answer a query with one that was never added here. */
module IpfsHistory {
  import opened Wire
  import opened Encoding
  import opened Events
  import opened CycleCheck
  import opened History
  import opened IpfsDag

  /** `stored` is whether the remote store took the event. A query's fetch ends in a step of its own, which may
      come long after its lookup; `fetched` is what the remote store returned. */
  datatype IpfsCall =
    | AddCall(event: Node, stored: bool)
    | CacheCall(id: Id, fetched: RemoteEvent)

  function AfterCall(index: Index, call: IpfsCall): Index {
    match call
    case AddCall(n, stored) => AddToIndex(index, n, stored)
    case CacheCall(id, fetched) => Cache(index, id, fetched)
  }

  function ReplayIpfs(calls: seq<IpfsCall>): Index {
    if calls == [] then Index(map[], map[])
    else AfterCall(ReplayIpfs(calls[..|calls| - 1]), calls[|calls| - 1])
  }

  /** The identifiers queries have asked the remote store for. */
  function FetchedIds(calls: seq<IpfsCall>): set<Id> {
    set i | 0 <= i < |calls| && calls[i].CacheCall? :: calls[i].id
  }

  /** `Verify` returns nil. */
  ghost predicate Verified(index: Index) {
    ReferencesStored(Merged(index), false) && Acyclic(Merged(index))
  }

  // ----- child lists do not matter to it -----

  predicate SameContents(s: Store, s': Store) {
    s'.Keys == s.Keys && forall id :: id in s ==> s'[id].content == s[id].content && s'[id].id == s[id].id
  }

  lemma SameCycles(s: Store, s': Store)
    requires SameContents(s, s')
    ensures Acyclic(s) <==> Acyclic(s')
    ensures ReferencesStored(s, false) <==> ReferencesStored(s', false)
  {
    forall a, b ensures ParentEdge(s, a, b) <==> ParentEdge(s', a, b) {
    }
    forall walk ensures IsCycle(s, walk) <==> IsCycle(s', walk) {
    }
    forall id | id in s ensures NodeReferencesStored(s, id, false) <==> NodeReferencesStored(s', id, false) {
    }
  }

  lemma SameContentsInOrder(s: Store, s': Store, order: seq<Id>)
    requires SameContents(s, s') && InOrder(s, order)
    ensures InOrder(s', order)
  {
    forall a, b ensures Refers(s, a, b) <==> Refers(s', a, b) {
    }
  }

  lemma MergedSameContents(index: Index)
    ensures SameContents(index.events, Merged(index))
  {
  }

  // ----- without fetching -----

  lemma AddInserts(s: Store, n: Node)
    requires Accepts(s.Keys, n)
    ensures n.id in Add(s, n) && Add(s, n)[n.id] == n
  {
    hide Verdict, Targets, LinkAll;
  }

  lemma AddSameContents(s: Store, n: Node)
    requires Accepts(s.Keys, n)
    ensures SameContents(Add(s, n), s[n.id := n])
  {
    hide Add, Verdict, Targets;
    AddKeepsKeys(s, n);
    AddInserts(s, n);
    forall id | id in s ensures Add(s, n)[id].content == s[id].content && Add(s, n)[id].id == s[id].id {
      AddKeepsContent(s, n, id);
    }
  }

  lemma AddKeepsIndexOrder(index: Index, n: Node, stored: bool, order: seq<Id>) returns (order': seq<Id>)
    requires InOrder(index.events, order)
    ensures InOrder(AddToIndex(index, n, stored).events, order')
  {
    hide InOrder, Add, Accepts, LinkIndex, Targets;
    if Accepts(index.events.Keys, n) && stored {
      order' := order + [n.id];
      AddKeepsOrder(index.events, n, order);
      AddSameContents(index.events, n);
      SameContentsInOrder(Add(index.events, n), AddToIndex(index, n, stored).events, order');
    } else {
      order' := order;
    }
  }

  lemma {:induction false} AddsStayInOrder(calls: seq<IpfsCall>) returns (order: seq<Id>)
    requires forall i :: 0 <= i < |calls| ==> calls[i].AddCall?
    ensures InOrder(ReplayIpfs(calls).events, order)
  {
    if calls == [] {
      order := [];
    } else {
      hide InOrder, AddToIndex;
      var call := calls[|calls| - 1];
      order := AddsStayInOrder(calls[..|calls| - 1]);
      order := AddKeepsIndexOrder(ReplayIpfs(calls[..|calls| - 1]), call.event, call.stored, order);
    }
  }

  /** As long as no query fetches, the IPFS backend's `Verify` cannot fail, whatever calls were rejected and
      whatever the remote store refused to take. */
  lemma VerifyNeverFails(calls: seq<IpfsCall>)
    requires forall i :: 0 <= i < |calls| ==> calls[i].AddCall?
    ensures Verified(ReplayIpfs(calls))
  {
    hide InOrder, AfterCall, Merged;
    var events := ReplayIpfs(calls).events;
    var order := AddsStayInOrder(calls);
    InOrderIsTopological(events, order);
    TopologicalMeansAcyclic(events, order);
    MergedSameContents(ReplayIpfs(calls));
    SameCycles(events, Merged(ReplayIpfs(calls)));
  }

  // ----- with fetching -----

  /** The event refers to indexed ones only; a sub-event may also name itself as its spawning event, which no
      check looks for. */
  predicate RefersTo(keys: set<Id>, id: Id, c: Content) {
    && (c.kind == SUB ==> c.parentId != [] && (c.parentId in keys || c.parentId == id))
    && forall p :: p in c.parents ==> p in keys
  }

  predicate AddsOne(s: Store, s': Store, id: Id) {
    id !in s && s'.Keys == s.Keys + {id} && forall x :: x in s ==> s'[x] == s[x]
  }

  /** Walks that start at an old event never leave the old ones. */
  lemma {:induction false} WalkStays(s: Store, s': Store, id: Id, walk: seq<Id>, i: nat)
    requires AddsOne(s, s', id) && ReferencesStored(s, false)
    requires IsWalk(s', walk) && i < |walk| && walk[0] in s
    ensures walk[i] in s
  {
    if i > 0 {
      WalkStays(s, s', id, walk, i - 1);
      assert ParentEdge(s', walk[i - 1], walk[i]);
      assert NodeReferencesStored(s, walk[i - 1], false);
    }
  }

  /** A cycle after one event more is an old one, or goes through the new event's own parents. */
  lemma CycleWasThere(s: Store, s': Store, id: Id, walk: seq<Id>)
    requires AddsOne(s, s', id) && ReferencesStored(s, false) && IsCycle(s', walk) && walk[0] in s
    ensures IsCycle(s, walk)
  {
    forall i | 0 <= i < |walk| ensures walk[i] in s {
      WalkStays(s, s', id, walk, i);
    }
    forall i | 0 <= i < |walk| - 1 ensures ParentEdge(s, walk[i], walk[i + 1]) {
      assert ParentEdge(s', walk[i], walk[i + 1]);
    }
    assert ParentEdge(s', walk[|walk| - 1], walk[0]);
  }

  lemma CycleStartsOld(s: Store, s': Store, id: Id, walk: seq<Id>)
    requires AddsOne(s, s', id) && ReferencesStored(s, false) && IsCycle(s', walk)
    requires forall p :: p in s'[id].content.parents ==> p in s
    ensures walk[0] in s
  {
    var last := walk[|walk| - 1];
    assert ParentEdge(s', last, walk[0]);
    if |walk| > 1 {
      assert ParentEdge(s', walk[0], walk[1]);
      if walk[1] in s {
        forall i | 0 <= i < |walk| - 2 ensures ParentEdge(s', walk[1..][i], walk[1..][i + 1]) {
          assert ParentEdge(s', walk[i + 1], walk[i + 2]);
        }
        WalkStays(s, s', id, walk[1..], |walk| - 2);
        assert NodeReferencesStored(s, last, false);
      } else {
        assert walk[0] in s;
      }
    }
  }

  lemma OneMoreStaysAcyclic(s: Store, s': Store, id: Id)
    requires AddsOne(s, s', id) && ReferencesStored(s, false) && Acyclic(s)
    requires forall p :: p in s'[id].content.parents ==> p in s
    ensures Acyclic(s')
  {
    forall walk ensures !IsCycle(s', walk) {
      assert !IsCycle(s, walk);
      if IsCycle(s', walk) {
        CycleStartsOld(s, s', id, walk);
        CycleWasThere(s, s', id, walk);
      }
    }
  }

  lemma OneMoreKeepsReferences(s: Store, s': Store, id: Id)
    requires AddsOne(s, s', id) && ReferencesStored(s, false)
    ensures ReferencesStored(s', false) <==> NodeReferencesStored(s', id, false)
  {
    forall x | x in s ensures NodeReferencesStored(s', x, false) {
      assert NodeReferencesStored(s, x, false);
    }
  }

  lemma OneMoreVerifiedExactly(s: Store, s': Store, id: Id)
    requires AddsOne(s, s', id) && ReferencesStored(s, false) && Acyclic(s)
    ensures ReferencesStored(s', false) && Acyclic(s') <==> RefersTo(s.Keys, id, s'[id].content)
  {
    OneMoreKeepsReferences(s, s', id);
    if RefersTo(s.Keys, id, s'[id].content) {
      OneMoreStaysAcyclic(s, s', id);
    } else if id in s'[id].content.parents {
      assert IsCycle(s', [id]);
    }
  }

  /** Exactly when `Verify` still returns nil after a query has fetched an event: its references must be indexed
      already. The query itself does not ask for that. */
  lemma FetchKeepsVerifiedExactly(index: Index, remote: Remote, id: Id)
    requires Verified(index) && id !in index.events && Obtainable(index, remote, id)
    ensures Verified(Fetch(index, remote, id)) <==> RefersTo(index.events.Keys, id, remote(id).value.content)
  {
    var index' := Fetch(index, remote, id);
    assert AddsOne(index.events, index'.events, id) && index'.events[id].content == remote(id).value.content;
    hide Merged, Fetch, AddsOne, ReferencesStored, Acyclic, RefersTo;
    MergedSameContents(index);
    MergedSameContents(index');
    SameCycles(index.events, Merged(index));
    SameCycles(index'.events, Merged(index'));
    OneMoreVerifiedExactly(index.events, index'.events, id);
  }

  /** A fetch that ends after its identifier has been indexed replaces that event. When the remote copy has the
      same content, as content addressing promises, only the anchor is at stake, and `Verify` does not mind. */
  lemma LateCacheReplacesAnchorOnly(index: Index, id: Id, e: RemoteEvent)
    requires id in index.events && index.events[id].id == id && index.events[id].content == e.content
    ensures var shown := Merged(index);
            && Merged(Cache(index, id, e)) == shown[id := shown[id].(beacon := e.beacon)]
            && (Merged(Cache(index, id, e)) == shown <==> e.beacon == shown[id].beacon)
    ensures Verified(Cache(index, id, e)) <==> Verified(index)
  {
    var shown, late := Merged(index), Merged(Cache(index, id, e));
    forall x | x in shown ensures late[x] == shown[id := shown[id].(beacon := e.beacon)][x] {
    }
    assert late == shown[id := shown[id].(beacon := e.beacon)];
    assert late[id].beacon == e.beacon;
    SameCycles(shown, late);
  }

  lemma AddedRefersBack(index: Index, n: Node, stored: bool, id: Id)
    requires id in AddToIndex(index, n, stored).events
    requires id in index.events ==> NodeReferencesStored(index.events, id, false)
    ensures NodeReferencesStored(AddToIndex(index, n, stored).events, id, false)
  {
    if id !in index.events {
      forall p | p in n.content.parents ensures p in index.events {
        assert p in Targets(index.events.Keys, n);
      }
    }
  }

  lemma FetchedGrow(calls: seq<IpfsCall>)
    requires calls != []
    ensures FetchedIds(calls[..|calls| - 1]) <= FetchedIds(calls)
  {
    var earlier := calls[..|calls| - 1];
    forall id | id in FetchedIds(earlier) ensures id in FetchedIds(calls) {
      var i :| 0 <= i < |earlier| && earlier[i].CacheCall? && earlier[i].id == id;
      assert calls[i].CacheCall? && calls[i].id == id;
    }
  }

  /** Over every history: the only events whose references can be missing are those a query has fetched. */
  lemma {:induction false} OnlyFetchedCanDangle(calls: seq<IpfsCall>, id: Id)
    requires id in ReplayIpfs(calls).events && id !in FetchedIds(calls)
    ensures NodeReferencesStored(ReplayIpfs(calls).events, id, false)
  {
    var earlier, call := calls[..|calls| - 1], calls[|calls| - 1];
    var index := ReplayIpfs(earlier);
    FetchedGrow(calls);
    if id in index.events {
      OnlyFetchedCanDangle(earlier, id);
    }
    match call
    case AddCall(n, stored) =>
      hide AddToIndex;
      AddedRefersBack(index, n, stored, id);
    case CacheCall(x, fetched) =>
      assert calls[|calls| - 1].id in FetchedIds(calls);
  }

  /** So references are complete exactly when those of the fetched events are. */
  lemma ReferencesStoredExactly(calls: seq<IpfsCall>)
    ensures var s := ReplayIpfs(calls).events;
            ReferencesStored(Merged(ReplayIpfs(calls)), false)
            <==> forall id :: id in s && id in FetchedIds(calls) ==> NodeReferencesStored(s, id, false)
  {
    var index := ReplayIpfs(calls);
    MergedSameContents(index);
    SameCycles(index.events, Merged(index));
    forall id | id in index.events && id !in FetchedIds(calls) ensures NodeReferencesStored(index.events, id, false) {
      OnlyFetchedCanDangle(calls, id);
    }
  }
}
