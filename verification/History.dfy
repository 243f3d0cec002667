/** What every history of `AddEvent` calls, accepted and rejected, leaves in the store. */
module History {
  import opened Wire
  import opened Encoding
  import opened Events
  import opened Snapshot
  import opened CycleCheck
  import opened SubEventWalk

  /** The calls made so far, each with the event it was given. */
  type Calls = seq<Node>

  /** Events arrive without children; `AddEvent` is the only thing that gives them any. */
  predicate Childless(calls: Calls) {
    forall n :: n in calls ==> n.children == []
  }

  function Earlier(calls: Calls): Calls
    requires calls != []
  {
    calls[..|calls| - 1]
  }

  function Latest(calls: Calls): Node
    requires calls != []
  {
    calls[|calls| - 1]
  }

  function Replay(calls: Calls): Store {
    if calls == [] then map[] else Add(Replay(Earlier(calls)), Latest(calls))
  }

  lemma ReplayExtends(calls: Calls, n: Node)
    ensures Replay(calls + [n]) == Add(Replay(calls), n)
  {
    assert Earlier(calls + [n]) == calls;
  }

  function WasAccepted(calls: Calls): bool
    requires calls != []
  {
    Accepts(Replay(Earlier(calls)).Keys, Latest(calls))
  }

  /** The child lists the latest call extended. */
  function LatestTargets(calls: Calls): seq<Id>
    requires calls != []
  {
    Targets(Replay(Earlier(calls)).Keys, Latest(calls))
  }

  /** The accepted events in the order they were accepted. */
  function Order(calls: Calls): seq<Id> {
    if calls == [] then []
    else if WasAccepted(calls) then Order(Earlier(calls)) + [Latest(calls).id]
    else Order(Earlier(calls))
  }

  /** Identifiers of calls that were rejected after they had already extended some child list. */
  function Residue(calls: Calls): set<Id> {
    if calls == [] then {}
    else Residue(Earlier(calls)) + if !WasAccepted(calls) && LatestTargets(calls) != [] then {Latest(calls).id} else {}
  }

  /** Every identifier appended below `p`, call by call. */
  function Links(calls: Calls, p: Id): seq<Id> {
    if calls == [] then []
    else Links(Earlier(calls), p) + Repeat(Latest(calls).id, multiset(LatestTargets(calls))[p])
  }

  // ----- insertion order -----

  /** `a`'s parents and the event that spawned it, if any, all precede it. */
  ghost predicate RefersBack(s: Store, order: seq<Id>) {
    forall i, d :: 0 <= i < |order| && Refers(s, order[i], d) ==> d in order[..i]
  }

  ghost predicate InOrder(s: Store, order: seq<Id>) {
    && NoDuplicates(order)
    && (forall id :: id in s <==> id in order)
    && KeyedById(s) && [] !in s
    && RefersBack(s, order)
  }

  lemma AddKeepsContent(s: Store, n: Node, id: Id)
    requires id in s
    ensures id in Add(s, n) && Add(s, n)[id].content == s[id].content && Add(s, n)[id].id == s[id].id
    ensures Add(s, n)[id].beacon == s[id].beacon
  {
  }

  lemma AddKeepsReferences(s: Store, n: Node, id: Id, d: Id)
    requires id in s
    ensures Refers(Add(s, n), id, d) <==> Refers(s, id, d)
  {
    AddKeepsContent(s, n, id);
  }

  /** An accepted event refers only to stored ones. */
  lemma AcceptedRefers(s: Store, n: Node, d: Id)
    requires Accepts(s.Keys, n) && Refers(Add(s, n), n.id, d)
    ensures d in s
  {
    assert d in Targets(s.Keys, n);
  }

  lemma AddKeepsRefersBack(s: Store, n: Node, order: seq<Id>)
    requires RefersBack(s, order) && forall id :: id in s <==> id in order
    ensures RefersBack(Add(s, n), if Accepts(s.Keys, n) then order + [n.id] else order)
  {
    hide Add, Verdict, Refers;
    var s' := Add(s, n);
    var order' := if Accepts(s.Keys, n) then order + [n.id] else order;
    forall i, d | 0 <= i < |order'| && Refers(s', order'[i], d) ensures d in order'[..i] {
      if i < |order| {
        AddKeepsReferences(s, n, order[i], d);
        assert order'[..i] == order[..i];
      } else {
        AcceptedRefers(s, n, d);
        assert order'[..i] == order;
      }
    }
  }

  lemma AddKeepsKeys(s: Store, n: Node)
    ensures Add(s, n).Keys == if Accepts(s.Keys, n) then s.Keys + {n.id} else s.Keys
    ensures KeyedById(s) ==> KeyedById(Add(s, n))
    ensures Accepts(s.Keys, n) ==> n.id != [] && n.id !in s
  {
    forall id | id in s && s[id].id == id ensures Add(s, n)[id].id == id {
      AddKeepsContent(s, n, id);
    }
  }

  lemma GrowOrder(s: Store, s': Store, order: seq<Id>, id: Id)
    requires InOrder(s, order) && id !in s && id != []
    requires s'.Keys == s.Keys + {id} && KeyedById(s') && RefersBack(s', order + [id])
    ensures InOrder(s', order + [id])
  {
  }

  lemma AddKeepsOrder(s: Store, n: Node, order: seq<Id>)
    requires InOrder(s, order)
    ensures InOrder(Add(s, n), if Accepts(s.Keys, n) then order + [n.id] else order)
  {
    AddKeepsRefersBack(s, n, order);
    AddKeepsKeys(s, n);
    var s' := Add(s, n);
    if Accepts(s.Keys, n) {
      GrowOrder(s, s', order, n.id);
    } else {
      SameOrder(s, s', order);
    }
  }

  lemma SameOrder(s: Store, s': Store, order: seq<Id>)
    requires InOrder(s, order)
    requires s'.Keys == s.Keys && KeyedById(s') && RefersBack(s', order)
    ensures InOrder(s', order)
  {
  }

  /** Insertion order ranks the combined parent and spawning relation of every reachable store. */
  lemma {:induction false} ReplayInOrder(calls: Calls)
    ensures InOrder(Replay(calls), Order(calls))
  {
    if calls != [] {
      ReplayInOrder(Earlier(calls));
      AddKeepsOrder(Replay(Earlier(calls)), Latest(calls), Order(Earlier(calls)));
    }
  }

  lemma InOrderIsTopological(s: Store, order: seq<Id>)
    requires InOrder(s, order)
    ensures IsTopologicalListing(s, order) && ReferencesStored(s, false)
  {
    forall i, p | 0 <= i < |order| && p in s[order[i]].content.parents ensures p in order[..i] {
      assert Refers(s, order[i], p);
    }
    forall id | id in s ensures NodeReferencesStored(s, id, false) {
      var i :| 0 <= i < |order| && order[i] == id;
      var c := s[id].content;
      forall p | p in c.parents ensures p in s {
        assert p in order[..i];
      }
      if c.kind == SUB {
        assert Refers(s, order[i], c.parentId);
        assert c.parentId in order[..i];
      }
    }
  }

  /** The IPFS backend's `Verify` can never fail on such a store, and no backend's reports a cycle. */
  lemma NeverCyclic(calls: Calls)
    ensures ReferencesStored(Replay(calls), false) && Acyclic(Replay(calls))
  {
    ReplayInOrder(calls);
    InOrderIsTopological(Replay(calls), Order(calls));
    TopologicalMeansAcyclic(Replay(calls), Order(calls));
  }

  // ----- child lists -----

  /** The guard of the branch that makes `AddEvent` write before it rejects: a sub-event whose spawning event
      is stored, or any other event whose first parent is. */
  predicate LinksBeforeRejecting(s: Store, n: Node) {
    && n.id != [] && n.id !in s
    && if n.content.kind == SUB then n.content.parentId != [] && n.content.parentId in s
       else n.content.parents != [] && n.content.parents[0] in s
  }

  lemma LinkingChanges(s: Store, targets: seq<Id>, t: Id, c: Id)
    requires t in targets && t in s
    ensures LinkAll(s, targets, c) != s
  {
    assert multiset(targets)[t] > 0;
    assert |LinkAll(s, targets, c)[t].children| > |s[t].children|;
  }

  /** A rejected call is atomic exactly when that guard is false. */
  lemma RejectionIsAtomicExactly(s: Store, n: Node)
    requires !Accepts(s.Keys, n)
    ensures Add(s, n) == s <==> !LinksBeforeRejecting(s, n)
  {
    var targets := Targets(s.Keys, n);
    if LinksBeforeRejecting(s, n) {
      assert targets[0] == if n.content.kind == SUB then n.content.parentId else n.content.parents[0];
      LinkingChanges(s, targets, targets[0], n.id);
    } else {
      assert targets == [];
      LinkNothing(s, n.id);
    }
  }

  lemma TargetsAreStored(calls: Calls, p: Id)
    requires calls != [] && p !in Replay(Earlier(calls))
    ensures Repeat(Latest(calls).id, multiset(LatestTargets(calls))[p]) == []
  {
    assert p !in LatestTargets(calls);
  }

  lemma AddChildren(s: Store, n: Node, p: Id)
    requires n.children == [] && p in Add(s, n)
    ensures Add(s, n)[p].children
         == if p in s then s[p].children + Repeat(n.id, multiset(Targets(s.Keys, n))[p]) else []
  {
  }

  /** Each child list is exactly what the history appended to it. */
  lemma {:induction false} ChildrenAreLinks(calls: Calls, p: Id)
    requires Childless(calls)
    ensures p in Replay(calls) ==> Replay(calls)[p].children == Links(calls, p)
    ensures p !in Replay(calls) ==> Links(calls, p) == []
  {
    if calls != [] {
      var s, n := Replay(Earlier(calls)), Latest(calls);
      ChildrenAreLinks(Earlier(calls), p);
      AddKeepsKeys(s, n);
      hide Add, Verdict, Targets;
      if p !in s {
        TargetsAreStored(calls, p);
      }
      if p in Replay(calls) {
        AddChildren(s, n, p);
      }
    }
  }

  /** How often an event with this content refers to `p`: once if `p` spawned it, and once per parent entry. */
  function References(c: Content, p: Id): nat {
    (if c.kind == SUB && c.parentId == p then 1 else 0) + multiset(c.parents)[p]
  }

  lemma TargetsCount(keys: set<Id>, n: Node, p: Id)
    requires Accepts(keys, n)
    ensures multiset(Targets(keys, n))[p] == References(n.content, p)
  {
  }

  lemma RepeatCount(x: Id, k: nat, c: Id)
    ensures multiset(Repeat(x, k))[c] == if x == c then k else 0
  {
    if k > 0 {
      assert Repeat(x, k) == Repeat(x, k - 1) + [x];
      RepeatCount(x, k - 1, c);
    }
  }

  ghost predicate CountsReferences(calls: Calls, p: Id, c: Id) {
    var s, k := Replay(calls), multiset(Links(calls, p))[c];
    if c in s
    then k >= References(s[c].content, p) && (c !in Residue(calls) ==> k == References(s[c].content, p))
    else c !in Residue(calls) ==> k == 0
  }

  lemma {:induction false} LinksCount(calls: Calls, p: Id, c: Id)
    ensures CountsReferences(calls, p, c)
  {
    if calls != [] {
      LinksCount(Earlier(calls), p, c);
      var s, n := Replay(Earlier(calls)), Latest(calls);
      RepeatCount(n.id, multiset(LatestTargets(calls))[p], c);
      if WasAccepted(calls) {
        TargetsCount(s.Keys, n, p);
      }
      if c in s {
        AddKeepsContent(s, n, c);
      }
    }
  }

  /** A child that no rejected call left behind is listed by `p` once if `p` spawned it, plus once for
      each time it names `p` as a parent; left-behind identifiers can only be listed more often. */
  lemma ChildMultiplicity(calls: Calls, p: Id, c: Id)
    requires Childless(calls) && p in Replay(calls)
    ensures var s := Replay(calls); var k := multiset(s[p].children)[c];
            && (c in s ==> k >= References(s[c].content, p))
            && (c !in Residue(calls) ==> k == if c in s then References(s[c].content, p) else 0)
  {
    ChildrenAreLinks(calls, p);
    LinksCount(calls, p, c);
  }

  /** Every left-behind identifier is in some stored event's child list. */
  lemma {:induction false} ResidueIsListed(calls: Calls, c: Id) returns (p: Id)
    requires Childless(calls) && c in Residue(calls)
    ensures p in Replay(calls) && c in Replay(calls)[p].children
  {
    var s, n := Replay(Earlier(calls)), Latest(calls);
    if c in Residue(Earlier(calls)) {
      p := ResidueIsListed(Earlier(calls), c);
      AddKeepsContent(s, n, p);
      var i :| 0 <= i < |s[p].children| && s[p].children[i] == c;
      assert p in Replay(calls);
      ChildrenAreLinks(Earlier(calls), p);
      ChildrenAreLinks(calls, p);
      assert Links(calls, p)[i] == c;
    } else {
      p := LatestTargets(calls)[0];
      assert multiset(LatestTargets(calls))[p] > 0;
      ChildrenAreLinks(calls, p);
      assert Repeat(c, multiset(LatestTargets(calls))[p])[0] == c;
      assert Links(calls, p)[|Links(Earlier(calls), p)|] == c;
    }
  }

  /** The memory backend's `Verify` accepts exactly when every identifier left behind by a partially
      applied, rejected call belongs to an event that was accepted after all. */
  lemma VerifyExactlyWhenResidueResolved(calls: Calls)
    requires Childless(calls)
    ensures ReferencesStored(Replay(calls), true) && Acyclic(Replay(calls)) <==> Residue(calls) <= Replay(calls).Keys
  {
    var s := Replay(calls);
    NeverCyclic(calls);
    if ReferencesStored(s, true) {
      forall c | c in Residue(calls) ensures c in s {
        var p := ResidueIsListed(calls, c);
        assert NodeReferencesStored(s, p, true);
      }
    }
    if Residue(calls) <= s.Keys {
      forall id | id in s ensures NodeReferencesStored(s, id, true) {
        assert NodeReferencesStored(s, id, false);
        forall c | c in s[id].children ensures c in s {
          ChildMultiplicity(calls, id, c);
          assert multiset(s[id].children)[c] > 0;
        }
      }
    }
  }

  function MainNode(id: Id, parents: seq<Id>): Node {
    Node(id, Content(MAIN, [], parents, []), [], None)
  }

  lemma SecondParentMissing(s: Store, a: Id, b: Id, missing: Id)
    requires b != [] && b !in s && a in s && missing !in s
    ensures Verdict(s.Keys, MainNode(b, [a, missing])) == Err(MissingParent(missing))
    ensures Targets(s.Keys, MainNode(b, [a, missing])) == [a]
  {
    PresentStops(s.Keys, [a, missing], 1);
  }

  lemma FirstIsStored(a: Id)
    requires a != []
    ensures Replay([MainNode(a, [])]).Keys == {a}
  {
    var n := MainNode(a, []);
    assert Earlier([n]) == [];
    AddKeepsKeys(map[], n);
    hide Add;
  }

  lemma LeavesResidue(calls: Calls)
    requires calls != [] && !WasAccepted(calls) && LatestTargets(calls) != []
    ensures Latest(calls).id in Residue(calls)
  {
  }

  /** Such a call: an event, and then one whose first parent it is and whose second is nowhere. The second call is
      rejected, and from then on the memory backend's `Verify` fails. */
  lemma RejectedCallBreaksVerify(a: Id, b: Id, missing: Id)
    requires a != [] && b != [] && a != b && missing != a
    ensures var calls := [MainNode(a, []), MainNode(b, [a, missing])];
            && !WasAccepted(calls) && b in Residue(calls) && b !in Replay(calls)
            && Replay(calls) != Replay(Earlier(calls)) && !ReferencesStored(Replay(calls), true)
            && ReferencesStored(Replay(calls), false)
  {
    hide Add, Verdict, Targets, Replay, ReferencesStored, Acyclic, Residue;
    var first, second := MainNode(a, []), MainNode(b, [a, missing]);
    var calls := [first, second];
    assert Earlier(calls) == [first] && [first] + [second] == calls;
    var s := Replay([first]);
    FirstIsStored(a);
    SecondParentMissing(s, a, b, missing);
    AddKeepsKeys(s, second);
    ReplayExtends([first], second);
    LeavesResidue(calls);
    VerifyExactlyWhenResidueResolved(calls);
    NeverCyclic(calls);
    RejectionIsAtomicExactly(s, second);
  }

  // ----- sub-events -----

  /** A spawned sub-event is a direct child of the event that spawned it. */
  lemma SpawnedIsChild(calls: Calls, root: Id, x: Id)
    requires Childless(calls) && root in Replay(calls) && Spawned(Replay(calls), root, x)
    ensures x in Replay(calls)[root].children && Listed(Replay(calls), root, x)
  {
    var s := Replay(calls);
    ChildMultiplicity(calls, root, x);
    assert multiset(s[root].children)[x] > 0;
    assert IsChain(s, root, [x]);
    assert [x][|[x]| - 1] == x;
  }

  /** On a store built by `AddEvent`, a traversal that succeeds is the plain filter, each sub-event
      once; it succeeds whenever no left-behind identifier is unresolved. */
  lemma SubEventsAreTheFilter(calls: Calls, root: Id)
    requires Childless(calls) && root in Replay(calls)
    ensures var s := Replay(calls); var r := SubEventsOf(s, root);
            && (r.Ok? ==> NoDuplicates(r.value) && forall x :: x in r.value <==> Spawned(s, root, x))
            && (r.Ok? <==> forall x :: Listed(s, root, x) ==> x in s)
            && (Residue(calls) <= s.Keys ==> r.Ok?)
  {
    var s := Replay(calls);
    ReplayInOrder(calls);
    SubEventsAreExact(s, root);
    forall x | Spawned(s, root, x) ensures Listed(s, root, x) {
      SpawnedIsChild(calls, root, x);
    }
    if Residue(calls) <= s.Keys {
      VerifyExactlyWhenResidueResolved(calls);
      forall x | Listed(s, root, x) ensures x in s {
        var chain :| IsChain(s, root, chain) && chain[|chain| - 1] == x;
        var p := if |chain| == 1 then root else chain[|chain| - 2];
        assert NodeReferencesStored(s, p, true);
      }
    }
  }
}
