/** The integrity check both backends run: references first, then a depth-first search for cycles. */
module CycleCheck {
  import opened Wire
  import opened Encoding
  import opened Events

  // ----- what the check promises -----

  predicate NodeReferencesStored(s: Store, id: Id, children: bool)
    requires id in s
  {
    var c := s[id].content;
    && (c.kind == SUB ==> c.parentId != [] && c.parentId in s)
    && (forall p :: p in c.parents ==> p in s)
    && (children ==> forall x :: x in s[id].children ==> x in s)
  }

  predicate ReferencesStored(s: Store, children: bool) {
    forall id :: id in s ==> NodeReferencesStored(s, id, children)
  }

  /** Each event on the walk names the next one among its parents. */
  predicate IsWalk(s: Store, walk: seq<Id>) {
    forall i :: 0 <= i < |walk| - 1 ==> ParentEdge(s, walk[i], walk[i + 1])
  }

  predicate IsCycle(s: Store, walk: seq<Id>) {
    |walk| > 0 && IsWalk(s, walk) && ParentEdge(s, walk[|walk| - 1], walk[0])
  }

  ghost predicate Acyclic(s: Store) {
    forall walk :: !IsCycle(s, walk)
  }

  /** Every event is listed after all of its parents: a position is a rank that falls along each edge. */
  predicate IsTopological(s: Store, order: seq<Id>) {
    && (forall i, j :: 0 <= i < j < |order| ==> order[i] != order[j])
    && (forall i :: 0 <= i < |order| ==> order[i] in s)
    && (forall i, p :: 0 <= i < |order| && p in s[order[i]].content.parents ==> p in order[..i])
  }

  predicate IsTopologicalListing(s: Store, order: seq<Id>) {
    IsTopological(s, order) && forall id :: id in s ==> id in order
  }

  lemma {:induction false} WalkFallsInOrder(s: Store, order: seq<Id>, walk: seq<Id>, i: nat)
    requires IsTopological(s, order) && IsWalk(s, walk)
    requires |walk| > 0 && i < |order| && order[i] == walk[0]
    ensures exists j :: 0 <= j <= i && order[j] == walk[|walk| - 1]
    decreases |walk|
  {
    if |walk| > 1 {
      assert ParentEdge(s, walk[0], walk[1]);
      var j :| 0 <= j < i && order[j] == walk[1];
      forall k | 0 <= k < |walk| - 2 ensures ParentEdge(s, walk[1..][k], walk[1..][k + 1]) {
        assert ParentEdge(s, walk[k + 1], walk[k + 2]);
      }
      WalkFallsInOrder(s, order, walk[1..], j);
    }
  }

  lemma TopologicalMeansAcyclic(s: Store, order: seq<Id>)
    requires IsTopologicalListing(s, order)
    ensures Acyclic(s)
  {
    forall walk | IsCycle(s, walk) ensures false {
      var i :| 0 <= i < |order| && order[i] == walk[0];
      WalkFallsInOrder(s, order, walk, i);
    }
  }

  lemma ListNext(s: Store, order: seq<Id>, id: Id)
    requires IsTopological(s, order) && id in s && id !in order
    requires forall p :: p in s[id].content.parents ==> p in order
    ensures IsTopological(s, order + [id])
  {
    var longer := order + [id];
    forall i, p | 0 <= i < |longer| && p in s[longer[i]].content.parents
      ensures p in longer[..i]
    {
      assert longer[..i] == order[..i];
    }
  }

  // ----- the search -----

  /** The variables the recursive closure captures: `visited`, `inStack`, and, for the proof,
      the finished events in the order they were left and the current call stack. */
  class CycleSearch {
    const s: Store
    var visited: set<Id>
    var inStack: set<Id>
    ghost var finished: seq<Id>
    ghost var stack: seq<Id>

    constructor (s: Store)
      ensures this.s == s && Valid() && stack == [] && visited == {}
    {
      this.s := s;
      visited, inStack, finished, stack := {}, {}, [], [];
    }

    ghost predicate Valid()
      reads this
    {
      && IsTopological(s, finished)
      && IsWalk(s, stack)
      && (forall id :: id in inStack <==> id in stack)
      && (forall id :: id in visited <==> id in stack || id in finished)
      && (forall id :: id in stack ==> id in s && id !in finished)
    }

    method CheckCycle(id: Id) returns (r: Result<()>)
      requires Valid() && ReferencesStored(s, false)
      requires id in s && id !in visited
      requires stack != [] ==> ParentEdge(s, stack[|stack| - 1], id)
      modifies this
      ensures r.Ok? ==> Valid() && stack == old(stack) && id in finished && old(visited) <= visited
      ensures r.Err? ==> r == Err(CycleDetected) && !Acyclic(s)
      decreases s.Keys - visited
    {
      visited := visited + {id};
      inStack := inStack + {id};
      stack := stack + [id];
      r := Ok(());
      var parents := s[id].content.parents;
      assert NodeReferencesStored(s, id, false);
      var i := 0;
      while i < |parents|
        invariant 0 <= i <= |parents| && r.Ok?
        invariant Valid() && stack == old(stack) + [id]
        invariant old(visited) + {id} <= visited
        invariant forall p :: p in parents[..i] ==> p in finished
      {
        var p := parents[i];
        assert ParentEdge(s, id, p);
        if p !in visited {
          r := CheckCycle(p);
          if r.Err? {
            break;
          }
        } else if p in inStack {
          ghost var k :| 0 <= k < |stack| && stack[k] == p;
          assert IsCycle(s, stack[k..]);
          r := Err(CycleDetected);
          break;
        }
        i := i + 1;
      }
      inStack := inStack - {id};
      if r.Ok? {
        assert parents[..|parents|] == parents;
        ListNext(s, finished, id);
        stack := old(stack);
        finished := finished + [id];
      }
    }
  }

  /** Checks each event's references, in whatever order the map yields them. */
  method CheckReferences(s: Store, children: bool) returns (r: Result<()>)
    ensures r.Ok? <==> ReferencesStored(s, children)
    ensures r.Err? ==> r.error.BadReference? && r.error.id in s && !NodeReferencesStored(s, r.error.id, children)
  {
    var todo := s.Keys;
    while todo != {}
      invariant todo <= s.Keys
      invariant forall id :: id in s && id !in todo ==> NodeReferencesStored(s, id, children)
      decreases todo
    {
      var id :| id in todo;
      if !NodeReferencesStored(s, id, children) {
        return Err(BadReference(id));
      }
      todo := todo - {id};
    }
    r := Ok(());
  }

  /** `Verify`: for any event map and any iteration order, nil exactly when every reference is stored
      and the parent relation has no cycle; a reported cycle is real; nil comes with a ranking. */
  method VerifyStore(s: Store, children: bool) returns (r: Result<()>, ghost order: seq<Id>)
    ensures r.Ok? <==> ReferencesStored(s, children) && Acyclic(s)
    ensures r.Ok? ==> IsTopologicalListing(s, order)
    ensures r == Err(CycleDetected) <==> ReferencesStored(s, children) && !Acyclic(s)
    ensures r.Err? && r != Err(CycleDetected) ==>
              r.error.BadReference? && r.error.id in s && !NodeReferencesStored(s, r.error.id, children)
  {
    order := [];
    r := CheckReferences(s, children);
    if r.Err? {
      return;
    }
    assert ReferencesStored(s, false) by {
      forall id | id in s ensures NodeReferencesStored(s, id, false) {
        assert NodeReferencesStored(s, id, children);
      }
    }
    var search := new CycleSearch(s);
    var todo := s.Keys;
    while todo != {}
      invariant search.s == s && search.Valid() && search.stack == []
      invariant todo <= s.Keys
      invariant forall id :: id in s && id !in todo ==> id in search.finished
      decreases todo
    {
      var id :| id in todo;
      if id !in search.visited {
        r := search.CheckCycle(id);
        if r.Err? {
          return;
        }
      }
      todo := todo - {id};
    }
    order := search.finished;
    TopologicalMeansAcyclic(s, order);
    r := Ok(());
  }
}
