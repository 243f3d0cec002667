/** `GetSubEvents`: a depth-first walk over child links that only continues through the sub-events
    of the queried event. It is the same code over both backends' child lists. */
module SubEventWalk {
  import opened Wire
  import opened Encoding
  import opened Events

  /** A stored sub-event that names `root` as the event that spawned it. */
  predicate Spawned(s: Store, root: Id, x: Id) {
    x in s && s[x].content.kind == SUB && s[x].content.parentId == root
  }

  /** The walk, with the pending child lists as an explicit agenda. */
  function Walk(s: Store, root: Id, agenda: seq<Id>, visited: set<Id>, found: seq<Id>): Result<seq<Id>>
    decreases s.Keys - visited, |agenda|
  {
    if agenda == [] then Ok(found) else
      var x, rest := agenda[0], agenda[1..];
      if x in visited then Walk(s, root, rest, visited, found)
      else if x !in s then Err(DanglingChild(x))
      else if Spawned(s, root, x) then Walk(s, root, s[x].children + rest, visited + {x}, found + [x])
      else Walk(s, root, rest, visited + {x}, found)
  }

  function SubEventsOf(s: Store, id: Id): Result<seq<Id>> {
    if id == [] then Err(EmptyId)
    else if id !in s then Err(NotFound(id))
    else Walk(s, id, s[id].children, {}, [])
  }

  // ----- the recursive traversal -----

  class Traversal {
    const s: Store
    const root: Id
    var visited: set<Id>
    var subEvents: seq<Id>

    constructor (s: Store, root: Id)
      ensures this.s == s && this.root == root && visited == {} && subEvents == []
    {
      this.s, this.root, visited, subEvents := s, root, {}, [];
    }

    /** Visiting `x` advances the walk past it, whatever is still on the agenda behind it. */
    method Traverse(x: Id, ghost rest: seq<Id>) returns (r: Result<()>)
      modifies this
      ensures old(visited) <= visited
      ensures Walk(s, root, [x] + rest, old(visited), old(subEvents))
           == if r.Ok? then Walk(s, root, rest, visited, subEvents) else Err(r.error)
      decreases s.Keys - visited
    {
      if x in visited {
        return Ok(());
      }
      visited := visited + {x};
      if x !in s {
        return Err(DanglingChild(x));
      }
      if s[x].content.kind == SUB && s[x].content.parentId == root {
        subEvents := subEvents + [x];
        var children := s[x].children;
        var i := 0;
        while i < |children|
          invariant 0 <= i <= |children|
          invariant old(visited) + {x} <= visited
          invariant Walk(s, root, [x] + rest, old(visited), old(subEvents))
                 == Walk(s, root, children[i..] + rest, visited, subEvents)
        {
          assert children[i..] + rest == [children[i]] + (children[i + 1..] + rest);
          r := Traverse(children[i], children[i + 1..] + rest);
          if r.Err? {
            return;
          }
          i := i + 1;
        }
        assert children[i..] + rest == rest;
      }
      r := Ok(());
    }
  }

  method GetSubEvents(s: Store, id: Id) returns (r: Result<seq<Id>>)
    ensures r == SubEventsOf(s, id)
  {
    if id == [] {
      return Err(EmptyId);
    }
    if id !in s {
      return Err(NotFound(id));
    }
    var t := new Traversal(s, id);
    var children := s[id].children;
    var i := 0;
    while i < |children|
      invariant 0 <= i <= |children|
      invariant t.s == s && t.root == id
      invariant SubEventsOf(s, id) == Walk(s, id, children[i..], t.visited, t.subEvents)
    {
      assert children[i..] == [children[i]] + children[i + 1..];
      var step := t.Traverse(children[i], children[i + 1..]);
      if step.Err? {
        return Err(step.error);
      }
      i := i + 1;
    }
    r := Ok(t.subEvents);
  }

  // ----- what the walk finds -----

  /** A chain of child links out of `root` whose inner events were all spawned by `root`. */
  predicate IsChain(s: Store, root: Id, chain: seq<Id>) {
    && |chain| > 0
    && root in s && chain[0] in s[root].children
    && forall i :: 0 <= i < |chain| - 1 ==> Spawned(s, root, chain[i]) && chain[i + 1] in s[chain[i]].children
  }

  /** `x` is a child that `root`, or one of the sub-events reached from it, lists. */
  ghost predicate Listed(s: Store, root: Id, x: Id) {
    exists chain :: IsChain(s, root, chain) && chain[|chain| - 1] == x
  }

  predicate NoDuplicates(ids: seq<Id>) {
    forall i, j :: 0 <= i < j < |ids| ==> ids[i] != ids[j]
  }

  ghost predicate Exact(s: Store, root: Id, r: Result<seq<Id>>) {
    && (r.Ok? <==> forall x :: Listed(s, root, x) ==> x in s)
    && (r.Ok? ==> NoDuplicates(r.value) && forall x :: x in r.value <==> Listed(s, root, x) && Spawned(s, root, x))
    && (r.Err? ==> r.error.DanglingChild? && Listed(s, root, r.error.id) && r.error.id !in s)
  }

  /** Everything met so far is listed, and nothing listed by what was met has been forgotten. */
  ghost predicate Progress(s: Store, root: Id, agenda: seq<Id>, visited: set<Id>, found: seq<Id>) {
    && root in s
    && (forall x :: x in visited || x in agenda ==> Listed(s, root, x))
    && visited <= s.Keys
    && NoDuplicates(found)
    && (forall x :: x in found <==> x in visited && Spawned(s, root, x))
    && (forall c :: c in s[root].children ==> c in visited || c in agenda)
    && (forall v, c :: v in visited && Spawned(s, root, v) && c in s[v].children ==> c in visited || c in agenda)
  }

  lemma ListFurther(s: Store, root: Id, x: Id, c: Id)
    requires Listed(s, root, x) && Spawned(s, root, x) && c in s[x].children
    ensures Listed(s, root, c)
  {
    var chain :| IsChain(s, root, chain) && chain[|chain| - 1] == x;
    assert IsChain(s, root, chain + [c]);
    assert (chain + [c])[|chain + [c]| - 1] == c;
  }

  lemma {:induction false} ChainIsVisited(s: Store, root: Id, visited: set<Id>, found: seq<Id>, chain: seq<Id>)
    requires Progress(s, root, [], visited, found) && IsChain(s, root, chain)
    ensures chain[|chain| - 1] in visited
    decreases |chain|
  {
    if |chain| > 1 {
      var shorter := chain[..|chain| - 1];
      assert IsChain(s, root, shorter);
      ChainIsVisited(s, root, visited, found, shorter);
      assert Spawned(s, root, shorter[|shorter| - 1]);
    }
  }

  lemma WalkDone(s: Store, root: Id, visited: set<Id>, found: seq<Id>)
    requires Progress(s, root, [], visited, found)
    ensures Exact(s, root, Ok(found))
  {
    forall x | Listed(s, root, x) ensures x in visited {
      var chain :| IsChain(s, root, chain) && chain[|chain| - 1] == x;
      ChainIsVisited(s, root, visited, found, chain);
    }
  }

  lemma SkipVisited(s: Store, root: Id, agenda: seq<Id>, visited: set<Id>, found: seq<Id>)
    requires Progress(s, root, agenda, visited, found) && agenda != [] && agenda[0] in visited
    ensures Progress(s, root, agenda[1..], visited, found)
  {
    assert agenda == [agenda[0]] + agenda[1..];
  }

  lemma VisitOther(s: Store, root: Id, agenda: seq<Id>, visited: set<Id>, found: seq<Id>)
    requires Progress(s, root, agenda, visited, found) && agenda != []
    requires agenda[0] in s && agenda[0] !in visited && !Spawned(s, root, agenda[0])
    ensures Progress(s, root, agenda[1..], visited + {agenda[0]}, found)
  {
    assert agenda == [agenda[0]] + agenda[1..];
  }

  lemma VisitSubEvent(s: Store, root: Id, agenda: seq<Id>, visited: set<Id>, found: seq<Id>)
    requires Progress(s, root, agenda, visited, found) && agenda != []
    requires agenda[0] !in visited && Spawned(s, root, agenda[0])
    ensures Progress(s, root, s[agenda[0]].children + agenda[1..], visited + {agenda[0]}, found + [agenda[0]])
  {
    var x := agenda[0];
    assert agenda == [x] + agenda[1..];
    assert Listed(s, root, x);
    forall c | c in s[x].children ensures Listed(s, root, c) {
      ListFurther(s, root, x, c);
    }
  }

  lemma {:induction false} WalkIsExact(s: Store, root: Id, agenda: seq<Id>, visited: set<Id>, found: seq<Id>)
    requires Progress(s, root, agenda, visited, found)
    ensures Exact(s, root, Walk(s, root, agenda, visited, found))
    decreases s.Keys - visited, |agenda|
  {
    if agenda == [] {
      WalkDone(s, root, visited, found);
    } else {
      var x, rest := agenda[0], agenda[1..];
      if x in visited {
        SkipVisited(s, root, agenda, visited, found);
        WalkIsExact(s, root, rest, visited, found);
      } else if x !in s {
        assert Listed(s, root, x);
      } else if Spawned(s, root, x) {
        VisitSubEvent(s, root, agenda, visited, found);
        WalkIsExact(s, root, s[x].children + rest, visited + {x}, found + [x]);
      } else {
        VisitOther(s, root, agenda, visited, found);
        WalkIsExact(s, root, rest, visited + {x}, found);
      }
    }
  }

  /** On any event map, cyclic child links included: without duplicates, exactly the sub-events of
      `root` reachable through sub-events of `root`; an error exactly when a listed child is missing. */
  lemma SubEventsAreExact(s: Store, root: Id)
    ensures root == [] ==> SubEventsOf(s, root) == Err(EmptyId)
    ensures root != [] && root !in s ==> SubEventsOf(s, root) == Err(NotFound(root))
    ensures root != [] && root in s ==> Exact(s, root, SubEventsOf(s, root))
  {
    if root != [] && root in s {
      forall c | c in s[root].children ensures Listed(s, root, c) {
        assert IsChain(s, root, [c]);
        assert [c][|[c]| - 1] == c;
      }
      WalkIsExact(s, root, s[root].children, {}, []);
    }
  }

  // ----- in which order -----

  lemma {:induction false} FoundGrows(s: Store, root: Id, agenda: seq<Id>, visited: set<Id>, found: seq<Id>)
    ensures var r := Walk(s, root, agenda, visited, found); r.Ok? ==> found <= r.value
    decreases s.Keys - visited, |agenda|
  {
    if agenda != [] {
      var x, rest := agenda[0], agenda[1..];
      if x in visited {
        FoundGrows(s, root, rest, visited, found);
      } else if x in s {
        if Spawned(s, root, x) {
          FoundGrows(s, root, s[x].children + rest, visited + {x}, found + [x]);
        } else {
          FoundGrows(s, root, rest, visited + {x}, found);
        }
      }
    }
  }

  /** The walk is depth first: everything under the first children comes before anything the later ones add, and an
      error under the first children is the walk's. */
  lemma {:induction false} WalkIsDepthFirst(s: Store, root: Id, first: seq<Id>, later: seq<Id>, visited: set<Id>,
                                            found: seq<Id>)
    ensures var some, all := Walk(s, root, first, visited, found), Walk(s, root, first + later, visited, found);
            && (some.Err? ==> all == some)
            && (all.Ok? ==> some.Ok? && some.value <= all.value)
    decreases s.Keys - visited, |first|
  {
    if first == [] {
      assert first + later == later;
      FoundGrows(s, root, later, visited, found);
    } else {
      var x, rest := first[0], first[1..];
      assert (first + later)[1..] == rest + later;
      if x in visited {
        WalkIsDepthFirst(s, root, rest, later, visited, found);
      } else if x in s {
        if Spawned(s, root, x) {
          assert s[x].children + rest + later == s[x].children + (rest + later);
          WalkIsDepthFirst(s, root, s[x].children + rest, later, visited + {x}, found + [x]);
        } else {
          WalkIsDepthFirst(s, root, rest, later, visited + {x}, found);
        }
      }
    }
  }
}
