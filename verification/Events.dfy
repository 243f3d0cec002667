/** Events as values, the store they live in, and what adding an event and querying the store mean. */
module Events {
  import opened Wire
  import opened Encoding

  datatype Anchor = Anchor(round: nat, randomness: Bytes)

  datatype Node = Node(id: Id, content: Content, children: seq<Id>, beacon: Option<Anchor>)

  type Store = map<Id, Node>

  datatype Error =
    | InvalidEvent
    | DuplicateEvent(id: Id)
    | MissingParent(id: Id)
    | EmptyId
    | NotFound(id: Id)
    | DanglingChild(id: Id)
    | BadReference(id: Id)
    | CycleDetected
    | UnsupportedVersion
    | RemoteFailed

  datatype Result<+T> = Ok(value: T) | Err(error: Error)

  // ----- adding an event -----

  function Repeat<T>(x: T, n: nat): (r: seq<T>)
    ensures |r| == n && forall i :: 0 <= i < n ==> r[i] == x
  {
    seq(n, _ => x)
  }

  /** How many leading identifiers are present. */
  function Present(keys: set<Id>, ids: seq<Id>): (k: nat)
    ensures k <= |ids|
    ensures forall i :: 0 <= i < k ==> ids[i] in keys
    ensures k < |ids| ==> ids[k] !in keys
  {
    if ids == [] || ids[0] !in keys then 0 else 1 + Present(keys, ids[1..])
  }

  lemma {:induction false} PresentStops(keys: set<Id>, ids: seq<Id>, k: nat)
    requires k <= |ids| && (forall i :: 0 <= i < k ==> ids[i] in keys)
    requires k < |ids| ==> ids[k] !in keys
    ensures Present(keys, ids) == k
  {
    if k > 0 {
      PresentStops(keys, ids[1..], k - 1);
    }
  }

  /** `nil`, or the error `AddEvent` returns. */
  function Verdict(keys: set<Id>, n: Node): Result<()> {
    if n.id == [] then Err(InvalidEvent)
    else if n.id in keys then Err(DuplicateEvent(n.id))
    else if n.content.kind == SUB && n.content.parentId == [] then Err(InvalidEvent)
    else if n.content.kind == SUB && n.content.parentId !in keys then Err(MissingParent(n.content.parentId))
    else
      var k := Present(keys, n.content.parents);
      if k < |n.content.parents| then Err(MissingParent(n.content.parents[k])) else Ok(())
  }

  predicate Accepts(keys: set<Id>, n: Node) {
    Verdict(keys, n).Ok?
  }

  predicate IsFirstMissing(keys: set<Id>, ids: seq<Id>, k: nat) {
    k < |ids| && ids[k] !in keys && forall i :: 0 <= i < k ==> ids[i] in keys
  }

  /** What the verdict means, in the order of the checks: a nameless event is invalid; a stored one a duplicate; a
      sub-event without a spawning event invalid; then the spawning event must be stored, and then the parents, the
      first missing one being named; and what passes all that is accepted. */
  lemma VerdictMeaning(keys: set<Id>, n: Node)
    ensures var r, c := Verdict(keys, n), n.content;
            && (r == Err(InvalidEvent) <==>
                  n.id == [] || (n.id !in keys && c.kind == SUB && c.parentId == []))
            && (r == Err(DuplicateEvent(n.id)) <==> n.id != [] && n.id in keys)
            && (r.Err? && r.error.MissingParent? ==>
                  (c.kind == SUB && r.error.id == c.parentId && c.parentId !in keys)
                  || ((c.kind == SUB ==> c.parentId in keys)
                      && exists k: nat :: IsFirstMissing(keys, c.parents, k) && r.error.id == c.parents[k]))
            && (r.Ok? || r.error == InvalidEvent || r.error == DuplicateEvent(n.id) || r.error.MissingParent?)
    ensures Accepts(keys, n) <==>
              && n.id != [] && n.id !in keys
              && (n.content.kind == SUB ==> n.content.parentId != [] && n.content.parentId in keys)
              && (forall p :: p in n.content.parents ==> p in keys)
  {
    var ps, k := n.content.parents, Present(keys, n.content.parents);
    if k < |ps| {
      assert ps[k] in ps && ps[k] !in keys;
      assert IsFirstMissing(keys, ps, k);
    }
  }

  /** The spawning event of a sub-event, if the call gets as far as linking it. */
  function Spawner(n: Node): seq<Id> {
    if n.content.kind == SUB then [n.content.parentId] else []
  }

  /** The events whose child lists the call extends, in order. A call rejected for a missing
      parent has already linked everything in front of it. */
  function Targets(keys: set<Id>, n: Node): (ts: seq<Id>)
    ensures forall t :: t in ts ==> t in keys
    ensures Accepts(keys, n) ==> ts == Spawner(n) + n.content.parents
  {
    if n.id == [] || n.id in keys then []
    else if n.content.kind == SUB && (n.content.parentId == [] || n.content.parentId !in keys) then []
    else
      var k := Present(keys, n.content.parents);
      Spawner(n) + n.content.parents[..k]
  }

  /** `c` becomes the last child, `k` times over. */
  function Extend(n: Node, c: Id, k: nat): Node {
    n.(children := n.children + Repeat(c, k))
  }

  /** Appends `c` to the child list of each target, once per occurrence. */
  function LinkAll(s: Store, targets: seq<Id>, c: Id): Store {
    map x | x in s :: Extend(s[x], c, multiset(targets)[x])
  }

  lemma ExtendTwice(n: Node, c: Id, j: nat, k: nat)
    ensures Extend(Extend(n, c, j), c, k) == Extend(n, c, j + k)
    ensures Extend(n, c, 0) == n
    ensures Extend(n, c, 1) == n.(children := n.children + [c])
  {
    assert Repeat(c, j) + Repeat(c, k) == Repeat(c, j + k);
    assert n.children + Repeat(c, j) + Repeat(c, k) == n.children + Repeat(c, j + k);
    assert n.children + Repeat(c, 0) == n.children;
    assert Repeat(c, 1) == [c];
  }

  function Add(s: Store, n: Node): Store {
    var linked := LinkAll(s, Targets(s.Keys, n), n.id);
    if Accepts(s.Keys, n) then linked[n.id := n] else linked
  }

  /** How often the event names `x`, as the event that spawned it or among these parents. */
  function Named(n: Node, parents: seq<Id>, x: Id): nat {
    (if n.content.kind == SUB && n.content.parentId == x then 1 else 0) + multiset(parents)[x]
  }

  /** Every stored event has the new one appended to its children as often as that, and is otherwise the same. */
  ghost predicate LinkedTo(s: Store, t: Store, n: Node, parents: seq<Id>) {
    s.Keys <= t.Keys
    && forall x :: x in s ==> t[x] == s[x].(children := s[x].children + seq(Named(n, parents, x), _ => n.id))
  }

  /** The call passes the checks in front of the first link. */
  predicate GetsToLinking(s: Store, n: Node) {
    && n.id != [] && n.id !in s
    && (n.content.kind == SUB ==> n.content.parentId != [] && n.content.parentId in s)
  }

  lemma LinkAllLinks(s: Store, n: Node, k: nat)
    requires k <= |n.content.parents|
    ensures LinkedTo(s, LinkAll(s, Spawner(n) + n.content.parents[..k], n.id), n, n.content.parents[..k])
  {
    var ps := n.content.parents[..k];
    forall x | x in s
      ensures Extend(s[x], n.id, multiset(Spawner(n) + ps)[x])
           == s[x].(children := s[x].children + seq(Named(n, ps, x), _ => n.id))
    {
      assert multiset(Spawner(n) + ps)[x] == Named(n, ps, x);
      assert Repeat(n.id, Named(n, ps, x)) == seq(Named(n, ps, x), _ => n.id);
    }
  }

  /** The whole effect of a call. A call that fails in front of the first link changes nothing. One that gets to
      linking is linked from the event that spawned it and from every parent in front of the first missing one; if
      none is missing it is linked from all of them and stored as it was given. */
  lemma AddMeans(s: Store, n: Node)
    ensures !GetsToLinking(s, n) ==> Add(s, n) == s && Verdict(s.Keys, n).Err?
    ensures GetsToLinking(s, n) && (forall p :: p in n.content.parents ==> p in s) ==>
              && Verdict(s.Keys, n) == Ok(()) && Add(s, n).Keys == s.Keys + {n.id} && Add(s, n)[n.id] == n
              && LinkedTo(s, Add(s, n), n, n.content.parents)
    ensures GetsToLinking(s, n) && !(forall p :: p in n.content.parents ==> p in s) ==>
              exists k: nat :: && IsFirstMissing(s.Keys, n.content.parents, k)
                          && Verdict(s.Keys, n) == Err(MissingParent(n.content.parents[k]))
                          && Add(s, n).Keys == s.Keys && LinkedTo(s, Add(s, n), n, n.content.parents[..k])
  {
    if !GetsToLinking(s, n) {
      LinkNothing(s, n.id);
    } else {
      AddOnceLinking(s, n);
      hide Add, Verdict, LinkedTo, LinkAll;
      var ps := n.content.parents;
      var k := Present(s.Keys, ps);
      LinkAllLinks(s, n, k);
      if k < |ps| {
        assert IsFirstMissing(s.Keys, ps, k);
      } else {
        assert ps[..k] == ps;
        StoredStays(s, LinkAll(s, Spawner(n) + ps, n.id), n, ps);
      }
    }
  }

  lemma AddOnceLinking(s: Store, n: Node)
    requires GetsToLinking(s, n)
    ensures var ps := n.content.parents; var k := Present(s.Keys, ps);
            var linked := LinkAll(s, Spawner(n) + ps[..k], n.id);
            && linked.Keys == s.Keys
            && Verdict(s.Keys, n) == (if k < |ps| then Err(MissingParent(ps[k])) else Ok(()))
            && Add(s, n) == if k < |ps| then linked else linked[n.id := n]
  {
  }

  lemma StoredStays(s: Store, linked: Store, n: Node, parents: seq<Id>)
    requires LinkedTo(s, linked, n, parents) && n.id !in s
    ensures LinkedTo(s, linked[n.id := n], n, parents)
  {
  }

  lemma LinkNothing(s: Store, c: Id)
    ensures LinkAll(s, [], c) == s
  {
    forall x | x in s ensures LinkAll(s, [], c)[x] == s[x] {
      ExtendTwice(s[x], c, 0, 0);
    }
  }

  /** `c` becomes the last child of `t`. */
  function Append(s: Store, t: Id, c: Id): Store
    requires t in s
  {
    s[t := s[t].(children := s[t].children + [c])]
  }

  lemma LinkInStages(s: Store, first: seq<Id>, second: seq<Id>, c: Id)
    ensures LinkAll(LinkAll(s, first, c), second, c) == LinkAll(s, first + second, c)
  {
    forall x | x in s
      ensures LinkAll(LinkAll(s, first, c), second, c)[x] == LinkAll(s, first + second, c)[x]
    {
      ExtendTwice(s[x], c, multiset(first)[x], multiset(second)[x]);
    }
  }

  lemma LinkOne(s: Store, t: Id, c: Id)
    requires t in s
    ensures LinkAll(s, [t], c) == Append(s, t, c)
  {
    forall x | x in s ensures LinkAll(s, [t], c)[x] == Append(s, t, c)[x] {
      ExtendTwice(s[x], c, 0, 0);
    }
  }

  lemma LinkOneMore(s: Store, targets: seq<Id>, k: nat, c: Id)
    requires k < |targets| && targets[k] in s
    ensures LinkAll(s, targets[..k + 1], c) == Append(LinkAll(s, targets[..k], c), targets[k], c)
  {
    assert targets[..k + 1] == targets[..k] + [targets[k]];
    LinkInStages(s, targets[..k], [targets[k]], c);
    LinkOne(LinkAll(s, targets[..k], c), targets[k], c);
  }

  // ----- queries -----

  /** The nodes named by `ids`, or the first name that is not stored. */
  function Collect(s: Store, ids: seq<Id>, missing: Id -> Error): Result<seq<Node>> {
    var k := Present(s.Keys, ids);
    if k < |ids| then Err(missing(ids[k])) else Ok(Nodes(s, ids))
  }

  function Nodes(s: Store, ids: seq<Id>): (r: seq<Node>)
    requires forall i :: 0 <= i < |ids| ==> ids[i] in s
    ensures |r| == |ids| && forall i :: 0 <= i < |ids| ==> r[i] == s[ids[i]]
  {
    seq(|ids|, i requires 0 <= i < |ids| => s[ids[i]])
  }

  function ParentsOf(s: Store, id: Id): Result<seq<Node>> {
    if id == [] then Err(EmptyId)
    else if id !in s then Err(NotFound(id))
    else Collect(s, s[id].content.parents, p => MissingParent(p))
  }

  function ChildrenOf(s: Store, id: Id): Result<seq<Node>> {
    if id == [] then Err(EmptyId)
    else if id !in s then Err(NotFound(id))
    else Collect(s, s[id].children, c => NotFound(c))
  }

  /** What the two queries answer: an error for the empty and for an unknown identifier; the events named, in order,
      when all are stored; and otherwise an error for the first that is not. */
  lemma QueriesMean(s: Store, id: Id)
    ensures id == [] ==> ParentsOf(s, id) == Err(EmptyId) && ChildrenOf(s, id) == Err(EmptyId)
    ensures id != [] && id !in s ==> ParentsOf(s, id) == Err(NotFound(id)) && ChildrenOf(s, id) == Err(NotFound(id))
    ensures id != [] && id in s ==>
              && Answers(s, s[id].content.parents, ParentsOf(s, id), true)
              && Answers(s, s[id].children, ChildrenOf(s, id), false)
  {
  }

  ghost predicate Answers(s: Store, ids: seq<Id>, r: Result<seq<Node>>, parents: bool) {
    && (r.Ok? <==> forall x :: x in ids ==> x in s)
    && (r.Ok? ==> |r.value| == |ids| && forall i :: 0 <= i < |ids| ==> ids[i] in s && r.value[i] == s[ids[i]])
    && (r.Err? ==> exists k: nat :: IsFirstMissing(s.Keys, ids, k)
                     && r.error == if parents then MissingParent(ids[k]) else NotFound(ids[k]))
  }

  // ----- edges -----

  /** `a` names `b` among its parents. */
  predicate ParentEdge(s: Store, a: Id, b: Id) {
    a in s && b in s[a].content.parents
  }

  /** `a` refers back to `b`, as one of its parents or as the event that spawned it. */
  predicate Refers(s: Store, a: Id, b: Id) {
    ParentEdge(s, a, b) || (a in s && s[a].content.kind == SUB && s[a].content.parentId == b)
  }
}
