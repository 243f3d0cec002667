/** The two backends side by side: fed the same calls, or loaded from each other's snapshots, they
    stand for the same store. */
module Lockstep {
  import opened Wire
  import opened Events
  import opened Snapshot
  import opened IpfsDag
  import opened SubEventWalk
  import opened History

  /** The index shows exactly the memory backend's store, child order included. */
  ghost predicate Lockstep(mem: Store, index: Index) {
    && mem == Merged(index)
    && KeyedById(mem) && [] !in mem
    && index.children.Keys <= index.events.Keys
    && forall id :: id in index.events && id !in index.children ==> index.events[id].children == []
  }

  lemma AddMerges(mem: Store, index: Index, n: Node, id: Id)
    requires Lockstep(mem, index) && n.children == [] && id in Add(mem, n)
    ensures id in Merged(AddToIndex(index, n, true)) && Merged(AddToIndex(index, n, true))[id] == Add(mem, n)[id]
  {
    hide Verdict, Targets, LinkIndex;
    AddKeepsKeys(mem, n);
    var targets := Targets(mem.Keys, n);
    assert mem.Keys == index.events.Keys;
    LinkedChildIds(index.children, targets, n.id, id);
    if id !in mem {
      assert id !in targets;
      assert ChildIds(index.children, id) + Repeat(n.id, 0) == [];
    }
  }

  lemma MergesTo(mem: Store, index: Index)
    requires mem.Keys == index.events.Keys
    requires forall id :: id in mem ==> id in Merged(index) && Merged(index)[id] == mem[id]
    ensures mem == Merged(index)
  {
  }

  lemma AddKeepsIndexed(index: Index, n: Node)
    requires index.children.Keys <= index.events.Keys && n.children == []
    requires forall id :: id in index.events && id !in index.children ==> index.events[id].children == []
    ensures var i := AddToIndex(index, n, true); i.children.Keys <= i.events.Keys
    ensures var i := AddToIndex(index, n, true);
            forall id :: id in i.events && id !in i.children ==> i.events[id].children == []
  {
  }

  lemma AddToIndexKeys(mem: Store, index: Index, n: Node)
    requires mem.Keys == index.events.Keys
    ensures AddToIndex(index, n, true).events.Keys == Add(mem, n).Keys
  {
    AddKeepsKeys(mem, n);
    hide Add, Verdict, LinkIndex;
  }

  /** One call on both backends: same verdict, and they stay in lockstep, residue included. */
  lemma AddKeepsLockstep(mem: Store, index: Index, n: Node)
    requires Lockstep(mem, index) && n.children == []
    ensures Verdict(index.events.Keys, n) == Verdict(mem.Keys, n)
    ensures Lockstep(Add(mem, n), AddToIndex(index, n, true))
  {
    assert mem.Keys == index.events.Keys;
    hide Add, AddToIndex, Verdict, Merged;
    var mem', index' := Add(mem, n), AddToIndex(index, n, true);
    AddKeepsKeys(mem, n);
    AddToIndexKeys(mem, index, n);
    forall id | id in mem' ensures id in Merged(index') && Merged(index')[id] == mem'[id] {
      AddMerges(mem, index, n, id);
    }
    MergesTo(mem', index');
    AddKeepsIndexed(index, n);
  }

  function ReplayIndex(calls: Calls): Index {
    if calls == [] then Index(map[], map[]) else AddToIndex(ReplayIndex(Earlier(calls)), Latest(calls), true)
  }

  lemma {:induction false} ReplayKeepsLockstep(calls: Calls)
    requires Childless(calls)
    ensures Lockstep(Replay(calls), ReplayIndex(calls))
  {
    if calls != [] {
      ReplayKeepsLockstep(Earlier(calls));
      AddKeepsLockstep(Replay(Earlier(calls)), ReplayIndex(Earlier(calls)), Latest(calls));
    }
  }

  predicate SameAnswer<T(==)>(a: Result<T>, b: Result<T>) {
    (a.Ok? <==> b.Ok?) && (a.Ok? ==> a == b)
  }

  /** The remote store has nothing to add: each of these is indexed here or found nowhere. */
  predicate NothingToFetch(index: Index, remote: Remote, ids: seq<Id>) {
    forall x :: x in ids ==> x in index.events || remote(x).None?
  }

  lemma {:induction false} NothingFetched(index: Index, remote: Remote, ids: seq<Id>)
    requires NothingToFetch(index, remote, ids)
    ensures FetchEach(index, remote, ids) == index
  {
    if ids != [] {
      assert ids[0] in ids;
      NothingFetched(index, remote, ids[1..]);
    }
  }

  /** For stored events the backends answer alike, and a query leaves the IPFS backend alone; only the wrapped
      error of a missing parent differs. */
  lemma QueriesAgree(mem: Store, index: Index, remote: Remote, id: Id)
    requires Lockstep(mem, index) && id in mem
    ensures NothingToFetch(index, remote, mem[id].content.parents) ==>
              var (after, parents) := ParentsIn(index, remote, id);
              after == index && SameAnswer(ParentsOf(mem, id), parents)
    ensures NothingToFetch(index, remote, mem[id].children) ==>
              ChildrenIn(index, remote, id) == (index, ChildrenOf(mem, id))
    ensures SubEventsOf(mem, id) == SubEventsOf(Merged(index), id)
  {
    assert Readable(index) == mem;
    assert mem[id].children == ChildIds(index.children, id);
    if NothingToFetch(index, remote, mem[id].content.parents) {
      NothingFetched(index, remote, mem[id].content.parents);
    }
    if NothingToFetch(index, remote, mem[id].children) {
      NothingFetched(index, remote, mem[id].children);
    }
  }

  /** Children agree exactly for stored events and the empty identifier: of any other event the memory backend
      reports that it is unknown, and the IPFS backend lists nothing. */
  lemma ChildrenAgreeExactly(mem: Store, index: Index, remote: Remote, id: Id)
    requires Lockstep(mem, index) && NothingToFetch(index, remote, ChildIds(index.children, id))
    ensures ChildrenOf(mem, id) == ChildrenIn(index, remote, id).1 <==> id in mem || id == []
    ensures id !in mem && id != [] ==>
              ChildrenOf(mem, id) == Err(NotFound(id)) && ChildrenIn(index, remote, id) == (index, Ok([]))
  {
    if id in mem {
      assert mem[id].children == ChildIds(index.children, id);
      QueriesAgree(mem, index, remote, id);
    } else if id != [] {
      assert Nodes(Readable(index), []) == [];
    }
  }

  // ----- snapshots -----

  lemma MergedIsWithChildren(index: Index)
    requires forall id :: id in index.events && id !in index.children ==> index.events[id].children == []
    ensures Merged(index) == WithChildren(index.events, index.children)
  {
    forall id | id in index.events
      ensures Merged(index)[id] == WithChildren(index.events, index.children)[id]
    {
      if id !in index.children {
        assert index.events[id].(children := []) == index.events[id];
      }
    }
  }

  lemma OwnChildrenRestored(mem: Store)
    ensures WithChildren(mem, ChildIndexOf(mem)) == mem
  {
  }

  /** What a fresh backend holds after importing what another one exported. */
  function FromMemory(mem: Store): Result<(Store, ChildIndex)> {
    ImportDAG(ExportDAG(mem, ChildIndexOf(mem)))
  }

  function FromIpfs(index: Index): Result<(Store, ChildIndex)> {
    ImportDAG(ExportDAG(index.events, index.children))
  }

  /** All four transfers succeed and keep the lockstep relation with the source and with its partner. */
  lemma TransferKeepsLockstep(mem: Store, index: Index)
    requires Lockstep(mem, index)
    ensures FromMemory(mem).Ok? && FromIpfs(index).Ok?
    ensures var (events, children) := FromMemory(mem).value;
            WithChildren(events, children) == mem && Lockstep(mem, Index(events, children))
    ensures var (events, children) := FromIpfs(index).value;
            WithChildren(events, children) == mem && Index(events, children) == index
  {
    ExportThenImport(mem, ChildIndexOf(mem));
    ExportThenImport(index.events, index.children);
    OwnChildrenRestored(mem);
    MergedIsWithChildren(index);
    var copy := Index(mem, ChildIndexOf(mem));
    MergedIsWithChildren(copy);
  }

  // ----- whole runs -----

  datatype Op =
    | AddOp(event: Node)
    | SwapOp        // each backend is replaced by one loaded from the other's snapshot
    | ReloadOp      // each backend is reloaded from its own snapshot

  datatype Pair = Pair(mem: Store, index: Index)

  function Apply(p: Pair, op: Op): Pair {
    match op
    case AddOp(n) => Pair(Add(p.mem, n), AddToIndex(p.index, n, true))
    case SwapOp =>
      var (me, mc) := FromMemory(p.mem).value;
      var (ie, ic) := FromIpfs(p.index).value;
      Pair(WithChildren(ie, ic), Index(me, mc))
    case ReloadOp =>
      var (me, mc) := FromMemory(p.mem).value;
      var (ie, ic) := FromIpfs(p.index).value;
      Pair(WithChildren(me, mc), Index(ie, ic))
  }

  function Run(p: Pair, ops: seq<Op>): Pair
    decreases |ops|
  {
    if ops == [] then p else Run(Apply(p, ops[0]), ops[1..])
  }

  function Added(op: Op): Calls {
    if op.AddOp? then [op.event] else []
  }

  /** The events added along a run, whatever transfers happen between them. */
  function AddedIn(ops: seq<Op>): Calls {
    if ops == [] then [] else Added(ops[0]) + AddedIn(ops[1..])
  }

  lemma ApplyKeepsLockstep(p: Pair, calls: Calls, op: Op)
    requires Lockstep(p.mem, p.index) && p.mem == Replay(calls) && Childless(Added(op))
    ensures var q := Apply(p, op); Lockstep(q.mem, q.index) && q.mem == Replay(calls + Added(op))
  {
    match op
    case AddOp(n) =>
      assert n in Added(op);
      AddKeepsLockstep(p.mem, p.index, n);
      ReplayExtends(calls, n);
    case SwapOp =>
      TransferKeepsLockstep(p.mem, p.index);
      assert calls + [] == calls;
    case ReloadOp =>
      TransferKeepsLockstep(p.mem, p.index);
      assert calls + [] == calls;
  }

  /** Any interleaving of calls and transfers leaves both backends in lockstep at the store that the
      calls alone would have built. */
  lemma {:induction false} RunsKeepLockstep(p: Pair, calls: Calls, ops: seq<Op>)
    requires Lockstep(p.mem, p.index) && p.mem == Replay(calls)
    requires Childless(AddedIn(ops))
    ensures var q := Run(p, ops); Lockstep(q.mem, q.index) && q.mem == Replay(calls + AddedIn(ops))
    decreases |ops|
  {
    if ops == [] {
      assert calls + [] == calls;
    } else {
      var first, rest := Added(ops[0]), AddedIn(ops[1..]);
      assert AddedIn(ops) == first + rest;
      assert calls + first + rest == calls + AddedIn(ops);
      ApplyKeepsLockstep(p, calls, ops[0]);
      RunsKeepLockstep(Apply(p, ops[0]), calls + first, ops[1..]);
    }
  }
}
