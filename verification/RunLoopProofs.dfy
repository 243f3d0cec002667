/** Every stretch of the run loop keeps the loop's invariant, for every queue content, every random
    draw and every beacon answer. */
module RunLoopProofs {
  import opened Wire
  import opened Encoding
  import opened Events
  import opened Snapshot
  import opened SubEventWalk
  import opened History
  import opened RunLoop

  // ----- the anchoring schedule -----

  lemma ModNext(n: nat, k: nat)
    requires k > 0
    ensures (n + 1) % k == if n % k == k - 1 then 0 else n % k + 1
  {
    var q, r := n / k, n % k;
    assert n == q * k + r;
    if r == k - 1 {
      assert n + 1 == (q + 1) * k by { assert (q + 1) * k == q * k + k; }
      ModUnique(n + 1, k, q + 1, 0);
    } else {
      ModUnique(n + 1, k, q, r + 1);
    }
  }

  lemma LessByAFactor(a: nat, b: nat, k: nat)
    requires a < b
    ensures a * k + k <= b * k
  {
    assert b * k == a * k + (b - a) * k;
    assert (b - a) * k == (b - a - 1) * k + k;
  }

  lemma Quotient(q: nat, r: nat, q': nat, r': nat, k: nat)
    requires q * k + r == q' * k + r' && r < k && r' < k
    ensures q == q' && r == r'
  {
    if q < q' {
      LessByAFactor(q, q', k);
    } else if q' < q {
      LessByAFactor(q', q, k);
    }
  }

  lemma ModUnique(n: nat, k: nat, q: nat, r: nat)
    requires k > 0 && n == q * k + r && r < k
    ensures n % k == r
  {
    var q', r' := n / k, n % k;
    assert n == q' * k + r';
    Quotient(q, r, q', r', k);
  }

  lemma AppendedCount(mains: seq<MainRecord>, r: MainRecord)
    ensures AnchorCount(mains + [r]) == AnchorCount(mains) + if r.round.Some? then 1 else 0
  {
    assert (mains + [r])[..|mains|] == mains;
  }

  lemma OnScheduleNext(interval: nat, mains: seq<MainRecord>, r: MainRecord)
    requires interval > 0
    ensures OnSchedule(interval, mains + [r])
       <==> OnSchedule(interval, mains) && (r.round.Some? <==> ClosesInterval(interval, |mains|))
  {
    var mains' := mains + [r];
    if OnSchedule(interval, mains') {
      forall i | 0 <= i < |mains| ensures mains[i].round.Some? <==> ClosesInterval(interval, i) {
        assert mains'[i] == mains[i];
      }
      assert mains'[|mains|] == r;
    }
  }

  lemma SpacedAnchored(interval: nat, mains: seq<MainRecord>, eventCount: nat, r: MainRecord)
    requires Spaced(interval, mains, eventCount) && eventCount + 1 >= interval && r.round.Some?
    ensures Spaced(interval, mains + [r], 0)
  {
  }

  lemma SpacedSkipped(interval: nat, mains: seq<MainRecord>, eventCount: nat, r: MainRecord)
    requires Spaced(interval, mains, eventCount) && r.round.None?
    ensures Spaced(interval, mains + [r], eventCount + 1)
  {
  }

  lemma OneMoreInterval(count: nat, interval: nat)
    ensures (count + 1) * interval == count * interval + interval
  {
  }

  lemma ScheduleAnchored(interval: nat, mains: seq<MainRecord>, eventCount: nat, failed: nat, r: MainRecord)
    requires interval > 0 && ScheduleOk(interval, mains, eventCount, failed)
    requires eventCount + 1 >= interval && r.round.Some?
    ensures ScheduleOk(interval, mains + [r], 0, failed)
  {
    AppendedCount(mains, r);
    OneMoreInterval(AnchorCount(mains), interval);
    SpacedAnchored(interval, mains, eventCount, r);
    ModNext(|mains|, interval);
    OnScheduleNext(interval, mains, r);
  }

  lemma ScheduleSkipped(interval: nat, mains: seq<MainRecord>, eventCount: nat, failed: nat, r: MainRecord)
    requires interval > 0 && ScheduleOk(interval, mains, eventCount, failed)
    requires eventCount + 1 < interval && r.round.None?
    ensures ScheduleOk(interval, mains + [r], eventCount + 1, failed)
  {
    AppendedCount(mains, r);
    SpacedSkipped(interval, mains, eventCount, r);
    ModNext(|mains|, interval);
    OnScheduleNext(interval, mains, r);
  }

  lemma ScheduleFailed(interval: nat, mains: seq<MainRecord>, eventCount: nat, failed: nat, r: MainRecord)
    requires interval > 0 && ScheduleOk(interval, mains, eventCount, failed)
    requires eventCount + 1 >= interval && r.round.None?
    ensures ScheduleOk(interval, mains + [r], eventCount + 1, failed + 1)
  {
    AppendedCount(mains, r);
    SpacedSkipped(interval, mains, eventCount, r);
    ModNext(|mains|, interval);
    OnScheduleNext(interval, mains, r);
  }

  // ----- how the store changes -----

  /** Nothing an identifier, a content or an anchor could tell has changed. */
  predicate Unchanged(a: Node, b: Node) {
    a.id == b.id && a.content == b.content && a.beacon == b.beacon
  }

  ghost predicate SameEvents(s: Store, s': Store) {
    s'.Keys == s.Keys && forall id :: id in s ==> Unchanged(s[id], s'[id])
  }

  ghost predicate Grown(s: Store, s': Store, n: Node) {
    && n.id !in s && s'.Keys == s.Keys + {n.id} && s'[n.id] == n
    && forall id :: id in s ==> Unchanged(s[id], s'[id])
  }

  lemma AddChangesOnlyChildren(s: Store, n: Node)
    ensures if Accepts(s.Keys, n) then Grown(s, Add(s, n), n) else SameEvents(s, Add(s, n))
  {
    AddKeepsKeys(s, n);
    forall id | id in s ensures Unchanged(s[id], Add(s, n)[id]) {
      AddKeepsContent(s, n, id);
    }
  }

  // ----- inserting -----

  lemma RoundsKept(s: Store, s': Store, log: seq<Id>, lastRound: nat)
    requires RoundsRise(s, log, lastRound)
    requires s.Keys <= s'.Keys && forall id :: id in s ==> Unchanged(s[id], s'[id])
    ensures RoundsRise(s', log, lastRound)
  {
    forall i | 0 <= i < |log| ensures RoundOf(s', log[i]) == RoundOf(s, log[i]) {
    }
  }

  lemma RoundsGrow(s: Store, log: seq<Id>, lastRound: nat, id: Id)
    requires RoundsRise(s, log, lastRound) && id in s && RoundOf(s, id) == None
    ensures RoundsRise(s, log + [id], lastRound)
  {
  }

  lemma UnanchoredGrows(s: Store, log: seq<Id>, main: Id, id: Id)
    requires UnanchoredFrom(s, log, main) && id in s && RoundOf(s, id) == None
    ensures UnanchoredFrom(s, log + [id], main)
  {
    var m :| 0 <= m < |log| && log[m] == main
             && forall j :: m <= j < |log| ==> log[j] in s && RoundOf(s, log[j]) == None;
    assert (log + [id])[m] == main;
  }

  lemma UnanchoredKept(s: Store, s': Store, log: seq<Id>, main: Id)
    requires UnanchoredFrom(s, log, main)
    requires s.Keys <= s'.Keys && forall id :: id in s ==> Unchanged(s[id], s'[id])
    ensures UnanchoredFrom(s', log, main)
  {
    var m :| 0 <= m < |log| && log[m] == main
             && forall j :: m <= j < |log| ==> log[j] in s && RoundOf(s, log[j]) == None;
    forall j | m <= j < |log| ensures log[j] in s' && RoundOf(s', log[j]) == None {
    }
  }

  lemma UnanchoredStarts(s: Store, log: seq<Id>, id: Id)
    requires id in s && RoundOf(s, id) == None
    ensures UnanchoredFrom(s, log + [id], id)
  {
    assert (log + [id])[|log|] == id;
  }

  lemma StoreGrows(h: Hash, l: Loop, l': Loop, n: Node)
    requires StoreOk(h, l) && ContentOk(h, n) && Accepts(l.store.Keys, n)
    requires l'.store == Add(l.store, n) && l'.inserted == l.inserted + [n.id]
    ensures StoreOk(h, l')
  {
    AddKeepsOrder(l.store, n, l.inserted);
    ContentsKept(h, l.store, n);
  }

  lemma StoreStays(h: Hash, l: Loop, l': Loop, n: Node)
    requires StoreOk(h, l) && ContentOk(h, n) && !Accepts(l.store.Keys, n)
    requires l'.store == Add(l.store, n) && l'.inserted == l.inserted
    ensures StoreOk(h, l')
  {
    AddKeepsOrder(l.store, n, l.inserted);
    ContentsKept(h, l.store, n);
  }

  lemma ContentsKept(h: Hash, s: Store, n: Node)
    requires ContentOk(h, n) && forall id :: id in s ==> ContentOk(h, s[id])
    ensures forall id :: id in Add(s, n) ==> ContentOk(h, Add(s, n)[id])
  {
    AddChangesOnlyChildren(s, n);
    forall id | id in Add(s, n) ensures ContentOk(h, Add(s, n)[id]) {
      if id in s {
        assert ContentOk(h, s[id]) && Unchanged(s[id], Add(s, n)[id]);
      }
    }
  }

  lemma AnchorsGrow(l: Loop, l': Loop, n: Node)
    requires AnchorsOk(l) && Grown(l.store, l'.store, n) && n.beacon == None
    requires l'.inserted == l.inserted + [n.id] && l'.lastRound == l.lastRound
    requires MainOf(l'.pc) == Some(n.id) || MainOf(l'.pc) == MainOf(l.pc)
    ensures AnchorsOk(l')
  {
    RoundsKept(l.store, l'.store, l.inserted, l.lastRound);
    RoundsGrow(l'.store, l.inserted, l.lastRound, n.id);
    if MainOf(l'.pc) == Some(n.id) {
      UnanchoredStarts(l'.store, l.inserted, n.id);
    } else if MainOf(l.pc).Some? {
      UnanchoredKept(l.store, l'.store, l.inserted, MainOf(l.pc).value);
      UnanchoredGrows(l'.store, l.inserted, MainOf(l.pc).value, n.id);
    }
  }

  lemma AnchorsStay(l: Loop, l': Loop)
    requires AnchorsOk(l) && SameEvents(l.store, l'.store)
    requires l'.inserted == l.inserted && l'.lastRound == l.lastRound && MainOf(l'.pc) == MainOf(l.pc)
    ensures AnchorsOk(l')
  {
    RoundsKept(l.store, l'.store, l.inserted, l.lastRound);
    if MainOf(l.pc).Some? {
      UnanchoredKept(l.store, l'.store, l.inserted, MainOf(l.pc).value);
    }
  }

  lemma MainsKept(s: Store, s': Store, l: Loop, l': Loop)
    requires MainsOk(l) && l.store == s && l'.store == s'
    requires SameEvents(s, s')
          || exists n :: Grown(s, s', n) && (n.content.kind == MAIN ==> MainOf(l'.pc) == Some(n.id))
    requires l'.mains == l.mains
    requires MainOf(l'.pc) == MainOf(l.pc)
          || (MainOf(l.pc) == None && MainOf(l'.pc).Some?
              && MainOf(l'.pc).value !in s && IsMain(s', MainOf(l'.pc).value))
    ensures MainsOk(l')
  {
    forall id | id in s ensures Unchanged(s[id], s'[id]) {
    }
    forall i | 0 <= i < |l'.mains| ensures RecordsMain(s', l'.mains[i]) && Some(l'.mains[i].id) != MainOf(l'.pc) {
      assert RecordsMain(s, l.mains[i]);
    }
    forall id | IsMain(s', id) && Some(id) != MainOf(l'.pc)
      ensures exists i :: 0 <= i < |l'.mains| && l'.mains[i].id == id
    {
      assert IsMain(s, id);
    }
  }

  lemma SubsGrow(s: Store, s': Store, main: Id, k: nat, n: Node)
    requires SubsBelow(s, main, k) && k < MAX_SUB_EVENTS
    requires Grown(s, s', n) && n.content.data == SubData(k)
    ensures SubsBelow(s', main, k + 1)
  {
    forall id | id in s' && Spawned(s', main, id)
      ensures exists j :: 0 <= j < k + 1 && j < MAX_SUB_EVENTS && s'[id].content.data == SubData(j)
    {
      if id == n.id {
        assert s'[id].content.data == SubData(k);
      } else {
        assert Unchanged(s[id], s'[id]) && Spawned(s, main, id);
        var j :| 0 <= j < k && j < MAX_SUB_EVENTS && s[id].content.data == SubData(j);
        assert s'[id].content.data == SubData(j);
      }
    }
  }

  lemma NotYetReferred(s: Store, order: seq<Id>, id: Id, d: Id)
    requires InOrder(s, order) && id in s && d !in s
    ensures !Refers(s, id, d)
  {
    var i :| 0 <= i < |order| && order[i] == id;
    assert d !in order[..i];
  }

  /** Nothing can have been spawned by an event that was not stored. */
  lemma NoSubsYet(s: Store, s': Store, order: seq<Id>, n: Node)
    requires InOrder(s, order) && Grown(s, s', n) && n.content.kind == MAIN
    ensures SubsBelow(s', n.id, 0)
  {
    forall id | id in s' ensures !Spawned(s', n.id, id) {
      if id in s {
        NotYetReferred(s, order, id, n.id);
        assert Unchanged(s[id], s'[id]);
      }
    }
  }

  lemma TakeGrown(h: Hash, interval: nat, l: Loop, l': Loop, n: Node)
    requires interval > 0 && LoopOk(h, interval, l) && l.pc.Idle?
    requires Grown(l.store, l'.store, n) && n.content.kind == MAIN && n.beacon == None
    requires StoreOk(h, l')
    requires l' == l.(store := l'.store, calls := l'.calls, pc := Telling(MainItem(n.id)),
                      inserted := l.inserted + [n.id], verdicts := l'.verdicts)
    ensures LoopOk(h, interval, l')
  {
    hide InOrder, AnchorsOk, MainsOk, ScheduleOk, ContentOk;
    assert AnchorsOk(l') by { AnchorsGrow(l, l', n); }
    assert MainsOk(l') by { MainsKept(l.store, l'.store, l, l'); }
    assert PcOk(l') by { NoSubsYet(l.store, l'.store, l.inserted, n); }
    assert RecordedLog(l') == l.inserted;
  }

  lemma TakeAccepted(h: Hash, interval: nat, l: Loop, c: Content)
    requires interval > 0 && CollisionFree(h) && LoopOk(h, interval, l) && l.pc.Idle?
    requires c.kind == MAIN && Occurs(h, c) && Accepts(l.store.Keys, NewNode(h, c))
    ensures LoopOk(h, interval, TakeMain(h, l, c))
  {
    var n := NewNode(h, c);
    var l' := TakeMain(h, l, c);
    AddChangesOnlyChildren(l.store, n);
    StoreGrows(h, l, l', n);
    TakeGrown(h, interval, l, l', n);
  }

  lemma TakeRejected(h: Hash, interval: nat, l: Loop, c: Content)
    requires interval > 0 && CollisionFree(h) && LoopOk(h, interval, l) && l.pc.Idle?
    requires c.kind == MAIN && Occurs(h, c) && !Accepts(l.store.Keys, NewNode(h, c))
    ensures LoopOk(h, interval, TakeMain(h, l, c))
  {
    hide InOrder, Targets, LinkAll;
    var n := NewNode(h, c);
    var l' := TakeMain(h, l, c);
    assert SameEvents(l.store, l'.store) by { AddChangesOnlyChildren(l.store, n); }
    assert StoreOk(h, l') by { StoreStays(h, l, l', n); }
    assert AnchorsOk(l') by { AnchorsStay(l, l'); }
    assert MainsOk(l') by { MainsKept(l.store, l'.store, l, l'); }
  }

  lemma TakeMainKeeps(h: Hash, interval: nat, l: Loop, c: Content)
    requires interval > 0 && CollisionFree(h) && LoopOk(h, interval, l) && l.pc.Idle?
    requires c.kind == MAIN && Occurs(h, c)
    ensures LoopOk(h, interval, TakeMain(h, l, c))
  {
    if Accepts(l.store.Keys, NewNode(h, c)) {
      TakeAccepted(h, interval, l, c);
    } else {
      TakeRejected(h, interval, l, c);
    }
  }

  // ----- spawning -----

  lemma RecentAreStored(h: Hash, l: Loop, p: Id)
    requires StoreOk(h, l) && RecentOk(l) && p in l.recent
    ensures p in l.store
  {
    assert p in l.inserted;
  }

  lemma SubDataDiffers(i: nat, j: nat)
    requires i < j < MAX_SUB_EVENTS
    ensures SubData(i) != SubData(j)
  {
    assert SubData(i)[10] != SubData(j)[10];
  }

  /** No earlier sub-event of `main` carries the next payload. */
  lemma NextPayloadIsNew(s: Store, main: Id, next: nat, id: Id)
    requires next < MAX_SUB_EVENTS && SubsBelow(s, main, next) && Spawned(s, main, id)
    ensures s[id].content.data != SubData(next)
  {
    var j :| 0 <= j < next && j < MAX_SUB_EVENTS && s[id].content.data == SubData(j);
    SubDataDiffers(j, next);
  }

  lemma NotThisSub(h: Hash, s: Store, main: Id, next: nat, parents: seq<Id>, id: Id)
    requires CollisionFree(h) && id in s && ContentOk(h, s[id])
    requires next < MAX_SUB_EVENTS && SubsBelow(s, main, next)
    requires Occurs(h, SubContent(main, next, parents))
    ensures s[id].id != ComputeCID(h, SubContent(main, next, parents))
  {
    var a, c := s[id].content, SubContent(main, next, parents);
    SameIdSameContent(h, a, c);
    if Spawned(s, main, id) {
      NextPayloadIsNew(s, main, next, id);
    }
    assert !SameContent(a, c);
  }

  /** A sub-event about to be inserted differs from every stored event: from main events in type, from
      other parents' sub-events in the parent, from its own parent's earlier ones in the payload. */
  lemma SubEventIsNew(h: Hash, s: Store, main: Id, next: nat, parents: seq<Id>)
    requires CollisionFree(h) && forall id :: id in s ==> ContentOk(h, s[id])
    requires KeyedById(s)
    requires next < MAX_SUB_EVENTS && SubsBelow(s, main, next)
    requires Occurs(h, SubContent(main, next, parents))
    ensures ComputeCID(h, SubContent(main, next, parents)) !in s
  {
    hide CollisionFree, Occurs, ContentOk, SubsBelow, ComputeCID, SubContent;
    forall id | id in s ensures id != ComputeCID(h, SubContent(main, next, parents)) {
      NotThisSub(h, s, main, next, parents, id);
    }
  }

  lemma IdentifierIsNonEmpty(h: Hash, c: Content)
    requires CollisionFree(h) && Occurs(h, c)
    ensures ComputeCID(h, c) != []
  {
    assert |h.f(Encode(c))| == CID_LENGTH;
  }

  lemma AcceptedIf(keys: set<Id>, n: Node)
    requires n.id != [] && n.id !in keys && [] !in keys
    requires n.content.kind == SUB ==> n.content.parentId in keys
    requires forall p :: p in n.content.parents ==> p in keys
    ensures Accepts(keys, n)
  {
  }

  /** Every sub-event the pool creates is accepted by the DAG. */
  lemma SubEventAccepted(h: Hash, interval: nat, l: Loop, parents: seq<Id>)
    requires interval > 0 && CollisionFree(h) && LoopOk(h, interval, l) && CanSpawn(l)
    requires forall p :: p in parents ==> p in l.recent
    requires Occurs(h, SubContent(l.pc.main, l.pc.next, parents))
    ensures Accepts(l.store.Keys, NewNode(h, SubContent(l.pc.main, l.pc.next, parents)))
  {
    var c := SubContent(l.pc.main, l.pc.next, parents);
    assert ComputeCID(h, c) !in l.store by { SubEventIsNew(h, l.store, l.pc.main, l.pc.next, parents); }
    assert ComputeCID(h, c) != [] by { IdentifierIsNonEmpty(h, c); }
    forall p | p in parents ensures p in l.store {
      RecentAreStored(h, l, p);
    }
    assert IsMain(l.store, l.pc.main);
    AcceptedIf(l.store.Keys, NewNode(h, c));
  }

  lemma SpawnGrown(h: Hash, interval: nat, l: Loop, l': Loop, n: Node)
    requires interval > 0 && LoopOk(h, interval, l) && CanSpawn(l)
    requires Grown(l.store, l'.store, n) && n.content.kind == SUB && n.beacon == None
    requires n.content.data == SubData(l.pc.next) && StoreOk(h, l')
    requires l' == l.(store := l'.store, calls := l'.calls,
                      pc := Telling(SubItem(l.pc.main, n.id, l.pc.next, l.pc.count)),
                      inserted := l.inserted + [n.id])
    ensures LoopOk(h, interval, l')
  {
    hide StoreOk, AnchorsOk, ScheduleOk;
    assert AnchorsOk(l') by { AnchorsGrow(l, l', n); }
    assert MainsOk(l') by { MainsKept(l.store, l'.store, l, l'); }
    assert PcOk(l') by { SubsGrow(l.store, l'.store, l.pc.main, l.pc.next, n); }
    assert RecordedLog(l') == l.inserted;
  }

  lemma SpawnSubKeeps(h: Hash, interval: nat, l: Loop, parents: seq<Id>)
    requires interval > 0 && CollisionFree(h) && LoopOk(h, interval, l) && CanSpawn(l)
    requires forall p :: p in parents ==> p in l.recent
    requires Occurs(h, SubContent(l.pc.main, l.pc.next, parents))
    ensures LoopOk(h, interval, SpawnSub(h, l, parents))
  {
    var n := NewNode(h, SubContent(l.pc.main, l.pc.next, parents));
    var l' := SpawnSub(h, l, parents);
    SubEventAccepted(h, interval, l, parents);
    AddChangesOnlyChildren(l.store, n);
    StoreGrows(h, l, l', n);
    SpawnGrown(h, interval, l, l', n);
  }

  // ----- the recent window -----

  lemma ToldKeeps(h: Hash, interval: nat, l: Loop)
    requires interval > 0 && LoopOk(h, interval, l)
    ensures LoopOk(h, interval, Told(l))
  {
    hide StoreOk, AnchorsOk, MainsOk, ScheduleOk;
    if l.pc.Telling? {
      SameEventsSameOk(h, l, Told(l));
    }
  }

  lemma WindowIsLast(log: seq<Id>, id: Id)
    ensures Window(LastOf(log, MAX_RECENT), id) == LastOf(log + [id], MAX_RECENT)
  {
  }

  lemma SameEventsSameOk(h: Hash, l: Loop, l': Loop)
    requires l'.store == l.store && l'.inserted == l.inserted && l'.lastRound == l.lastRound
    requires l'.mains == l.mains && MainOf(l'.pc) == MainOf(l.pc)
    ensures StoreOk(h, l) ==> StoreOk(h, l')
    ensures AnchorsOk(l) ==> AnchorsOk(l')
    ensures MainsOk(l) ==> MainsOk(l')
  {
  }

  lemma RecordedKeeps(h: Hash, interval: nat, l: Loop, count: nat)
    requires interval > 0 && LoopOk(h, interval, l) && l.pc.Recording? && count <= MAX_SUB_EVENTS
    ensures LoopOk(h, interval, Recorded(l, count))
  {
    hide StoreOk, AnchorsOk, MainsOk, ScheduleOk;
    var l' := Recorded(l, count);
    SameEventsSameOk(h, l, l');
    assert RecentOk(l') by { RecentRecorded(l, count); }
    assert PcOk(l');
  }

  lemma RecentRecorded(l: Loop, count: nat)
    requires RecentOk(l) && l.pc.Recording? && ItemOk(l, l.pc.item)
    ensures RecentOk(Recorded(l, count))
  {
    WindowIsLast(RecordedLog(l), l.pc.item.id);
    assert RecordedLog(l) + [l.pc.item.id] == l.inserted;
  }

  // ----- anchoring -----

  lemma BeaconKeepsContents(h: Hash, s: Store, main: Id, a: Anchor)
    requires main in s && forall id :: id in s ==> ContentOk(h, s[id])
    ensures forall id :: id in WithBeacon(s, main, a) ==> ContentOk(h, WithBeacon(s, main, a)[id])
  {
    hide Occurs, ComputeCID;
    var s' := WithBeacon(s, main, a);
    forall id | id in s' ensures ContentOk(h, s'[id]) {
      assert ContentOk(h, s[id]);
    }
  }

  lemma BeaconKeepsOrder(s: Store, order: seq<Id>, main: Id, a: Anchor)
    requires InOrder(s, order) && main in s
    ensures InOrder(WithBeacon(s, main, a), order)
  {
    var s' := WithBeacon(s, main, a);
    assert RefersBack(s', order) by {
      forall i, d | 0 <= i < |order| && Refers(s', order[i], d) ensures d in order[..i] {
        assert Refers(s, order[i], d);
      }
    }
    SameOrder(s, s', order);
  }

  lemma BeaconKeepsStore(h: Hash, l: Loop, l': Loop, main: Id, a: Anchor)
    requires StoreOk(h, l) && main in l.store
    requires l'.store == WithBeacon(l.store, main, a) && l'.inserted == l.inserted
    ensures StoreOk(h, l')
  {
    hide InOrder, WithBeacon, ContentOk;
    BeaconKeepsContents(h, l.store, main, a);
    BeaconKeepsOrder(l.store, l.inserted, main, a);
  }

  /** The current main event gets a round above all earlier ones, and everything after it has none. */
  lemma BeaconKeepsRounds(s: Store, log: seq<Id>, lastRound: nat, main: Id, a: Anchor)
    requires RoundsRise(s, log, lastRound) && UnanchoredFrom(s, log, main) && NoDuplicates(log)
    requires main in s && a.round > lastRound
    ensures RoundsRise(WithBeacon(s, main, a), log, a.round)
  {
    var s' := WithBeacon(s, main, a);
    var m :| 0 <= m < |log| && log[m] == main
             && forall j :: m <= j < |log| ==> log[j] in s && RoundOf(s, log[j]) == None;
    forall j | 0 <= j < |log|
      ensures log[j] in s' && RoundOf(s', log[j]) == if j == m then Some(a.round) else RoundOf(s, log[j])
    {
    }
  }

  lemma MainsRecorded(l: Loop, l': Loop, r: MainRecord)
    requires MainsOk(l) && MainOf(l.pc) == Some(r.id) && MainOf(l'.pc) == None
    requires l'.mains == l.mains + [r] && l'.store.Keys == l.store.Keys
    requires forall id :: id in l.store ==> l'.store[id].content == l.store[id].content
    requires forall id :: id in l.store && id != r.id ==> l'.store[id] == l.store[id]
    requires RoundOf(l'.store, r.id) == r.round
    ensures MainsOk(l')
  {
    forall i | 0 <= i < |l'.mains| ensures RecordsMain(l'.store, l'.mains[i]) {
      if i < |l.mains| {
        assert RecordsMain(l.store, l.mains[i]);
      }
    }
    forall id | IsMain(l'.store, id) ensures exists i :: 0 <= i < |l'.mains| && l'.mains[i].id == id {
      if id == r.id {
        assert l'.mains[|l.mains|].id == id;
      } else {
        assert IsMain(l.store, id);
        var i :| 0 <= i < |l.mains| && l.mains[i].id == id;
        assert l'.mains[i].id == id;
      }
    }
  }

  lemma CurrentIsUnanchored(s: Store, log: seq<Id>, main: Id)
    requires UnanchoredFrom(s, log, main)
    ensures main in s && RoundOf(s, main) == None
  {
  }

  lemma LogIsDistinct(h: Hash, l: Loop)
    requires StoreOk(h, l)
    ensures NoDuplicates(l.inserted)
  {
  }

  lemma StoreIgnoresRest(h: Hash, l: Loop, l': Loop)
    requires StoreOk(h, l) && l'.store == l.store && l'.inserted == l.inserted
    ensures StoreOk(h, l')
  {
  }

  lemma IdleIsOk(l: Loop)
    requires l.pc.Idle?
    ensures PcOk(l)
  {
  }

  lemma AnchoredToRound(h: Hash, interval: nat, l: Loop, l': Loop, main: Id, a: Anchor)
    requires interval > 0 && LoopOk(h, interval, l) && AtAnchor(l) && l.pc.main == main
    requires l.eventCount + 1 >= interval && a.round > l.lastRound
    requires l' == l.(store := WithBeacon(l.store, main, a), lastRound := a.round, eventCount := 0, pc := Idle,
                      mains := l.mains + [MainRecord(main, Some(a.round))])
    ensures LoopOk(h, interval, l')
  {
    hide StoreOk, RoundsRise, UnanchoredFrom, MainsOk, ScheduleOk, PcOk;
    LogIsDistinct(h, l);
    var r := MainRecord(main, Some(a.round));
    assert StoreOk(h, l') by { BeaconKeepsStore(h, l, l', main, a); }
    assert AnchorsOk(l') by { BeaconKeepsRounds(l.store, l.inserted, l.lastRound, main, a); }
    assert PcOk(l') by { IdleIsOk(l'); }
    assert MainsOk(l') by { MainsRecorded(l, l', r); }
    assert ScheduleOk(interval, l'.mains, 0, l'.failed) by {
      ScheduleAnchored(interval, l.mains, l.eventCount, l.failed, r);
    }
  }

  lemma LeftUnanchored(h: Hash, interval: nat, l: Loop, l': Loop, main: Id)
    requires interval > 0 && LoopOk(h, interval, l) && AtAnchor(l) && l.pc.main == main
    requires l' == l.(eventCount := l.eventCount + 1, pc := Idle, mains := l.mains + [MainRecord(main, None)],
                      failed := l.failed + if l.eventCount + 1 >= interval then 1 else 0)
    ensures LoopOk(h, interval, l')
  {
    hide StoreOk, RoundsRise, UnanchoredFrom, MainsOk, ScheduleOk, PcOk;
    CurrentIsUnanchored(l.store, l.inserted, main);
    assert StoreOk(h, l') by { StoreIgnoresRest(h, l, l'); }
    assert PcOk(l') by { IdleIsOk(l'); }
    var r := MainRecord(main, None);
    assert MainsOk(l') by { MainsRecorded(l, l', r); }
    if l.eventCount + 1 >= interval {
      ScheduleFailed(interval, l.mains, l.eventCount, l.failed, r);
    } else {
      ScheduleSkipped(interval, l.mains, l.eventCount, l.failed, r);
    }
  }

  lemma AnchoredKeeps(h: Hash, interval: nat, l: Loop, answer: Option<Round>)
    requires interval > 0 && LoopOk(h, interval, l) && AtAnchor(l)
    ensures LoopOk(h, interval, Anchored(interval, l, answer))
  {
    hide LoopOk;
    var l' := Anchored(interval, l, answer);
    if l.eventCount + 1 >= interval && answer.Some? && ValidRound(answer.value) && answer.value.number > l.lastRound {
      AnchoredToRound(h, interval, l, l', l.pc.main, Anchor(answer.value.number, answer.value.randomness));
    } else {
      LeftUnanchored(h, interval, l, l', l.pc.main);
    }
  }

  lemma StartIsOk(h: Hash, interval: nat)
    requires interval > 0
    ensures LoopOk(h, interval, START)
  {
  }

  // ----- what follows for anchored events -----

  /** `path` leads from an event back to one of its proper ancestors, each step to a parent or to the
      event that spawned it. */
  predicate IsAncestry(s: Store, path: seq<Id>) {
    |path| > 1 && forall i :: 0 <= i < |path| - 1 ==> Refers(s, path[i], path[i + 1])
  }

  lemma {:induction false} AncestorIsEarlier(s: Store, log: seq<Id>, path: seq<Id>, i: nat) returns (j: nat)
    requires InOrder(s, log) && IsAncestry(s, path)
    requires i < |log| && log[i] == path[0]
    ensures j < i && log[j] == path[|path| - 1]
    decreases |path|
  {
    assert Refers(s, path[0], path[1]);
    assert path[1] in log[..i];
    j :| 0 <= j < i && log[j] == path[1];
    if |path| > 2 {
      forall k | 0 <= k < |path[1..]| - 1 ensures Refers(s, path[1..][k], path[1..][k + 1]) {
        assert Refers(s, path[k + 1], path[k + 2]);
      }
      j := AncestorIsEarlier(s, log, path[1..], j);
    }
  }

  /** An anchored proper ancestor, through any mix of parents and spawning, has the smaller round. */
  lemma AncestorsHaveSmallerRounds(h: Hash, interval: nat, l: Loop, path: seq<Id>)
    requires interval > 0 && LoopOk(h, interval, l) && IsAncestry(l.store, path) && path[|path| - 1] in l.store
    requires RoundOf(l.store, path[|path| - 1]).Some?
    requires path[0] in l.store && RoundOf(l.store, path[0]).Some?
    ensures RoundOf(l.store, path[|path| - 1]).value < RoundOf(l.store, path[0]).value <= l.lastRound
  {
    hide ScheduleOk, MainsOk, PcOk, RecentOk;
    var i :| 0 <= i < |l.inserted| && l.inserted[i] == path[0];
    var j := AncestorIsEarlier(l.store, l.inserted, path, i);
  }
}
