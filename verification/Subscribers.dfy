/** The pool's subscriber list: subscriptions, their buffered channels, and notification. */
module Subscribers {
  import opened Wire

  const BUFFER_SIZE: nat := 100

  /** A subscription's channel. `accepted` is everything ever pushed into it; `since` and `until`
      are the notifications between which it was listed. */
  datatype Sub = Sub(buf: seq<Id>, closed: bool, accepted: seq<Id>, since: nat, until: Option<nat>)

  /** One notification, the subscriptions listed at that moment, and those of them with no room left. */
  datatype Notice = Notice(id: Id, listeners: seq<nat>, crowded: set<nat>)

  datatype Front = Front(listed: seq<nat>, subs: seq<Sub>, dropped: nat, notices: seq<Notice>)

  const NOBODY: Front := Front([], [], 0, [])

  predicate Full(sub: Sub) {
    |sub.buf| >= BUFFER_SIZE
  }

  function Offer(sub: Sub, id: Id): Sub {
    if Full(sub) then sub else sub.(buf := sub.buf + [id], accepted := sub.accepted + [id])
  }

  predicate AllKnown(subs: seq<Sub>, listed: seq<nat>) {
    forall k :: 0 <= k < |listed| ==> listed[k] < |subs|
  }

  function CountFull(subs: seq<Sub>, listed: seq<nat>): nat
    requires AllKnown(subs, listed)
  {
    if listed == [] then 0
    else
      var i := listed[|listed| - 1];
      CountFull(subs, listed[..|listed| - 1]) + if Full(subs[i]) then 1 else 0
  }

  /** Everyone in `to` is offered the event; nobody else notices. */
  function OfferTo(subs: seq<Sub>, to: seq<nat>, id: Id): (r: seq<Sub>)
    ensures |r| == |subs|
  {
    seq(|subs|, i requires 0 <= i < |subs| => if i in to then Offer(subs[i], id) else subs[i])
  }

  /** The listed subscriptions with a full buffer of unread events. */
  function Crowded(subs: seq<Sub>, listed: seq<nat>): set<nat> {
    set i | i in listed && i < |subs| && |subs[i].buf| >= BUFFER_SIZE
  }

  function Notified(f: Front, id: Id): Front
    requires AllKnown(f.subs, f.listed)
  {
    Front(f.listed, OfferTo(f.subs, f.listed, id), f.dropped + CountFull(f.subs, f.listed),
          f.notices + [Notice(id, f.listed, Crowded(f.subs, f.listed))])
  }

  function Subscribed(f: Front): Front {
    f.(listed := f.listed + [|f.subs|], subs := f.subs + [Sub([], false, [], |f.notices|, None)])
  }

  /** The list with the first occurrence of `i` cut out. */
  function Without(listed: seq<nat>, i: nat): seq<nat> {
    if listed == [] then []
    else if listed[0] == i then listed[1..]
    else [listed[0]] + Without(listed[1..], i)
  }

  function Shut(sub: Sub, now: nat): Sub {
    sub.(closed := true, until := Some(now))
  }

  /** Detaches and closes a listed subscription; a second call finds nothing to do. */
  function Unsubscribed(f: Front, i: nat): Front {
    if i in f.listed && i < |f.subs|
    then f.(listed := Without(f.listed, i), subs := f.subs[i := Shut(f.subs[i], |f.notices|)])
    else f
  }

  function ShutAll(subs: seq<Sub>, which: seq<nat>, now: nat): (r: seq<Sub>)
    ensures |r| == |subs|
  {
    seq(|subs|, i requires 0 <= i < |subs| => if i in which then Shut(subs[i], now) else subs[i])
  }

  function ClosedAll(f: Front): Front {
    f.(listed := [], subs := ShutAll(f.subs, f.listed, |f.notices|))
  }

  /** A subscriber takes the oldest buffered event. */
  function Received(f: Front, i: nat): Front {
    if i < |f.subs| && f.subs[i].buf != [] then f.(subs := f.subs[i := f.subs[i].(buf := f.subs[i].buf[1..])]) else f
  }

  // ----- what is kept -----

  predicate NoRepeats(listed: seq<nat>) {
    forall i, j :: 0 <= i < j < |listed| ==> listed[i] != listed[j]
  }

  /** Listed means open. */
  predicate ListedAreOpen(f: Front) {
    && NoRepeats(f.listed) && AllKnown(f.subs, f.listed)
    && forall i :: 0 <= i < |f.subs| ==> (i in f.listed <==> !f.subs[i].closed)
  }

  function Ids(notices: seq<Notice>): (r: seq<Id>)
    ensures |r| == |notices|
  {
    seq(|notices|, i requires 0 <= i < |notices| => notices[i].id)
  }

  /** `a` is what remains of `b` after striking out some entries. */
  predicate IsSubsequence(a: seq<Id>, b: seq<Id>) {
    a == [] || (b != [] &&
      ((a[|a| - 1] == b[|b| - 1] && IsSubsequence(a[..|a| - 1], b[..|b| - 1]))
       || IsSubsequence(a, b[..|b| - 1])))
  }

  /** The notifications that found subscription `i` listed and with room. */
  function Heard(notices: seq<Notice>, i: nat): seq<Id> {
    if notices == [] then []
    else
      var last := notices[|notices| - 1];
      Heard(notices[..|notices| - 1], i) + if i in last.listeners && i !in last.crowded then [last.id] else []
  }

  /** How many offers found no room. */
  function TotalMissed(notices: seq<Notice>): nat {
    if notices == [] then 0
    else TotalMissed(notices[..|notices| - 1]) + |notices[|notices| - 1].crowded|
  }

  /** The first notification after the subscription ended, or the present. */
  function End(f: Front, sub: Sub): nat {
    if sub.until.Some? then sub.until.value else |f.notices|
  }

  predicate IsSuffix(a: seq<Id>, b: seq<Id>) {
    |a| <= |b| && b[|b| - |a|..] == a
  }

  /** What was pushed is, in order, part of the notifications sent while the subscription was listed; all of
      them, as long as there were no more than the buffer holds. */
  predicate StreamOk(notices: seq<Notice>, sub: Sub, end: nat)
    requires sub.since <= end <= |notices|
  {
    && IsSubsequence(sub.accepted, Ids(notices[sub.since..end]))
    && (end - sub.since <= BUFFER_SIZE ==> sub.accepted == Ids(notices[sub.since..end]))
  }

  /** The buffer holds the end of the stream, at most a hundred events. */
  predicate BufferOk(sub: Sub) {
    |sub.buf| <= BUFFER_SIZE && IsSuffix(sub.buf, sub.accepted)
  }

  /** The subscription was a listener for exactly the notifications in its range. */
  predicate ListenedTo(notices: seq<Notice>, i: nat, since: nat, end: nat) {
    forall k :: 0 <= k < |notices| ==> (i in notices[k].listeners <==> since <= k < end)
  }

  predicate Followed(f: Front, i: nat)
    requires i < |f.subs|
  {
    var sub, end := f.subs[i], End(f, f.subs[i]);
    && (sub.closed <==> sub.until.Some?)
    && sub.since <= end <= |f.notices|
    && StreamOk(f.notices, sub, end) && BufferOk(sub) && ListenedTo(f.notices, i, sub.since, end)
    && sub.accepted == Heard(f.notices, i)
  }

  function TotalAccepted(subs: seq<Sub>): nat {
    if subs == [] then 0 else TotalAccepted(subs[..|subs| - 1]) + |subs[|subs| - 1].accepted|
  }

  function TotalListeners(notices: seq<Notice>): nat {
    if notices == [] then 0
    else TotalListeners(notices[..|notices| - 1]) + |notices[|notices| - 1].listeners|
  }

  /** Every offer was either taken or counted as dropped, and only those that found no room were dropped. */
  predicate Conserved(f: Front) {
    TotalAccepted(f.subs) + f.dropped == TotalListeners(f.notices) && f.dropped == TotalMissed(f.notices)
  }

  predicate FrontOk(f: Front) {
    && ListedAreOpen(f) && Conserved(f)
    && (forall i :: 0 <= i < |f.subs| ==> Followed(f, i))
    && (forall k :: 0 <= k < |f.notices| ==> AllKnown(f.subs, f.notices[k].listeners))
  }

  // ----- proofs -----

  lemma NotAmongEarlier(listed: seq<nat>, k: nat)
    requires NoRepeats(listed) && k < |listed|
    ensures listed[k] !in listed[..k]
  {
  }

  lemma {:induction false} WithoutAt(listed: seq<nat>, k: nat)
    requires k < |listed| && listed[k] !in listed[..k]
    ensures Without(listed, listed[k]) == listed[..k] + listed[k + 1..]
  {
    if k > 0 {
      assert listed[1..][..k - 1] == listed[..k][1..];
      WithoutAt(listed[1..], k - 1);
      assert listed[..k] == [listed[0]] + listed[1..][..k - 1];
      assert listed[1..][k..] == listed[k + 1..];
    }
  }

  lemma CutOut(listed: seq<nat>, k: nat, cut: seq<nat>)
    requires NoRepeats(listed) && k < |listed| && cut == listed[..k] + listed[k + 1..]
    ensures NoRepeats(cut) && forall x :: x in cut <==> x in listed && x != listed[k]
  {
    forall x | x in cut ensures x in listed && x != listed[k] {
      var j :| 0 <= j < |cut| && cut[j] == x;
      assert listed[if j < k then j else j + 1] == x;
    }
    forall x | x in listed && x != listed[k] ensures x in cut {
      var j :| 0 <= j < |listed| && listed[j] == x;
      assert cut[if j < k then j else j - 1] == x;
    }
  }

  lemma WithoutMembers(listed: seq<nat>, i: nat)
    requires NoRepeats(listed) && i in listed
    ensures NoRepeats(Without(listed, i))
    ensures forall x :: x in Without(listed, i) <==> x in listed && x != i
  {
    var k :| 0 <= k < |listed| && listed[k] == i;
    NotAmongEarlier(listed, k);
    WithoutAt(listed, k);
    CutOut(listed, k, Without(listed, i));
  }

  lemma TotalAcceptedUpdate(subs: seq<Sub>, i: nat, sub: Sub)
    requires i < |subs|
    ensures TotalAccepted(subs[i := sub]) == TotalAccepted(subs) - |subs[i].accepted| + |sub.accepted|
  {
    var last := |subs| - 1;
    if i == last {
      assert subs[i := sub][..last] == subs[..last];
    } else {
      assert subs[i := sub][..last] == subs[..last][i := sub];
      TotalAcceptedUpdate(subs[..last], i, sub);
    }
  }

  lemma OfferToOneMore(subs: seq<Sub>, to: seq<nat>, i: nat, id: Id)
    requires i < |subs| && i !in to
    ensures OfferTo(subs, to + [i], id) == OfferTo(subs, to, id)[i := Offer(subs[i], id)]
    ensures OfferTo(subs, to, id)[i] == subs[i]
  {
  }

  lemma {:induction false} OffersAreCounted(subs: seq<Sub>, to: seq<nat>, id: Id)
    requires NoRepeats(to) && AllKnown(subs, to)
    ensures TotalAccepted(OfferTo(subs, to, id)) + CountFull(subs, to) == TotalAccepted(subs) + |to|
  {
    if to == [] {
      assert OfferTo(subs, to, id) == subs;
    } else {
      var init, i := to[..|to| - 1], to[|to| - 1];
      NotAmongEarlier(to, |to| - 1);
      assert to == init + [i];
      OffersAreCounted(subs, init, id);
      OfferToOneMore(subs, init, i, id);
      TotalAcceptedUpdate(OfferTo(subs, init, id), i, Offer(subs[i], id));
    }
  }

  lemma GrowSubsequence(a: seq<Id>, b: seq<Id>, id: Id)
    requires IsSubsequence(a, b)
    ensures IsSubsequence(a, b + [id]) && IsSubsequence(a + [id], b + [id])
  {
    assert (b + [id])[..|b|] == b && (a + [id])[..|a|] == a;
  }

  lemma SeenNext(notices: seq<Notice>, since: nat, notice: Notice)
    requires since <= |notices|
    ensures Ids((notices + [notice])[since..|notices| + 1]) == Ids(notices[since..|notices|]) + [notice.id]
  {
  }

  lemma StreamGrows(notices: seq<Notice>, sub: Sub, notice: Notice)
    requires sub.since <= |notices| && StreamOk(notices, sub, |notices|) && BufferOk(sub)
    ensures StreamOk(notices + [notice], Offer(sub, notice.id), |notices| + 1)
  {
    hide IsSubsequence;
    SeenNext(notices, sub.since, notice);
    GrowSubsequence(sub.accepted, Ids(notices[sub.since..|notices|]), notice.id);
  }

  lemma OfferKeepsBuffer(sub: Sub, id: Id)
    requires BufferOk(sub)
    ensures BufferOk(Offer(sub, id))
  {
  }

  lemma HeardNext(notices: seq<Notice>, n: Notice, i: nat)
    ensures Heard(notices + [n], i) == Heard(notices, i) + if i in n.listeners && i !in n.crowded then [n.id] else []
  {
    assert (notices + [n])[..|notices|] == notices;
  }

  lemma {:induction false} CrowdedAreCounted(subs: seq<Sub>, listed: seq<nat>)
    requires NoRepeats(listed) && AllKnown(subs, listed)
    ensures |Crowded(subs, listed)| == CountFull(subs, listed)
  {
    if listed != [] {
      var init, i := listed[..|listed| - 1], listed[|listed| - 1];
      NotAmongEarlier(listed, |listed| - 1);
      CrowdedAreCounted(subs, init);
      assert listed == init + [i];
      assert Crowded(subs, listed) == Crowded(subs, init) + if |subs[i].buf| >= BUFFER_SIZE then {i} else {};
    }
  }

  lemma ListenerFollowed(f: Front, f': Front, i: nat, n: Notice)
    requires i < |f.subs| && Followed(f, i) && !f.subs[i].closed
    requires i < |f'.subs| && f'.subs[i] == Offer(f.subs[i], n.id)
    requires f'.notices == f.notices + [n] && i in n.listeners
    requires i in n.crowded <==> |f.subs[i].buf| >= BUFFER_SIZE
    ensures Followed(f', i)
  {
    hide StreamOk, BufferOk, Heard;
    StreamGrows(f.notices, f.subs[i], n);
    OfferKeepsBuffer(f.subs[i], n.id);
    HeardNext(f.notices, n, i);
  }

  lemma BystanderFollowed(f: Front, f': Front, i: nat, n: Notice)
    requires i < |f.subs| && Followed(f, i) && f.subs[i].closed
    requires i < |f'.subs| && f'.subs[i] == f.subs[i]
    requires f'.notices == f.notices + [n] && i !in n.listeners
    ensures Followed(f', i)
  {
    hide IsSubsequence, Heard;
    var sub := f.subs[i];
    assert f'.notices[sub.since..End(f, sub)] == f.notices[sub.since..End(f, sub)];
    HeardNext(f.notices, n, i);
  }

  lemma NotifyKeeps(f: Front, id: Id)
    requires FrontOk(f)
    ensures FrontOk(Notified(f, id))
  {
    OffersAreCounted(f.subs, f.listed, id);
    CrowdedAreCounted(f.subs, f.listed);
    hide Followed;
    var f' := Notified(f, id);
    var n := f'.notices[|f.notices|];
    assert f'.notices[..|f'.notices| - 1] == f.notices;
    forall i | 0 <= i < |f'.subs| ensures Followed(f', i) {
      if i in f.listed { ListenerFollowed(f, f', i, n); } else { BystanderFollowed(f, f', i, n); }
    }
  }

  lemma {:induction false} HeardNothing(notices: seq<Notice>, i: nat)
    requires forall k :: 0 <= k < |notices| ==> i !in notices[k].listeners
    ensures Heard(notices, i) == []
  {
    if notices != [] {
      HeardNothing(notices[..|notices| - 1], i);
    }
  }

  /** What a notification does: whoever is listed and has room gets the event as the last unread one, nobody else
      notices, and exactly the listed ones without room are counted as drops. */
  lemma NotifyDelivers(f: Front, id: Id)
    requires ListedAreOpen(f)
    ensures var g := Notified(f, id);
            && |g.subs| == |f.subs| && g.listed == f.listed
            && (forall i :: 0 <= i < |f.subs| ==>
                  var a, b := f.subs[i], g.subs[i];
                  if i in f.listed && |a.buf| < BUFFER_SIZE
                  then b == a.(buf := a.buf + [id], accepted := a.accepted + [id])
                  else b == a)
            && g.dropped == f.dropped + |set i | i in f.listed && |f.subs[i].buf| >= BUFFER_SIZE|
  {
    CrowdedAreCounted(f.subs, f.listed);
    assert Crowded(f.subs, f.listed) == set i | i in f.listed && |f.subs[i].buf| >= BUFFER_SIZE;
  }

  /** A subscription that had room at every notification has received them all, however many there were. */
  lemma {:induction false} RoomMeansAll(notices: seq<Notice>, i: nat, since: nat, end: nat)
    requires since <= end <= |notices| && ListenedTo(notices, i, since, end)
    requires forall k :: since <= k < end ==> i !in notices[k].crowded
    ensures Heard(notices, i) == Ids(notices[since..end])
    decreases |notices|
  {
    if notices == [] {
    } else {
      var last := |notices| - 1;
      var init := notices[..last];
      if end == |notices| && since < end {
        RoomMeansAll(init, i, since, last);
        assert notices[since..end] == init[since..last] + [notices[last]];
        assert Ids(notices[since..end]) == Ids(init[since..last]) + [notices[last].id];
      } else {
        var end' := if end == |notices| then last else end;
        var since' := if since == |notices| then last else since;
        assert i !in notices[last].listeners;
        RoomMeansAll(init, i, since', end');
        assert notices[since..end] == init[since'..end'];
      }
    }
  }

  /** A reader takes the oldest unread event and nothing else changes: what it has read so far is the stream
      without the unread end, one event longer. */
  lemma ReadingTakesTheOldest(f: Front, i: nat)
    requires i < |f.subs| && BufferOk(f.subs[i]) && f.subs[i].buf != []
    ensures var g, a := Received(f, i), f.subs[i];
            && |g.subs| == |f.subs| && BufferOk(g.subs[i])
            && g == f.(subs := f.subs[i := a.(buf := g.subs[i].buf)])
            && ReadSoFar(g.subs[i]) == ReadSoFar(a) + [a.buf[0]]
  {
    var a := f.subs[i];
    assert a.accepted[|a.accepted| - |a.buf|] == a.accepted[|a.accepted| - |a.buf|..][0];
  }

  /** What has been taken out of the channel. */
  function ReadSoFar(sub: Sub): seq<Id>
    requires |sub.buf| <= |sub.accepted|
  {
    sub.accepted[..|sub.accepted| - |sub.buf|]
  }

  lemma SubscribeKeeps(f: Front)
    requires FrontOk(f)
    ensures FrontOk(Subscribed(f))
  {
    var f' := Subscribed(f);
    assert f'.subs[..|f.subs|] == f.subs;
    forall i | 0 <= i < |f'.subs| ensures Followed(f', i) {
      if i < |f.subs| {
        assert Followed(f, i);
      } else {
        assert forall k :: 0 <= k < |f.notices| ==> |f.subs| !in f.notices[k].listeners;
        HeardNothing(f.notices, i);
      }
    }
  }

  /** A new subscription hears of the next event, and takes nothing from those there are. */
  lemma NewSubscriptionHearsNext(f: Front, id: Id)
    requires FrontOk(f)
    ensures var i, g, g' := |f.subs|, Notified(f, id), Notified(Subscribed(f), id);
            && g'.subs[i].buf == [id] && g'.subs[i].accepted == [id] && !g'.subs[i].closed
            && g'.subs[..i] == g.subs && g'.dropped == g.dropped && g'.listed == g.listed + [i]
  {
    hide Followed, Conserved;
    var i, f' := |f.subs|, Subscribed(f);
    assert f'.listed[..|f.listed|] == f.listed && i in f'.listed;
    SameFull(f.subs, f'.subs, f.listed);
    forall j | 0 <= j < i ensures j in f'.listed <==> j in f.listed {
    }
    assert Notified(f', id).subs[..i] == Notified(f, id).subs;
  }

  lemma {:induction false} SameFull(subs: seq<Sub>, subs': seq<Sub>, listed: seq<nat>)
    requires AllKnown(subs, listed) && |subs| <= |subs'| && subs'[..|subs|] == subs
    ensures CountFull(subs', listed) == CountFull(subs, listed)
  {
    if listed != [] {
      SameFull(subs, subs', listed[..|listed| - 1]);
      var i := listed[|listed| - 1];
      assert subs'[..|subs|][i] == subs[i];
    }
  }

  lemma ShutFollowed(f: Front, f': Front, i: nat)
    requires i < |f.subs| && Followed(f, i) && !f.subs[i].closed
    requires f'.notices == f.notices && i < |f'.subs| && f'.subs[i] == Shut(f.subs[i], |f.notices|)
    ensures Followed(f', i)
  {
    hide IsSubsequence;
  }

  lemma SameFollowed(f: Front, f': Front, i: nat)
    requires i < |f.subs| && Followed(f, i)
    requires f'.notices == f.notices && i < |f'.subs| && f'.subs[i] == f.subs[i]
    ensures Followed(f', i)
  {
    hide StreamOk;
  }

  /** What unsubscribing does: `i` leaves the list and its channel is closed with what is unread in it; nobody
      else notices, and whoever is not listed cannot leave. */
  lemma UnsubscribeDetaches(f: Front, i: nat)
    requires ListedAreOpen(f)
    ensures var g := Unsubscribed(f, i);
            && (i !in f.listed ==> g == f)
            && (forall j :: j in g.listed <==> j in f.listed && j != i)
            && |g.subs| == |f.subs| && g.dropped == f.dropped && g.notices == f.notices
            && (forall j :: 0 <= j < |f.subs| && j != i ==> g.subs[j] == f.subs[j])
            && (i < |f.subs| ==>
                  g.subs[i].closed && g.subs[i].buf == f.subs[i].buf && g.subs[i].accepted == f.subs[i].accepted)
  {
    if i in f.listed {
      WithoutMembers(f.listed, i);
    }
  }

  lemma UnsubscribeKeeps(f: Front, i: nat)
    requires FrontOk(f)
    ensures FrontOk(Unsubscribed(f, i))
  {
    var f' := Unsubscribed(f, i);
    if i in f.listed {
      TotalAcceptedUpdate(f.subs, i, f'.subs[i]);
      WithoutMembers(f.listed, i);
      forall k | 0 <= k < |f'.listed| ensures f'.listed[k] < |f'.subs| {
        assert f'.listed[k] in f.listed;
      }
      forall j | 0 <= j < |f'.subs| ensures Followed(f', j) {
        if i == j { ShutFollowed(f, f', j); } else { SameFollowed(f, f', j); }
      }
    }
  }

  lemma {:induction false} ShutAllTotal(subs: seq<Sub>, which: seq<nat>, now: nat)
    ensures TotalAccepted(ShutAll(subs, which, now)) == TotalAccepted(subs)
  {
    if subs != [] {
      var last := |subs| - 1;
      assert ShutAll(subs, which, now)[..last] == ShutAll(subs[..last], which, now);
      ShutAllTotal(subs[..last], which, now);
    }
  }

  lemma CloseAllKeeps(f: Front)
    requires FrontOk(f)
    ensures FrontOk(ClosedAll(f))
  {
    var f' := ClosedAll(f);
    ShutAllTotal(f.subs, f.listed, |f.notices|);
    forall j | 0 <= j < |f'.subs| ensures Followed(f', j) {
      if j in f.listed { ShutFollowed(f, f', j); } else { SameFollowed(f, f', j); }
    }
  }

  lemma ReceiveKeeps(f: Front, i: nat)
    requires FrontOk(f)
    ensures FrontOk(Received(f, i))
  {
    var f' := Received(f, i);
    if f' != f {
      TotalAcceptedUpdate(f.subs, i, f'.subs[i]);
      forall j | 0 <= j < |f'.subs| ensures Followed(f', j) {
        if i != j {
          SameFollowed(f, f', j);
        } else {
          assert Followed(f, i);
        }
      }
    }
  }

  // ----- the subscriber list itself -----

  /** The part of the pool that concerns subscribers; each method runs under the pool's lock. */
  class SubscriberList {
    var listed: seq<nat>
    var subs: seq<Sub>
    var dropped: nat
    var notices: seq<Notice>

    constructor ()
      ensures State() == NOBODY
    {
      listed, subs, dropped, notices := [], [], 0, [];
    }

    function State(): Front
      reads this
    {
      Front(listed, subs, dropped, notices)
    }

    /** `running` is the pool's flag: after `Close` has begun there is nothing to subscribe to. */
    method Subscribe(running: bool) returns (sub: Option<nat>)
      modifies this
      ensures State() == if running then Subscribed(old(State())) else old(State())
      ensures sub.Some? <==> running
      ensures sub.Some? ==> sub.value == old(|subs|)
      ensures FrontOk(old(State())) ==> FrontOk(State())
    {
      if !running {
        return None;
      }
      if FrontOk(State()) {
        SubscribeKeeps(State());
      }
      sub := Some(|subs|);
      subs := subs + [Sub([], false, [], |notices|, None)];
      listed := listed + [sub.value];
    }

    /** Closing a closed channel would panic, hence the precondition. */
    method CloseChannel(i: nat)
      requires i < |subs| && !subs[i].closed
      modifies this`subs
      ensures subs == old(subs)[i := Shut(old(subs)[i], |notices|)]
    {
      subs := subs[i := Shut(subs[i], |notices|)];
    }

    method RemoveSubscriber(i: nat)
      requires ListedAreOpen(State())
      modifies this
      ensures State() == Unsubscribed(old(State()), i)
    {
      for k := 0 to |listed|
        invariant State() == old(State())
        invariant i !in listed[..k]
      {
        if listed[k] == i {
          assert i in State().listed;
          WithoutAt(listed, k);
          listed := listed[..k] + listed[k + 1..];
          CloseChannel(i);
          return;
        }
      }
    }

    /** Sending on a closed channel would panic, hence the precondition. */
    method TrySend(i: nat, id: Id)
      requires i < |subs| && !subs[i].closed
      modifies this`subs, this`dropped
      ensures subs == old(subs)[i := Offer(old(subs)[i], id)]
      ensures dropped == old(dropped) + if Full(old(subs)[i]) then 1 else 0
    {
      if |subs[i].buf| < BUFFER_SIZE {
        subs := subs[i := subs[i].(buf := subs[i].buf + [id], accepted := subs[i].accepted + [id])];
      } else {
        dropped := dropped + 1;
      }
    }

    method NotifySubscribers(id: Id)
      requires ListedAreOpen(State())
      modifies this
      ensures State() == Notified(old(State()), id)
    {
      hide OfferTo, CountFull, Offer, Full;
      ghost var before, lost := subs, dropped;
      var crowded := Crowded(subs, listed);
      OfferNobody(subs, id);
      for k := 0 to |listed|
        invariant listed == old(listed) && notices == old(notices)
        invariant subs == OfferTo(before, listed[..k], id)
        invariant dropped == lost + CountFull(before, listed[..k])
      {
        OfferNext(before, listed, k, id);
        TrySend(listed[k], id);
      }
      assert listed[..|listed|] == listed;
      notices := notices + [Notice(id, listed, crowded)];
    }

    method CloseSubscribers()
      requires ListedAreOpen(State())
      modifies this
      ensures State() == ClosedAll(old(State()))
    {
      assert ShutAll(subs, [], |notices|) == subs;
      for k := 0 to |listed|
        invariant listed == old(listed) && notices == old(notices) && dropped == old(dropped)
        invariant subs == ShutAll(old(subs), listed[..k], |notices|)
      {
        assert listed[..k + 1] == listed[..k] + [listed[k]];
        NotAmongEarlier(listed, k);
        assert listed[k] in listed;
        ShutOneMore(old(subs), listed[..k], listed[k], |notices|);
        CloseChannel(listed[k]);
      }
      assert listed[..|listed|] == listed;
      listed := [];
    }
  }

  lemma OfferNobody(subs: seq<Sub>, id: Id)
    ensures OfferTo(subs, [], id) == subs && CountFull(subs, []) == 0
  {
  }

  lemma OfferNext(subs: seq<Sub>, listed: seq<nat>, k: nat, id: Id)
    requires NoRepeats(listed) && AllKnown(subs, listed) && k < |listed|
    ensures var i := listed[k];
            && OfferTo(subs, listed[..k + 1], id) == OfferTo(subs, listed[..k], id)[i := Offer(subs[i], id)]
            && OfferTo(subs, listed[..k], id)[i] == subs[i]
            && CountFull(subs, listed[..k + 1]) == CountFull(subs, listed[..k]) + if Full(subs[i]) then 1 else 0
  {
    NotAmongEarlier(listed, k);
    assert listed[..k + 1] == listed[..k] + [listed[k]];
    assert listed[..k + 1][..k] == listed[..k];
    OfferToOneMore(subs, listed[..k], listed[k], id);
  }

  lemma ShutOneMore(subs: seq<Sub>, which: seq<nat>, i: nat, now: nat)
    requires i < |subs| && i !in which
    ensures ShutAll(subs, which + [i], now) == ShutAll(subs, which, now)[i := Shut(subs[i], now)]
    ensures ShutAll(subs, which, now)[i] == subs[i]
  {
  }
}
