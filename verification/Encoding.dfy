/** The canonical encoding of an event's immutable content, its decoder, and content identifiers. */
module Encoding {
  import opened Wire

  const MAIN: int := 0
  const SUB: int := 1

  /** The part of an event that its identifier commits to. */
  datatype Content = Content(kind: int, parentId: Id, parents: seq<Id>, data: Bytes)

  /** Every length field of the encoding holds the true length. */
  predicate InRange(c: Content) {
    Fits(c.parentId) && |c.parents| < TWO_32 && (forall p :: p in c.parents ==> Fits(p)) && Fits(c.data)
  }

  function KindByte(kind: int): u8 {
    (kind % 0x100) as u8
  }

  function Body(parentId: Id, sorted: seq<Id>, data: Bytes): Bytes {
    Str(parentId) + (List(sorted) + Str(data))
  }

  function Encode(c: Content): Bytes {
    [KindByte(c.kind)] + Body(c.parentId, Sort(c.parents), c.data)
  }

  method WriteString(buf: Bytes, s: Bytes) returns (buf': Bytes)
    ensures buf' == buf + Str(s)
  {
    buf' := buf + Be32(|s|);
    buf' := buf' + s;
    assert buf' == buf + Str(s);
  }

  lemma StrsSnoc(ss: seq<Bytes>, s: Bytes)
    ensures Strs(ss + [s]) == Strs(ss) + Str(s)
  {
    if ss == [] {
      assert ss + [s] == [s];
    } else {
      StrsSnoc(ss[1..], s);
      assert (ss + [s])[1..] == ss[1..] + [s];
    }
  }

  /** The count and the strings themselves, one at a time. */
  method WriteStrings(buf: Bytes, ss: seq<Bytes>) returns (buf': Bytes)
    ensures buf' == buf + List(ss)
  {
    buf' := buf + Be32(|ss|);
    for i := 0 to |ss|
      invariant buf' == buf + (Be32(|ss|) + Strs(ss[..i]))
    {
      StrsSnoc(ss[..i], ss[i]);
      assert ss[..i + 1] == ss[..i] + [ss[i]];
      buf' := WriteString(buf', ss[i]);
    }
    assert ss[..|ss|] == ss;
  }

  method SerializeEventContent(c: Content) returns (buf: Bytes)
    ensures buf == Encode(c)
  {
    buf := [KindByte(c.kind)];
    buf := WriteString(buf, c.parentId);
    var sortedParents := Sort(c.parents);
    buf := WriteStrings(buf, sortedParents);
    buf := WriteString(buf, c.data);
    Regroup(KindByte(c.kind), Str(c.parentId), List(sortedParents), Str(c.data), []);
  }

  // ----- the layout, byte by byte -----

  /** At this position stand a big-endian length and then the string itself. */
  predicate StrAt(e: Bytes, at: nat, s: Bytes) {
    at + 4 + |s| <= |e| && Num(e[at..at + 4]) == |s| % TWO_32 && e[at + 4..at + 4 + |s|] == s
  }

  /** The bytes the first `k` strings take up. */
  function Offset(ss: seq<Bytes>, k: nat): nat
    requires k <= |ss|
  {
    if k == 0 then 0 else Offset(ss, k - 1) + 4 + |ss[k - 1]|
  }

  lemma StrIsAt(before: Bytes, s: Bytes, after: Bytes)
    ensures StrAt(before + Str(s) + after, |before|, s)
  {
    var e := before + Str(s) + after;
    Be32IsBigEndian(|s|);
    assert e[|before|..|before| + 4] == Be32(|s|);
    assert e[|before| + 4..|before| + 4 + |s|] == s;
  }

  lemma {:induction false} StrsLength(ss: seq<Bytes>)
    ensures |Strs(ss)| == Offset(ss, |ss|)
  {
    if ss != [] {
      var init, last := ss[..|ss| - 1], ss[|ss| - 1];
      assert ss == init + [last];
      StrsSnoc(init, last);
      StrsLength(init);
      OffsetOfInit(ss, |ss| - 1);
    }
  }

  lemma {:induction false} OffsetOfInit(ss: seq<Bytes>, k: nat)
    requires k < |ss|
    ensures Offset(ss[..|ss| - 1], k) == Offset(ss, k)
  {
    if k > 0 {
      OffsetOfInit(ss, k - 1);
    }
  }

  lemma {:induction false} StrsAreAt(before: Bytes, ss: seq<Bytes>, after: Bytes, k: nat)
    requires k < |ss|
    ensures StrAt(before + Strs(ss) + after, |before| + Offset(ss, k), ss[k])
  {
    hide StrAt, Str, Strs, Offset;
    var init, last := ss[..|ss| - 1], ss[|ss| - 1];
    assert ss == init + [last];
    StrsSnoc(init, last);
    OffsetOfInit(ss, k);
    Associates(before, Strs(init), Str(last), after);
    if k == |ss| - 1 {
      StrsLength(init);
      assert init[..|init|] == init;
      StrIsAt(before + Strs(init), last, after);
    } else {
      StrsAreAt(before, init, Str(last) + after, k);
    }
  }

  lemma Associates(a: Bytes, b: Bytes, c: Bytes, d: Bytes)
    ensures a + (b + c) + d == a + b + c + d
    ensures a + b + (c + d) == a + b + c + d
  {
  }

  /** Everything in front of the parents. */
  function Head(c: Content, sorted: seq<Id>): Bytes {
    [KindByte(c.kind)] + Str(c.parentId) + Be32(|sorted|)
  }

  lemma EncodeInParts(c: Content, sorted: seq<Id>)
    requires sorted == Sort(c.parents)
    ensures Encode(c) == Head(c, sorted) + Strs(sorted) + Str(c.data)
    ensures |Head(c, sorted)| == 9 + |c.parentId| && |Str(c.data)| == 4 + |c.data|
  {
    hide Str, Strs;
    var k, a, n, b, d := [KindByte(c.kind)], Str(c.parentId), Be32(|sorted|), Strs(sorted), Str(c.data);
    assert k + (a + (n + b + d)) == k + a + n + b + d;
    assert |a| == 4 + |c.parentId| && |d| == 4 + |c.data| by { StrLength(c.parentId); StrLength(c.data); }
  }

  lemma StrLength(s: Bytes)
    ensures |Str(s)| == 4 + |s|
  {
  }

  lemma HeadLayout(c: Content, sorted: seq<Id>, after: Bytes)
    ensures var e, p := Head(c, sorted) + after, |c.parentId|;
            && |e| >= 9 + p && e[0] as int == c.kind % 0x100 && StrAt(e, 1, c.parentId)
            && Num(e[5 + p..9 + p]) == |sorted| % TWO_32
  {
    var k, a, n := [KindByte(c.kind)], Str(c.parentId), Be32(|sorted|);
    Be32IsBigEndian(|sorted|);
    StrIsAt(k, c.parentId, n + after);
    assert Head(c, sorted) + after == k + a + (n + after);
    assert (Head(c, sorted) + after)[5 + |c.parentId|..9 + |c.parentId|] == n;
  }

  lemma ParentsLayout(c: Content, sorted: seq<Id>, k: nat)
    requires sorted == Sort(c.parents) && k < |sorted|
    ensures StrAt(Encode(c), 9 + |c.parentId| + Offset(sorted, k), sorted[k])
  {
    hide Encode, Head, Strs, Str, StrAt, Offset, Sort;
    EncodeInParts(c, sorted);
    StrsAreAt(Head(c, sorted), sorted, Str(c.data), k);
  }

  lemma DataLayout(c: Content, sorted: seq<Id>)
    requires sorted == Sort(c.parents)
    ensures StrAt(Encode(c), 9 + |c.parentId| + Offset(sorted, |sorted|), c.data)
    ensures |Encode(c)| == 9 + |c.parentId| + Offset(sorted, |sorted|) + 4 + |c.data|
  {
    hide Encode, Head, Strs, Str, StrAt, Offset, Sort;
    var head, body, data := Head(c, sorted), Strs(sorted), Str(c.data);
    EncodeInParts(c, sorted);
    StrsLength(sorted);
    StrIsAt(head + body, c.data, []);
    assert head + body + data + [] == Encode(c);
  }

  /** The encoding of any event, position by position: the type's low byte; the parent identifier; the number of
      parents; the parents in lexicographic order; the data; and nothing else. Strings are preceded by their
      lengths, and lengths and the count are big-endian 32-bit numbers. */
  lemma EncodeLayout(c: Content) returns (sorted: seq<Id>)
    ensures IsSorted(sorted) && multiset(sorted) == multiset(c.parents) && |sorted| == |c.parents|
    ensures var e, p, n := Encode(c), |c.parentId|, |c.parents|;
            && |e| == 9 + p + Offset(sorted, n) + 4 + |c.data|
            && e[0] as int == c.kind % 0x100
            && StrAt(e, 1, c.parentId)
            && Num(e[5 + p..9 + p]) == n % TWO_32
            && (forall k :: 0 <= k < n ==> StrAt(e, 9 + p + Offset(sorted, k), sorted[k]))
            && StrAt(e, 9 + p + Offset(sorted, n), c.data)
  {
    hide Encode, Head, Strs, Str, StrAt, Offset, Num, IsSorted, Sort;
    sorted := Sort(c.parents);
    SortIsSorted(c.parents);
    EncodeInParts(c, sorted);
    forall k | 0 <= k < |sorted| ensures StrAt(Encode(c), 9 + |c.parentId| + Offset(sorted, k), sorted[k]) {
      ParentsLayout(c, sorted, k);
    }
    DataLayout(c, sorted);
    HeadLayout(c, sorted, Strs(sorted) + Str(c.data));
    assert Head(c, sorted) + (Strs(sorted) + Str(c.data)) == Encode(c);
  }

  // ----- decoding -----

  /** The parents and the payload, and what follows them. */
  function ReadTail(b: Bytes): Option<(seq<Id>, Bytes, Bytes)> {
    match ReadList(b)
    case None => None
    case Some((parents, b')) =>
      match ReadStr(b')
      case None => None
      case Some((data, rest)) => Some((parents, data, rest))
  }

  /** Reads one event off the front of `b`; the second part is what follows it. */
  function Decode(b: Bytes): Option<(Content, Bytes)> {
    if b == [] then None else
      match ReadStr(b[1..])
      case None => None
      case Some((parentId, b')) =>
        match ReadTail(b')
        case None => None
        case Some((parents, data, rest)) => Some((Content(b[0] as int, parentId, parents, data), rest))
  }

  /** What survives encoding: the type's low byte and the parents in sorted order. */
  function Canonical(c: Content): Content {
    Content(c.kind % 0x100, c.parentId, Sort(c.parents), c.data)
  }

  predicate SameContent(a: Content, b: Content) {
    && a.kind % 0x100 == b.kind % 0x100
    && a.parentId == b.parentId
    && multiset(a.parents) == multiset(b.parents)
    && a.data == b.data
  }

  lemma SortKeepsMembers(ps: seq<Id>)
    requires forall p :: p in ps ==> Fits(p)
    ensures forall p :: p in Sort(ps) ==> Fits(p)
  {
    forall p | p in Sort(ps) ensures Fits(p) {
      assert p in multiset(Sort(ps));
      assert p in multiset(ps);
    }
  }

  lemma Regroup(k: u8, a: Bytes, b: Bytes, c: Bytes, rest: Bytes)
    ensures [k] + (a + (b + c)) + rest == [k] + (a + (b + (c + rest)))
    ensures ([k] + (a + (b + c)) + rest)[1..] == a + (b + (c + rest))
  {
  }

  lemma DecodeEncode(c: Content, rest: Bytes)
    requires InRange(c)
    ensures Decode(Encode(c) + rest) == Some((Canonical(c), rest))
  {
    var ps := Sort(c.parents);
    SortKeepsMembers(c.parents);
    Regroup(KindByte(c.kind), Str(c.parentId), List(ps), Str(c.data), rest);
    StrRoundTrip(c.parentId, List(ps) + (Str(c.data) + rest));
    ListRoundTrip(ps, Str(c.data) + rest);
    StrRoundTrip(c.data, rest);
  }

  lemma ReadTailInverts(b: Bytes, parents: seq<Id>, data: Bytes, rest: Bytes)
    requires ReadTail(b) == Some((parents, data, rest))
    ensures |parents| < TWO_32 && (forall p :: p in parents ==> Fits(p)) && Fits(data)
    ensures b == List(parents) + (Str(data) + rest)
  {
    ReadListInverts(b);
    ReadStrInverts(ReadList(b).value.1);
  }

  lemma DecodedParts(b: Bytes, c: Content, rest: Bytes) returns (tail: Bytes)
    requires Decode(b) == Some((c, rest))
    ensures b != [] && c.kind == b[0] as int
    ensures ReadStr(b[1..]) == Some((c.parentId, tail)) && ReadTail(tail) == Some((c.parents, c.data, rest))
  {
    tail := ReadStr(b[1..]).value.1;
  }

  lemma JoinParts(b: Bytes, c: Content, rest: Bytes, tail: Bytes)
    requires ReadStr(b) == Some((c.parentId, tail)) && ReadTail(tail) == Some((c.parents, c.data, rest))
    ensures InRange(c)
    ensures b == Str(c.parentId) + (List(c.parents) + (Str(c.data) + rest))
  {
    ReadTailInverts(tail, c.parents, c.data, rest);
    ReadStrInverts(b);
  }

  lemma BodyOfParts(b: Bytes, c: Content, rest: Bytes, tail: Bytes)
    requires ReadStr(b) == Some((c.parentId, tail)) && ReadTail(tail) == Some((c.parents, c.data, rest))
    requires IsSorted(c.parents)
    ensures InRange(c) && b == Body(c.parentId, Sort(c.parents), c.data) + rest
  {
    JoinParts(b, c, rest, tail);
    SortIsSorted(c.parents);
    SortedIsUnique(c.parents, Sort(c.parents));
    Regroup(0, Str(c.parentId), List(c.parents), Str(c.data), rest);
  }

  lemma PrependKind(b: Bytes, kind: int, body: Bytes)
    requires b != [] && kind == b[0] as int && b[1..] == body
    ensures b == [KindByte(kind)] + body
  {
  }

  /** Conversely, bytes that decode to sorted parents are exactly the encoder's output and the remainder. */
  lemma EncodeDecode(b: Bytes, c: Content, rest: Bytes)
    requires Decode(b) == Some((c, rest)) && IsSorted(c.parents)
    ensures InRange(c) && b == Encode(c) + rest
  {
    var tail := DecodedParts(b, c, rest);
    BodyOfParts(b[1..], c, rest, tail);
    var body := Body(c.parentId, Sort(c.parents), c.data);
    PrependKind(b, c.kind, body + rest);
    Prefixed([KindByte(c.kind)], body, rest);
  }

  /** Two events encode to the same bytes exactly when type byte, parent, parent multiset and data agree. */
  lemma EncodesEqually(a: Content, b: Content)
    requires InRange(a) && InRange(b)
    ensures Encode(a) == Encode(b) <==> SameContent(a, b)
  {
    if Encode(a) == Encode(b) {
      DecodeEncode(a, []);
      DecodeEncode(b, []);
      assert Canonical(a) == Canonical(b);
      assert multiset(Sort(a.parents)) == multiset(Sort(b.parents));
    }
    if SameContent(a, b) {
      SortIsSorted(a.parents);
      SortIsSorted(b.parents);
      SortedIsUnique(Sort(a.parents), Sort(b.parents));
    }
  }

  /** No encoding is a proper prefix of another. */
  lemma PrefixFree(a: Content, b: Content, rest: Bytes)
    requires InRange(a) && InRange(b)
    requires Encode(a) + rest == Encode(b)
    ensures rest == [] && SameContent(a, b)
  {
    DecodeEncode(a, rest);
    DecodeEncode(b, []);
    assert Encode(b) + [] == Encode(b);
    assert multiset(Sort(a.parents)) == multiset(Sort(b.parents));
  }

  lemma CanonicalInRange(c: Content)
    requires InRange(Canonical(c))
    ensures InRange(c)
  {
    assert |c.parents| == |multiset(c.parents)| == |multiset(Sort(c.parents))| == |Sort(c.parents)|;
    forall p | p in c.parents ensures Fits(p) {
      assert p in multiset(Sort(c.parents));
    }
  }

  /** Decoding gives the event back exactly when its lengths fit their fields. */
  lemma RoundTripExactly(c: Content, rest: Bytes)
    ensures Decode(Encode(c) + rest) == Some((Canonical(c), rest)) <==> InRange(c)
  {
    if InRange(c) {
      DecodeEncode(c, rest);
    }
    if Decode(Encode(c) + rest) == Some((Canonical(c), rest)) {
      SortIsSorted(c.parents);
      EncodeDecode(Encode(c) + rest, Canonical(c), rest);
      CanonicalInRange(c);
    }
  }

  function Zeros(n: nat): Bytes {
    seq(n, _ => 0)
  }

  /** Past the 32-bit length fields the encoding is ambiguous: a parent identifier of 2^32 zero bytes
      and a payload of 2^32 zero bytes are written alike. */
  lemma OverlongFieldsCollide()
    ensures var a, b := Content(MAIN, Zeros(TWO_32), [], []), Content(MAIN, [], [], Zeros(TWO_32));
            Encode(a) == Encode(b) && !SameContent(a, b) && !InRange(a) && !InRange(b)
  {
    var z := Zeros(TWO_32);
    assert |z| == TWO_32 && z != [];
    assert Be32(TWO_32) == Zeros(4) == Be32(0);
    assert List([]) == Zeros(4) && Str([]) == Zeros(4) && Str(z) == Zeros(4) + z;
    assert Zeros(4) + z + (Zeros(4) + Zeros(4)) == Zeros(4) + (Zeros(4) + (Zeros(4) + z));
  }

  // ----- identifiers -----

  /** The digest of an encoding written as a CID. Nothing is known of `f` except on `domain`, the
      byte strings that occur: there it is collision free and yields non-empty strings of CID length. */
  datatype Hash = Hash(f: Bytes -> Id, domain: iset<Bytes>)

  const CID_LENGTH: nat := 59

  ghost predicate CollisionFree(h: Hash) {
    && (forall x, y :: x in h.domain && y in h.domain && h.f(x) == h.f(y) ==> x == y)
    && (forall x :: x in h.domain ==> |h.f(x)| == CID_LENGTH)
  }

  function ComputeCID(h: Hash, c: Content): Id {
    h.f(Encode(c))
  }

  /** The content is one whose identifier is used, and its encoding loses nothing. */
  ghost predicate Occurs(h: Hash, c: Content) {
    InRange(c) && Encode(c) in h.domain
  }

  lemma SameIdSameContent(h: Hash, a: Content, b: Content)
    requires CollisionFree(h) && Occurs(h, a) && Occurs(h, b)
    ensures ComputeCID(h, a) == ComputeCID(h, b) <==> SameContent(a, b)
  {
    EncodesEqually(a, b);
  }
}
