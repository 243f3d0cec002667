/** Byte strings, their lexicographic order, and the length-prefixed primitives of the
    canonical event encoding. Go strings are byte strings, so identifiers live here too. */
module Wire {
  newtype u8 = x: int | 0 <= x < 0x100

  type Bytes = seq<u8>

  type Id = Bytes

  datatype Option<+T> = None | Some(value: T)

  const TWO_32: nat := 0x1_0000_0000

  // ----- 32-bit big-endian length fields -----

  /** What `uint32(n)` keeps of a length, written big-endian. */
  function Be32(n: nat): (b: Bytes)
    ensures |b| == 4
  {
    var w := n % TWO_32;
    [(w / 0x100_0000) as u8, (w / 0x1_0000 % 0x100) as u8, (w / 0x100 % 0x100) as u8, (w % 0x100) as u8]
  }

  /** The number a string of digits to the base 256 spells, most significant first. */
  function Num(b: Bytes): nat {
    if b == [] then 0 else Num(b[..|b| - 1]) * 0x100 + b[|b| - 1] as nat
  }

  lemma NumOfFour(b: Bytes)
    requires |b| == 4
    ensures Num(b) == ((b[0] as nat * 0x100 + b[1] as nat) * 0x100 + b[2] as nat) * 0x100 + b[3] as nat
  {
    var b3, b2, b1 := b[..3], b[..2], b[..1];
    assert b[..|b| - 1] == b3 && b3[..|b3| - 1] == b2 && b2[..|b2| - 1] == b1 && b1[..|b1| - 1] == [];
    assert Num(b1) == b[0] as nat;
    assert Num(b2) == Num(b1) * 0x100 + b[1] as nat;
    assert Num(b3) == Num(b2) * 0x100 + b[2] as nat;
  }

  /** A length field spells the length modulo 2^32, most significant byte first. */
  lemma Be32IsBigEndian(n: nat)
    ensures Num(Be32(n)) == n % TWO_32
  {
    var w := n % TWO_32;
    NumOfFour(Be32(n));
    Quotients(w);
  }

  lemma Quotients(w: nat)
    ensures w / 0x1_0000 == w / 0x100 / 0x100 && w / 0x100_0000 == w / 0x1_0000 / 0x100
  {
    var a := w / 0x100;
    var b := a / 0x100;
    var c := b / 0x100;
    assert w == a * 0x100 + w % 0x100 && a == b * 0x100 + a % 0x100;
    assert w == b * 0x1_0000 + (a % 0x100 * 0x100 + w % 0x100);
    assert b == c * 0x100 + b % 0x100;
    assert w == c * 0x100_0000 + (b % 0x100 * 0x1_0000 + a % 0x100 * 0x100 + w % 0x100);
  }

  function FromBe32(b: Bytes): nat
    requires |b| >= 4
  {
    b[0] as nat * 0x100_0000 + b[1] as nat * 0x1_0000 + b[2] as nat * 0x100 + b[3] as nat
  }

  lemma Be32RoundTrip(n: nat, rest: Bytes)
    ensures FromBe32(Be32(n) + rest) == n % TWO_32
  {
    var w := n % TWO_32;
    var hi := w / 0x1_0000;
    assert hi == (w / 0x100_0000) * 0x100 + hi % 0x100;
    assert w / 0x100 == hi * 0x100 + w / 0x100 % 0x100;
  }

  lemma Digits(a: nat, b: nat, c: nat, d: nat)
    requires a < 0x100 && b < 0x100 && c < 0x100 && d < 0x100
    ensures var w := a * 0x100_0000 + b * 0x1_0000 + c * 0x100 + d;
            w < TWO_32 && w / 0x100_0000 == a && w / 0x1_0000 % 0x100 == b && w / 0x100 % 0x100 == c && w % 0x100 == d
  {
    var w := a * 0x100_0000 + b * 0x1_0000 + c * 0x100 + d;
    assert w / 0x100 == a * 0x1_0000 + b * 0x100 + c;
    assert w / 0x1_0000 == a * 0x100 + b;
  }

  /** Four bytes are the field of the number they spell. */
  lemma Be32OfFields(b: Bytes)
    requires |b| == 4
    ensures FromBe32(b) < TWO_32
    ensures Be32(FromBe32(b)) == b
  {
    Digits(b[0] as nat, b[1] as nat, b[2] as nat, b[3] as nat);
    var w := FromBe32(b);
    assert w % TWO_32 == w;
    assert Be32(w)[0] == b[0] && Be32(w)[1] == b[1] && Be32(w)[2] == b[2] && Be32(w)[3] == b[3];
  }

  // ----- lexicographic order and sorting, as `sort.Strings` uses them -----

  predicate Leq(a: Bytes, b: Bytes) {
    a == [] || (b != [] && (a[0] < b[0] || (a[0] == b[0] && Leq(a[1..], b[1..]))))
  }

  lemma {:induction false} LeqTotal(a: Bytes, b: Bytes)
    ensures Leq(a, b) || Leq(b, a)
  {
    if a != [] && b != [] && a[0] == b[0] {
      LeqTotal(a[1..], b[1..]);
    }
  }

  lemma {:induction false} LeqAntisymmetric(a: Bytes, b: Bytes)
    requires Leq(a, b) && Leq(b, a)
    ensures a == b
  {
    if a != [] && b != [] {
      LeqAntisymmetric(a[1..], b[1..]);
      assert a == [a[0]] + a[1..] && b == [b[0]] + b[1..];
    }
  }

  lemma {:induction false} LeqTransitive(a: Bytes, b: Bytes, c: Bytes)
    requires Leq(a, b) && Leq(b, c)
    ensures Leq(a, c)
  {
    if a != [] && a[0] == b[0] && b[0] == c[0] {
      LeqTransitive(a[1..], b[1..], c[1..]);
    }
  }

  predicate DiffersFirstAt(a: Bytes, b: Bytes, i: nat) {
    i < |a| && i < |b| && a[..i] == b[..i] && a[i] != b[i]
  }

  /** At the first difference, if there is one, `a` has the smaller byte. */
  ghost predicate Precedes(a: Bytes, b: Bytes) {
    exists i: nat :: DiffersFirstAt(a, b, i) && a[i] < b[i]
  }

  lemma DifferenceShifts(x: u8, a: Bytes, b: Bytes, i: nat)
    ensures DiffersFirstAt([x] + a, [x] + b, i + 1) <==> DiffersFirstAt(a, b, i)
  {
    if i <= |a| && i <= |b| {
      assert ([x] + a)[..i + 1] == [x] + a[..i] && ([x] + b)[..i + 1] == [x] + b[..i];
      assert ([x] + a[..i])[1..] == a[..i] && ([x] + b[..i])[1..] == b[..i];
    }
  }

  lemma PrecedesShifts(x: u8, a: Bytes, b: Bytes)
    ensures Precedes([x] + a, [x] + b) <==> Precedes(a, b)
  {
    if Precedes(a, b) {
      var i: nat :| DiffersFirstAt(a, b, i) && a[i] < b[i];
      DifferenceShifts(x, a, b, i);
      assert ([x] + a)[i + 1] < ([x] + b)[i + 1];
    }
    if Precedes([x] + a, [x] + b) {
      var i: nat :| DiffersFirstAt([x] + a, [x] + b, i) && ([x] + a)[i] < ([x] + b)[i];
      DifferenceShifts(x, a, b, i - 1);
      assert a[i - 1] < b[i - 1];
    }
  }

  /** The order is the lexicographic one: a prefix comes first, and otherwise the first difference decides. */
  lemma {:induction false} LeqIsLexicographic(a: Bytes, b: Bytes)
    ensures Leq(a, b) <==> a <= b || Precedes(a, b)
  {
    if a != [] && b != [] {
      assert a == [a[0]] + a[1..] && b == [b[0]] + b[1..];
      if a[0] == b[0] {
        LeqIsLexicographic(a[1..], b[1..]);
        PrecedesShifts(a[0], a[1..], b[1..]);
        assert a <= b <==> a[1..] <= b[1..];
      } else {
        FirstByteDecides(a, b);
      }
    }
  }

  lemma SamePrefixSameHead(a: Bytes, b: Bytes, i: nat)
    ensures 0 < i <= |a| && i <= |b| && a[..i] == b[..i] ==> a[0] == b[0]
  {
    if 0 < i <= |a| && i <= |b| {
      assert a[0] == a[..i][0] && b[0] == b[..i][0];
    }
  }

  lemma FirstByteDecides(a: Bytes, b: Bytes)
    requires a != [] && b != [] && a[0] != b[0]
    ensures Precedes(a, b) <==> a[0] < b[0]
  {
    assert DiffersFirstAt(a, b, 0);
    forall i: nat | DiffersFirstAt(a, b, i) ensures i == 0 {
      SamePrefixSameHead(a, b, i);
    }
  }

  predicate IsSorted(ss: seq<Bytes>) {
    forall i, j :: 0 <= i < j < |ss| ==> Leq(ss[i], ss[j])
  }

  function Insert(s: Bytes, sorted: seq<Bytes>): (r: seq<Bytes>)
    ensures multiset(r) == multiset(sorted) + multiset{s}
  {
    if sorted == [] || Leq(s, sorted[0]) then
      [s] + sorted
    else
      assert sorted == [sorted[0]] + sorted[1..];
      [sorted[0]] + Insert(s, sorted[1..])
  }

  function Sort(ss: seq<Bytes>): (r: seq<Bytes>)
    ensures multiset(r) == multiset(ss)
    ensures |r| == |ss|
  {
    if ss == [] then [] else
      assert ss == [ss[0]] + ss[1..];
      var r := Insert(ss[0], Sort(ss[1..]));
      assert |r| == |multiset(r)| && |ss| == |multiset(ss)|;
      r
  }

  lemma {:induction false} InsertIsSorted(s: Bytes, sorted: seq<Bytes>)
    requires IsSorted(sorted)
    ensures IsSorted(Insert(s, sorted))
  {
    if sorted == [] {
    } else if Leq(s, sorted[0]) {
      forall i | 0 <= i < |sorted| ensures Leq(s, sorted[i]) {
        if i > 0 { LeqTransitive(s, sorted[0], sorted[i]); }
      }
    } else {
      LeqTotal(s, sorted[0]);
      var rest := Insert(s, sorted[1..]);
      InsertIsSorted(s, sorted[1..]);
      forall i | 0 <= i < |rest| ensures Leq(sorted[0], rest[i]) {
        assert rest[i] in multiset(rest);
        assert rest[i] == s || rest[i] in multiset(sorted[1..]);
      }
    }
  }

  lemma {:induction false} SortIsSorted(ss: seq<Bytes>)
    ensures IsSorted(Sort(ss))
  {
    if ss != [] {
      SortIsSorted(ss[1..]);
      InsertIsSorted(ss[0], Sort(ss[1..]));
    }
  }

  lemma HeadIsLeast(ss: seq<Bytes>, x: Bytes)
    requires IsSorted(ss) && x in ss
    ensures Leq(ss[0], x)
  {
    LeqTotal(x, x);
  }

  lemma EqualMultisetTails(a: seq<Bytes>, b: seq<Bytes>)
    requires multiset(a) == multiset(b) && a != [] && b != [] && a[0] == b[0]
    ensures multiset(a[1..]) == multiset(b[1..])
  {
    assert a == [a[0]] + a[1..] && b == [b[0]] + b[1..];
    assert multiset(a[1..]) == multiset(a) - multiset{a[0]};
  }

  lemma EqualMultisetHeads(a: seq<Bytes>, b: seq<Bytes>)
    requires IsSorted(a) && IsSorted(b) && multiset(a) == multiset(b) && a != []
    ensures b != [] && a[0] == b[0]
  {
    assert a[0] in multiset(b);
    assert b[0] in multiset(a);
    HeadIsLeast(a, b[0]);
    HeadIsLeast(b, a[0]);
    LeqAntisymmetric(a[0], b[0]);
  }

  /** A multiset of strings has one sorted listing, so any correct sorting routine writes the same bytes. */
  lemma {:induction false} SortedIsUnique(a: seq<Bytes>, b: seq<Bytes>)
    requires IsSorted(a) && IsSorted(b) && multiset(a) == multiset(b)
    ensures a == b
  {
    if a == [] {
      assert |b| == |multiset(b)|;
    } else {
      EqualMultisetHeads(a, b);
      EqualMultisetTails(a, b);
      SortedIsUnique(a[1..], b[1..]);
      assert a == [a[0]] + a[1..] && b == [b[0]] + b[1..];
    }
  }

  // ----- length-prefixed strings -----

  function Str(s: Bytes): Bytes {
    Be32(|s|) + s
  }

  function Strs(ss: seq<Bytes>): Bytes {
    if ss == [] then [] else Str(ss[0]) + Strs(ss[1..])
  }

  predicate Fits(s: Bytes) {
    |s| < TWO_32
  }

  /** Reads one length-prefixed string off the front; the second part is what follows it. */
  function ReadStr(b: Bytes): Option<(Bytes, Bytes)> {
    if |b| < 4 then None
    else if |b| < 4 + FromBe32(b) then None
    else Some((b[4..4 + FromBe32(b)], b[4 + FromBe32(b)..]))
  }

  function ReadStrs(n: nat, b: Bytes): Option<(seq<Bytes>, Bytes)> {
    if n == 0 then Some(([], b)) else
      match ReadStr(b)
      case None => None
      case Some((s, rest)) =>
        match ReadStrs(n - 1, rest)
        case None => None
        case Some((ss, tail)) => Some(([s] + ss, tail))
  }

  lemma Prefixed(head: Bytes, tail: Bytes, rest: Bytes)
    ensures head + tail + rest == head + (tail + rest)
    ensures (head + tail + rest)[|head|..] == tail + rest
  {
  }

  lemma StrRoundTrip(s: Bytes, rest: Bytes)
    requires Fits(s)
    ensures ReadStr(Str(s) + rest) == Some((s, rest))
  {
    Prefixed(Be32(|s|), s, rest);
    Be32RoundTrip(|s|, s + rest);
    var b := Str(s) + rest;
    assert b[4..4 + |s|] == b[4..][..|s|] && b[4 + |s|..] == b[4..][|s|..];
  }

  lemma {:induction false} StrsRoundTrip(ss: seq<Bytes>, rest: Bytes)
    requires forall s :: s in ss ==> Fits(s)
    ensures ReadStrs(|ss|, Strs(ss) + rest) == Some((ss, rest))
  {
    if ss == [] {
      assert Strs(ss) + rest == rest;
    } else {
      var more := Strs(ss[1..]) + rest;
      StrRoundTrip(ss[0], more);
      Prefixed(Str(ss[0]), Strs(ss[1..]), rest);
      StrsRoundTrip(ss[1..], rest);
      assert ss == [ss[0]] + ss[1..];
    }
  }

  /** Whatever is read off the front was written there by `Str`. */
  lemma ReadStrInverts(b: Bytes)
    requires ReadStr(b).Some?
    ensures Fits(ReadStr(b).value.0)
    ensures b == Str(ReadStr(b).value.0) + ReadStr(b).value.1
  {
    var (s, rest) := ReadStr(b).value;
    Be32OfFields(b[..4]);
    assert FromBe32(b) == FromBe32(b[..4]) == |s|;
    assert b == b[..4] + s + rest;
  }

  lemma {:induction false} ReadStrsInverts(n: nat, b: Bytes)
    requires ReadStrs(n, b).Some?
    ensures |ReadStrs(n, b).value.0| == n
    ensures forall s :: s in ReadStrs(n, b).value.0 ==> Fits(s)
    ensures b == Strs(ReadStrs(n, b).value.0) + ReadStrs(n, b).value.1
  {
    if n > 0 {
      ReadStrInverts(b);
      var (s, rest) := ReadStr(b).value;
      ReadStrsInverts(n - 1, rest);
      var (ss, tail) := ReadStrs(n - 1, rest).value;
      assert ([s] + ss)[1..] == ss;
      assert Str(s) + (Strs(ss) + tail) == Str(s) + Strs(ss) + tail;
    }
  }

  // ----- counted lists of strings -----

  function List(ss: seq<Bytes>): Bytes {
    Be32(|ss|) + Strs(ss)
  }

  function ReadList(b: Bytes): Option<(seq<Bytes>, Bytes)> {
    if |b| < 4 then None else ReadStrs(FromBe32(b), b[4..])
  }

  lemma ListFrame(n: nat, body: Bytes, rest: Bytes)
    requires n < TWO_32
    ensures var b := Be32(n) + body + rest; FromBe32(b) == n && b[4..] == body + rest
  {
    Prefixed(Be32(n), body, rest);
    Be32RoundTrip(n, body + rest);
  }

  lemma ListRoundTrip(ss: seq<Bytes>, rest: Bytes)
    requires |ss| < TWO_32 && forall s :: s in ss ==> Fits(s)
    ensures ReadList(List(ss) + rest) == Some((ss, rest))
  {
    var body := Strs(ss);
    StrsRoundTrip(ss, rest);
    ListFrame(|ss|, body, rest);
  }

  lemma ReadListInverts(b: Bytes)
    requires ReadList(b).Some?
    ensures var ss := ReadList(b).value.0; |ss| < TWO_32 && forall s :: s in ss ==> Fits(s)
    ensures b == List(ReadList(b).value.0) + ReadList(b).value.1
  {
    Be32OfFields(b[..4]);
    assert FromBe32(b[..4]) == FromBe32(b);
    ReadStrsInverts(FromBe32(b), b[4..]);
    var (ss, rest) := ReadList(b).value;
    assert b == b[..4] + b[4..];
    assert Be32(|ss|) + (Strs(ss) + rest) == List(ss) + rest;
  }
}
