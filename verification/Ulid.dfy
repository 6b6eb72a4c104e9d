/** Monotonic ULIDs: a 48-bit clock and 80 random bits in base 32, the random part counted up
    within one millisecond. */
module Ulid {
  import opened Basics

  const CROCKFORD: string := "0123456789ABCDEFGHJKMNPQRSTVWXYZ"

  type digit = d: int | 0 <= d < 32

  // ------------------------------------------------------------ numbers in two bases

  function Value256(s: seq<byte>): nat {
    if s == [] then 0 else 256 * Value256(s[..|s| - 1]) + s[|s| - 1] as int
  }

  function Value32(s: seq<digit>): nat {
    if s == [] then 0 else 32 * Value32(s[..|s| - 1]) + s[|s| - 1]
  }

  /** A byte shifted right. */
  function Shift(b: nat, n: nat): nat {
    if n == 0 then b else Shift(b, n - 1) / 2
  }

  /** The bits of a byte string, the first byte's highest first. */
  function BitOf(src: seq<byte>, bit: nat): (b: nat)
    requires bit < 8 * |src|
    ensures b <= 1
  {
    Shift(src[bit / 8] as int, 7 - bit % 8) % 2
  }

  /** The number the first bits make. */
  function Leading(src: seq<byte>, bits: nat): nat
    requires bits <= 8 * |src|
  {
    if bits == 0 then 0 else 2 * Leading(src, bits - 1) + BitOf(src, bits - 1)
  }

  lemma {:induction false} ByteBits(b: nat)
    requires b < 256
    ensures 128 * (Shift(b, 7) % 2) + 64 * (Shift(b, 6) % 2) + 32 * (Shift(b, 5) % 2) + 16 * (Shift(b, 4) % 2)
          + 8 * (Shift(b, 3) % 2) + 4 * (Shift(b, 2) % 2) + 2 * (Shift(b, 1) % 2) + Shift(b, 0) % 2 == b
  {
    assert Shift(b, 1) < 128 && Shift(b, 2) < 64 && Shift(b, 3) < 32 && Shift(b, 4) < 16;
    assert Shift(b, 5) < 8 && Shift(b, 6) < 4 && Shift(b, 7) < 2;
  }

  lemma {:induction false} LeadingByte(src: seq<byte>, k: nat)
    requires k < |src|
    ensures Leading(src, 8 * k + 8) == 256 * Leading(src, 8 * k) + src[k] as int
  {
    hide Shift, BitOf;
    var b := src[k] as int;
    ByteBits(b);
    BitAt(src, k, 0);
    BitAt(src, k, 1);
    BitAt(src, k, 2);
    BitAt(src, k, 3);
    BitAt(src, k, 4);
    BitAt(src, k, 5);
    BitAt(src, k, 6);
    BitAt(src, k, 7);
    assert Leading(src, 8 * k + 1) == 2 * Leading(src, 8 * k) + Shift(b, 7) % 2;
    assert Leading(src, 8 * k + 2) == 2 * Leading(src, 8 * k + 1) + Shift(b, 6) % 2;
    assert Leading(src, 8 * k + 3) == 2 * Leading(src, 8 * k + 2) + Shift(b, 5) % 2;
    assert Leading(src, 8 * k + 4) == 2 * Leading(src, 8 * k + 3) + Shift(b, 4) % 2;
    assert Leading(src, 8 * k + 5) == 2 * Leading(src, 8 * k + 4) + Shift(b, 3) % 2;
    assert Leading(src, 8 * k + 6) == 2 * Leading(src, 8 * k + 5) + Shift(b, 2) % 2;
    assert Leading(src, 8 * k + 7) == 2 * Leading(src, 8 * k + 6) + Shift(b, 1) % 2;
    assert Leading(src, 8 * k + 8) == 2 * Leading(src, 8 * k + 7) + Shift(b, 0) % 2;
  }

  lemma {:induction false} BitAt(src: seq<byte>, k: nat, j: nat)
    requires k < |src| && j < 8
    ensures BitOf(src, 8 * k + j) == Shift(src[k] as int, 7 - j) % 2
  {
    hide Shift;
    assert (8 * k + j) % 8 == j && (8 * k + j) / 8 == k;
  }

  lemma {:induction false} LeadingBytes(src: seq<byte>, k: nat)
    requires k <= |src|
    ensures Leading(src, 8 * k) == Value256(src[..k])
  {
    if k > 0 {
      LeadingBytes(src, k - 1);
      LeadingByte(src, k - 1);
      assert src[..k][..k - 1] == src[..k - 1];
    }
  }

  // ------------------------------------------------------------ packing

  /** The number some bits make, from a bit on. */
  function Bits(src: seq<byte>, from: nat, count: nat): nat
    requires from + count <= 8 * |src|
  {
    if count == 0 then 0 else 2 * Bits(src, from, count - 1) + BitOf(src, from + count - 1)
  }

  lemma {:induction false} FiveBits(src: seq<byte>, from: nat)
    requires from + 5 <= 8 * |src|
    ensures Bits(src, from, 5) < 32 && Leading(src, from + 5) == 32 * Leading(src, from) + Bits(src, from, 5)
  {
    hide BitOf;
    assert Bits(src, from, 1) == BitOf(src, from) && Leading(src, from + 1) == 2 * Leading(src, from) + Bits(src, from, 1);
    assert Leading(src, from + 2) == 4 * Leading(src, from) + Bits(src, from, 2);
    assert Leading(src, from + 3) == 8 * Leading(src, from) + Bits(src, from, 3);
    assert Leading(src, from + 4) == 16 * Leading(src, from) + Bits(src, from, 4);
  }

  /** The bits of some bytes taken five to a digit. */
  function Packed(src: seq<byte>, n: nat): (s: seq<digit>)
    requires 5 * n <= 8 * |src|
    ensures |s| == n
  {
    if n == 0 then []
    else
      FiveBits(src, 5 * (n - 1));
      Packed(src, n - 1) + [Bits(src, 5 * (n - 1), 5)]
  }

  lemma {:induction false} PackedLeads(src: seq<byte>, n: nat)
    requires 5 * n <= 8 * |src|
    ensures Value32(Packed(src, n)) == Leading(src, 5 * n)
  {
    if n > 0 {
      PackedLeads(src, n - 1);
      FiveBits(src, 5 * (n - 1));
      assert Packed(src, n)[..n - 1] == Packed(src, n - 1);
    }
  }

  /** Bytes packed five bits to a symbol, bit by bit, into a buffer from an index on. */
  method EncodeBase32(dst: array<char>, at: nat, src: seq<byte>)
    requires at <= dst.Length && 5 * (dst.Length - at) <= 8 * |src|
    modifies dst
    ensures dst[..] == old(dst[..at]) + Text(Packed(src, dst.Length - at))
  {
    hide BitOf;
    var bit := 0;
    for i := 0 to dst.Length - at
      invariant bit == 5 * i
      invariant dst[..at + i] == old(dst[..at]) + Text(Packed(src, i))
    {
      var v := 0;
      FiveBits(src, bit);
      for k := 0 to 5
        invariant bit == 5 * i + k && v == Bits(src, 5 * i, k)
        invariant dst[..at + i] == old(dst[..at]) + Text(Packed(src, i))
      {
        v := 2 * v + BitOf(src, bit);
        bit := bit + 1;
      }
      dst[at + i] := CROCKFORD[v];
      TextSnoc(Packed(src, i), v);
      assert dst[..at + i + 1] == dst[..at + i] + [CROCKFORD[v]];
    }
    assert dst[..dst.Length] == dst[..];
  }

  /** Ten bytes packed into sixteen digits are the same number. */
  lemma {:induction false} PackedValue(src: seq<byte>)
    requires |src| == 10
    ensures Value32(Packed(src, 16)) == Value256(src)
  {
    PackedLeads(src, 16);
    LeadingBytes(src, 10);
    assert src[..10] == src;
  }

  // ------------------------------------------------------------ order

  /** The order of equally long digit strings, and of equally long texts. */
  predicate Lower(a: seq<int>, b: seq<int>)
    requires |a| == |b|
  {
    a != [] && (a[0] < b[0] || (a[0] == b[0] && Lower(a[1..], b[1..])))
  }

  predicate LowerText(a: string, b: string)
    requires |a| == |b|
  {
    a != "" && (a[0] < b[0] || (a[0] == b[0] && LowerText(a[1..], b[1..])))
  }

  /** Appending to two strings already apart keeps their order; to equal ones, decides it. */
  lemma {:induction false} LowerConcat(a: seq<int>, x: seq<int>, b: seq<int>, y: seq<int>)
    requires |a| == |b| && |x| == |y|
    ensures Lower(a + x, b + y) <==> Lower(a, b) || (a == b && Lower(x, y))
    decreases |a|
  {
    if a == [] {
      assert a + x == x && b + y == y;
    } else {
      LowerConcat(a[1..], x, b[1..], y);
      assert (a + x)[1..] == a[1..] + x && (b + y)[1..] == b[1..] + y;
      assert a == [a[0]] + a[1..] && b == [b[0]] + b[1..];
    }
  }

  lemma {:induction false} LowerOne(p: int, q: int)
    ensures Lower([p], [q]) <==> p < q
  {
  }

  /** Equally long digit strings are ordered as the numbers they write, and write different ones. */
  lemma {:induction false} LowerIsLess(a: seq<digit>, b: seq<digit>)
    requires |a| == |b|
    ensures Lower(a, b) <==> Value32(a) < Value32(b)
    ensures a == b <==> Value32(a) == Value32(b)
    decreases |a|
  {
    if a != [] {
      var x, p, y, q := a[..|a| - 1], a[|a| - 1], b[..|b| - 1], b[|b| - 1];
      LowerIsLess(x, y);
      assert a == x + [p] && b == y + [q];
      LowerConcat(x, [p], y, [q]);
      LowerOne(p, q);
    }
  }

  lemma {:induction false} LowSymbolAt(d: digit)
    requires 0 <= d < 16
    ensures CROCKFORD[d] == SymbolOf(d)
  {
    var s := CROCKFORD;
    assert s[0] == '0' && s[1] == '1' && s[2] == '2' && s[3] == '3' && s[4] == '4' && s[5] == '5' && s[6] == '6' && s[7] == '7';
    assert s[8] == '8' && s[9] == '9' && s[10] == 'A' && s[11] == 'B' && s[12] == 'C' && s[13] == 'D' && s[14] == 'E' && s[15] == 'F';
  }

  lemma {:induction false} HighSymbolAt(d: digit)
    requires 16 <= d < 32
    ensures CROCKFORD[d] == SymbolOf(d)
  {
    var s := CROCKFORD;
    assert s[16] == 'G' && s[17] == 'H' && s[18] == 'J' && s[19] == 'K' && s[20] == 'M' && s[21] == 'N' && s[22] == 'P' && s[23] == 'Q';
    assert s[24] == 'R' && s[25] == 'S' && s[26] == 'T' && s[27] == 'V' && s[28] == 'W' && s[29] == 'X' && s[30] == 'Y' && s[31] == 'Z';
  }

  lemma {:induction false} SymbolAt(d: digit)
    ensures CROCKFORD[d] == SymbolOf(d)
  {
    if d < 16 {
      LowSymbolAt(d);
    } else {
      HighSymbolAt(d);
    }
  }

  lemma {:induction false} SymbolsAscend(p: digit, q: digit)
    ensures CROCKFORD[p] < CROCKFORD[q] <==> p < q
  {
    SymbolAt(p);
    SymbolAt(q);
  }

  /** The symbols run through the digits and then the letters, passing over I, L, O and U. */
  function SymbolOf(d: digit): char {
    if d < 10 then '0' + d as char
    else if d < 18 then 'A' + (d - 10) as char
    else if d < 20 then 'J' + (d - 18) as char
    else if d < 22 then 'M' + (d - 20) as char
    else if d < 27 then 'P' + (d - 22) as char
    else 'V' + (d - 27) as char
  }

  function Text(s: seq<digit>): (t: string)
    ensures |t| == |s|
  {
    if s == [] then "" else [CROCKFORD[s[0]]] + Text(s[1..])
  }

  lemma {:induction false} TextSnoc(s: seq<digit>, d: digit)
    ensures Text(s + [d]) == Text(s) + [CROCKFORD[d]]
    decreases |s|
  {
    if s == [] {
      assert s + [d] == [d] && [d][1..] == [];
    } else {
      TextSnoc(s[1..], d);
      assert (s + [d])[1..] == s[1..] + [d];
    }
  }

  lemma {:induction false} TextFront(d: digit, s: seq<digit>)
    ensures Text([d] + s) == [CROCKFORD[d]] + Text(s)
  {
    assert ([d] + s)[1..] == s;
  }

  lemma {:induction false} FrontConcat(a: seq<digit>, b: seq<digit>)
    requires a != []
    ensures a == [a[0]] + a[1..] && a + b == [a[0]] + (a[1..] + b)
  {
  }

  lemma {:induction false} TextConcat(a: seq<digit>, b: seq<digit>)
    ensures Text(a + b) == Text(a) + Text(b)
    decreases |a|
  {
    if a == [] {
      assert a + b == b;
    } else {
      hide Text;
      var d, rest := a[0], a[1..];
      TextConcat(rest, b);
      FrontConcat(a, b);
      TextFront(d, rest);
      TextFront(d, rest + b);
    }
  }

  /** Texts are ordered as the digits they spell. */
  lemma {:induction false} TextOrder(a: seq<digit>, b: seq<digit>)
    requires |a| == |b|
    ensures LowerText(Text(a), Text(b)) <==> Lower(a, b)
    decreases |a|
  {
    if a != [] {
      SymbolsAscend(a[0], b[0]);
      SymbolsAscend(b[0], a[0]);
      TextOrder(a[1..], b[1..]);
    }
  }

  // ------------------------------------------------------------ the clock

  /** A number in a fixed count of base-32 digits. */
  function Digits32(n: nat, width: nat): (s: seq<digit>)
    ensures |s| == width
  {
    if width == 0 then [] else Digits32(n / 32, width - 1) + [n % 32]
  }

  function Pow32(n: nat): nat {
    if n == 0 then 1 else 32 * Pow32(n - 1)
  }

  lemma {:induction false} DigitsValue(n: nat, width: nat)
    requires n < Pow32(width)
    ensures Value32(Digits32(n, width)) == n
  {
    if width > 0 {
      DigitsValue(n / 32, width - 1);
      assert Digits32(n, width)[..width - 1] == Digits32(n / 32, width - 1);
    }
  }

  const CLOCK: int := 0x1_0000_0000_0000

  lemma {:induction false} ClockFits()
    ensures CLOCK <= Pow32(10)
  {
    assert Pow32(2) == 1024;
    assert Pow32(4) == 32 * (32 * Pow32(2));
    assert Pow32(6) == 32 * (32 * Pow32(4));
    assert Pow32(8) == 32 * (32 * Pow32(6));
    assert Pow32(10) == 32 * (32 * Pow32(8));
  }

  // ------------------------------------------------------------ counting up

  /** A number one higher in the same bytes, or None when it does not fit. */
  function Incremented(s: seq<byte>): (r: Option<seq<byte>>)
    ensures r.Some? ==> |r.value| == |s|
  {
    if s == [] then None
    else
      var front, last := s[..|s| - 1], s[|s| - 1];
      if last != 255 then Some(front + [last + 1])
      else match Incremented(front)
        case None => None
        case Some(f) => Some(f + [0])
  }

  predicate Full(s: seq<byte>) {
    forall i | 0 <= i < |s| :: s[i] == 255
  }

  /** Counting up adds one, unless every byte is full. */
  lemma {:induction false} IncrementedAdds(s: seq<byte>)
    ensures Incremented(s).None? <==> Full(s)
    ensures Incremented(s).Some? ==> Value256(Incremented(s).value) == Value256(s) + 1
    decreases |s|
  {
    if s != [] {
      var front, last := s[..|s| - 1], s[|s| - 1];
      IncrementedAdds(front);
      assert Full(s) <==> Full(front) && last == 255;
      if Incremented(s).Some? {
        var r := Incremented(s).value;
        assert r[..|r| - 1] == if last != 255 then front else Incremented(front).value;
      }
    }
  }

  function Zeros(n: nat): seq<byte> {
    seq(n, _ => 0)
  }

  /** The carry loop, in place from the last byte: full bytes wrap to zero. */
  method IncrementRandom(b: array<byte>) returns (ok: bool)
    modifies b
    ensures ok <==> !Full(old(b[..]))
    ensures ok ==> Some(b[..]) == Incremented(old(b[..]))
    ensures !ok ==> b[..] == Zeros(b.Length)
  {
    hide Incremented, Carried;
    ghost var was := b[..];
    var i := b.Length - 1;
    NoneCarried(was);
    while i >= 0
      invariant -1 <= i < b.Length
      invariant forall j | 0 <= j <= i :: b[j] == was[j]
      invariant forall j | i < j < b.Length :: b[j] == 0 && was[j] == 255
      invariant Carried(was, i + 1)
    {
      CarryStep(was, i);
      if b[i] == 255 {
        b[i] := 0;
      } else {
        b[i] := b[i] + 1;
        CarriedInto(was, b[..], i);
        IncrementedAdds(was);
        return true;
      }
      i := i - 1;
    }
    assert b[..] == Zeros(b.Length);
    return false;
  }

  /** Counting up has come down to the first bytes: the rest are full and turn to zero. */
  ghost predicate Carried(was: seq<byte>, n: nat) {
    && n <= |was|
    && match Incremented(was[..n])
       case None => Incremented(was).None?
       case Some(f) => Incremented(was) == Some(f + Zeros(|was| - n))
  }

  lemma {:induction false} NoneCarried(was: seq<byte>)
    ensures Carried(was, |was|)
  {
    hide Incremented;
    assert was[..|was|] == was;
    assert forall r: seq<byte> :: r + Zeros(0) == r;
  }

  /** The bytes of an array whose carry has come to rest. */
  lemma {:induction false} CarriedInto(was: seq<byte>, now: seq<byte>, i: nat)
    requires i < |was| == |now| && was[i] != 255 && now[i] == was[i] + 1
    requires forall j | 0 <= j < i :: now[j] == was[j]
    requires forall j | i < j < |was| :: now[j] == 0
    ensures now == was[..i] + [was[i] + 1] + Zeros(|was| - 1 - i)
  {
  }

  lemma {:induction false} ZerosGrow(f: seq<byte>, n: nat)
    ensures f + [0] + Zeros(n) == f + Zeros(n + 1)
  {
  }

  lemma {:induction false} IncrementedFront(was: seq<byte>, i: nat)
    requires i < |was|
    ensures Incremented(was[..i + 1]) ==
      if was[i] != 255 then Some(was[..i] + [was[i] + 1])
      else match Incremented(was[..i]) case None => None case Some(f) => Some(f + [0])
  {
    assert was[..i + 1][..i] == was[..i] && was[..i + 1][i] == was[i];
  }

  lemma {:induction false} CarryStep(was: seq<byte>, i: nat)
    requires i < |was| && Carried(was, i + 1)
    ensures was[i] == 255 ==> Carried(was, i)
    ensures was[i] != 255 ==> Incremented(was) == Some(was[..i] + [was[i] + 1] + Zeros(|was| - 1 - i))
  {
    hide Incremented, Zeros;
    IncrementedFront(was, i);
    match Incremented(was[..i])
    case Some(f) => ZerosGrow(f, |was| - (i + 1));
    case None =>
  }

  // ------------------------------------------------------------ ids

  /** What the generator remembers: the last clock reading used, and the last random part. */
  datatype State = State(millis: int, random: seq<byte>)

  function IdDigits(s: State): (d: seq<digit>)
    requires |s.random| == 10
    ensures |d| == 26
  {
    Digits32(s.millis % CLOCK, 10) + Packed(s.random, 16)
  }

  function IdOf(s: State): (id: string)
    requires |s.random| == 10
    ensures |id| == 26
  {
    Text(IdDigits(s))
  }

  /** The state an id is made from: within one reading the random part counts up, and otherwise,
      or when it is full, it is drawn afresh. */
  function NextState(s: State, now: int, drawn: seq<byte>): State {
    if now != s.millis then State(now, drawn)
    else match Incremented(s.random)
      case Some(r) => State(s.millis, r)
      case None => State(now, drawn)
  }

  /** Ids are ordered by clock reading, and within one by random part. */
  lemma {:induction false} IdOrder(s: State, t: State)
    requires |s.random| == 10 && |t.random| == 10
    ensures LowerText(IdOf(s), IdOf(t)) <==>
      s.millis % CLOCK < t.millis % CLOCK
      || (s.millis % CLOCK == t.millis % CLOCK && Value256(s.random) < Value256(t.random))
  {
    hide Text, Digits32, Packed, Value32, Value256;
    var a, x := Digits32(s.millis % CLOCK, 10), Packed(s.random, 16);
    var b, y := Digits32(t.millis % CLOCK, 10), Packed(t.random, 16);
    TextOrder(IdDigits(s), IdDigits(t));
    LowerConcat(a, x, b, y);
    ClockFits();
    DigitsValue(s.millis % CLOCK, 10);
    DigitsValue(t.millis % CLOCK, 10);
    LowerIsLess(a, b);
    LowerIsLess(x, y);
    PackedValue(s.random);
    PackedValue(t.random);
  }

  lemma {:induction false} TextSpells(s: seq<digit>, i: nat)
    requires i < |s|
    ensures Text(s)[i] == CROCKFORD[s[i]]
  {
    if i > 0 {
      TextSpells(s[1..], i - 1);
    }
  }

  /** A text of 26 base-32 digits that write two numbers, one in the first ten and one in the others. */
  predicate Reads(id: string, d: seq<digit>, clock: int, random: nat) {
    && |d| == |id| == 26 && Value32(d[..10]) == clock && Value32(d[10..]) == random
    && forall i | 0 <= i < 26 :: id[i] == CROCKFORD[d[i]]
  }

  /** An id reads as 26 base-32 digits: the first ten write the clock reading within 48 bits, the others
      the random part. */
  lemma {:induction false} IdReads(s: State)
    requires |s.random| == 10
    ensures exists d: seq<digit> :: Reads(IdOf(s), d, s.millis % 0x1_0000_0000_0000, Value256(s.random))
  {
    hide Text, Digits32, Packed, Value32, Value256;
    var a, x := Digits32(s.millis % CLOCK, 10), Packed(s.random, 16);
    var d := IdDigits(s);
    assert d[..10] == a && d[10..] == x;
    ClockFits();
    DigitsValue(s.millis % CLOCK, 10);
    PackedValue(s.random);
    forall i | 0 <= i < 26
      ensures IdOf(s)[i] == CROCKFORD[d[i]]
    {
      TextSpells(d, i);
    }
    assert Reads(IdOf(s), d, s.millis % 0x1_0000_0000_0000, Value256(s.random));
  }

  /** The next id reads the clock given and the bytes drawn, but within one reading the random part counted
      up by one while it is not full. */
  lemma {:induction false} NextReads(s: State, now: int, drawn: seq<byte>)
    requires |s.random| == 10
    ensures var t := NextState(s, now, drawn);
      t.millis == now && if now != s.millis || Full(s.random) then t.random == drawn else Value256(t.random) == Value256(s.random) + 1
  {
    hide Full, Value256;
    IncrementedAdds(s.random);
  }

  lemma {:induction false} FullIsHighest(s: seq<byte>, t: seq<byte>)
    requires |s| == |t| && Full(s)
    ensures Value256(t) <= Value256(s)
    decreases |s|
  {
    if s != [] {
      FullIsHighest(s[..|s| - 1], t[..|t| - 1]);
    }
  }

  /** For clock readings within 48 bits, the next id is higher exactly when the clock moved on, or
      stood still with the random part not full. */
  lemma {:induction false} NextIsHigher(s: State, now: int, drawn: seq<byte>)
    requires |s.random| == 10 && |drawn| == 10 && 0 <= s.millis < CLOCK && 0 <= now < CLOCK
    ensures |NextState(s, now, drawn).random| == 10
    ensures LowerText(IdOf(s), IdOf(NextState(s, now, drawn))) <==>
      now > s.millis || (now == s.millis && !Full(s.random))
  {
    hide IdOf, Value256, Full, Incremented;
    var t := NextState(s, now, drawn);
    IncrementedAdds(s.random);
    IdOrder(s, t);
    if Full(s.random) {
      FullIsHighest(s.random, drawn);
    }
  }

  /** The states of a generator over some calls, each with a clock reading and fresh random bytes. */
  ghost predicate Calls(states: seq<State>, clocks: seq<int>, drawn: seq<seq<byte>>) {
    && |states| == |clocks| + 1 == |drawn| + 1
    && (forall i | 0 <= i < |states| :: |states[i].random| == 10)
    && forall i | 0 <= i < |clocks| :: |drawn[i]| == 10 && states[i + 1] == NextState(states[i], clocks[i], drawn[i])
  }

  lemma {:induction false} LowerTextTransitive(a: string, b: string, c: string)
    requires |a| == |b| == |c| && LowerText(a, b) && LowerText(b, c)
    ensures LowerText(a, c)
    decreases |a|
  {
    if a[0] == b[0] == c[0] {
      LowerTextTransitive(a[1..], b[1..], c[1..]);
    }
  }

  /** Ids strictly increase over any calls whose clock readings do not decrease, as long as the
      random part does not fill up within one reading. */
  lemma {:induction false} IdsIncrease(states: seq<State>, clocks: seq<int>, drawn: seq<seq<byte>>, i: nat, j: nat)
    requires Calls(states, clocks, drawn) && i < j < |states|
    requires forall k | 0 <= k < |clocks| :: 0 <= states[k].millis <= clocks[k] < CLOCK
    requires forall k | 0 <= k < |clocks| && clocks[k] == states[k].millis :: !Full(states[k].random)
    ensures LowerText(IdOf(states[i]), IdOf(states[j]))
    decreases j
  {
    hide IdOf, Full, NextState, LowerText;
    var k := j - 1;
    assert states[k + 1] == NextState(states[k], clocks[k], drawn[k]);
    NextIsHigher(states[k], clocks[k], drawn[k]);
    if i < k {
      IdsIncrease(states, clocks, drawn, i, k);
      LowerTextTransitive(IdOf(states[i]), IdOf(states[k]), IdOf(states[j]));
    }
  }

  // ------------------------------------------------------------ the generator

  class Generator {
    var lastMillis: int
    const lastRandom: array<byte>

    ghost predicate Valid()
      reads this
    {
      lastRandom.Length == 10
    }

    ghost function View(): State
      reads this, lastRandom
    {
      State(lastMillis, lastRandom[..])
    }

    constructor ()
      ensures Valid() && fresh(lastRandom) && View() == State(0, Zeros(10))
    {
      lastMillis := 0;
      lastRandom := new byte[10](_ => 0);
      new;
      assert lastRandom[..] == Zeros(10);
    }

    /** The next id, from a clock reading and bytes of fresh randomness. */
    method NewULID(now: int, drawn: seq<byte>) returns (id: string)
      requires Valid() && |drawn| == 10
      modifies this, lastRandom
      ensures Valid() && View() == NextState(old(View()), now, drawn) && id == IdOf(View())
    {
      var counted := false;
      if now == lastMillis {
        ghost var was := lastRandom[..];
        IncrementedAdds(was);
        counted := IncrementRandom(lastRandom);
      }
      if !counted {
        lastMillis := now;
        Draw(drawn);
      }
      id := Spell();
    }

    method Draw(drawn: seq<byte>)
      requires Valid() && |drawn| == 10
      modifies lastRandom
      ensures lastRandom[..] == drawn
    {
      for i := 0 to 10
        invariant forall j | 0 <= j < i :: lastRandom[j] == drawn[j]
      {
        lastRandom[i] := drawn[i];
      }
    }

    method Spell() returns (id: string)
      requires Valid()
      ensures id == IdOf(View())
    {
      hide Digits32, Packed, Text;
      var out := new char[26](_ => '0');
      SpellClock(out, lastMillis % CLOCK);
      EncodeBase32(out, 10, lastRandom[..]);
      TextConcat(Digits32(lastMillis % CLOCK, 10), Packed(lastRandom[..], 16));
      id := out[..];
    }
  }

  /** The clock reading in ten symbols, the last first. */
  method SpellClock(out: array<char>, clock: nat)
    requires out.Length >= 10
    modifies out
    ensures out[..10] == Text(Digits32(clock, 10))
  {
    ghost var digits := Digits32(clock, 10);
    hide Digits32, Text;
    var ts, i := clock, 10;
    assert digits[..10] == digits;
    while i > 0
      invariant 0 <= i <= 10 && Digits32(ts, i) == digits[..i]
      invariant forall j | i <= j < 10 :: out[j] == CROCKFORD[digits[j]]
    {
      DigitsSplit(ts, i);
      i := i - 1;
      out[i] := CROCKFORD[ts % 32];
      assert digits[..i + 1][..i] == digits[..i];
      ts := ts / 32;
    }
    TextOf(digits, out[..10]);
  }

  lemma {:induction false} DigitsSplit(n: nat, width: nat)
    requires width > 0
    ensures Digits32(n, width)[width - 1] == n % 32 && Digits32(n, width)[..width - 1] == Digits32(n / 32, width - 1)
  {
  }

  /** A text that spells some digits one by one is their text. */
  lemma {:induction false} TextOf(s: seq<digit>, t: string)
    requires |s| == |t| && forall j | 0 <= j < |s| :: t[j] == CROCKFORD[s[j]]
    ensures t == Text(s)
    decreases |s|
  {
    if s != [] {
      TextOf(s[1..], t[1..]);
    }
  }
}
