/** The text cursors are made of: decimal numbers, separators, and the encoding around them. */
module CursorText {
  import opened Basics

  predicate IsDigit(c: char) {
    '0' <= c <= '9'
  }

  predicate AllDigits(s: string) {
    forall i | 0 <= i < |s| :: IsDigit(s[i])
  }

  function Digit(n: nat): (c: char)
    requires n < 10
    ensures IsDigit(c) && c as int - '0' as int == n
  {
    '0' + n as char
  }

  function Digits(n: nat): (s: string)
    ensures |s| > 0 && AllDigits(s)
  {
    if n < 10 then [Digit(n)] else Digits(n / 10) + [Digit(n % 10)]
  }

  function ValueOf(s: string): nat
    requires AllDigits(s)
  {
    if s == "" then 0 else 10 * ValueOf(s[..|s| - 1]) + (s[|s| - 1] as int - '0' as int)
  }

  lemma {:induction false} ValueOfDigits(n: nat)
    ensures ValueOf(Digits(n)) == n
  {
    if n < 10 {
      assert Digits(n)[..0] == "";
    } else {
      ValueOfDigits(n / 10);
      assert Digits(n)[..|Digits(n)| - 1] == Digits(n / 10);
    }
  }

  type int64 = x: int | -0x8000_0000_0000_0000 <= x < 0x8000_0000_0000_0000

  predicate InRange(n: int) {
    -0x8000_0000_0000_0000 <= n < 0x8000_0000_0000_0000
  }

  function Format(n: int): string {
    if n < 0 then "-" + Digits(-n) else Digits(n)
  }

  /** A signed 64-bit number: an optional sign and at least one digit. */
  function Parse(s: string): Option<int64> {
    var negative := s != "" && s[0] == '-';
    var signed := s != "" && (s[0] == '-' || s[0] == '+');
    var digits := if signed then s[1..] else s;
    if digits == "" || !AllDigits(digits) then None
    else
      var n: int := if negative then -(ValueOf(digits) as int) else ValueOf(digits);
      if InRange(n) then Some(n) else None
  }

  lemma {:induction false} ParseFormat(n: int64)
    ensures Parse(Format(n)) == Some(n)
  {
    var m: int := n;
    if m < 0 {
      ValueOfDigits(-m);
      assert Format(m)[1..] == Digits(-m);
    } else {
      ValueOfDigits(n);
      assert IsDigit(Digits(n)[0]);
    }
  }

  /** Formatted numbers hold digits and at most a sign, so they never hold a separator. */
  lemma {:induction false} FormatPlain(n: int)
    ensures forall i | 0 <= i < |Format(n)| :: Format(n)[i] == '-' || IsDigit(Format(n)[i])
  {
  }

  /** The first place a character stands, as text is cut at it. */
  function Find(s: string, c: char, from: nat): (i: Option<nat>)
    requires from <= |s|
    ensures i.Some? ==> from <= i.value < |s| && s[i.value] == c && forall j | from <= j < i.value :: s[j] != c
    ensures i.None? ==> forall j | from <= j < |s| :: s[j] != c
    decreases |s| - from
  {
    if from == |s| then None else if s[from] == c then Some(from) else Find(s, c, from + 1)
  }

  /** The text encoding a cursor is wrapped in. */
  datatype Base64 = Base64(encode: string -> string, decode: string -> Option<string>)

  ghost predicate Lawful(b: Base64) {
    (forall s :: b.decode(b.encode(s)) == Some(s)) && b.encode("") == ""
  }

  type uint64 = x: int | 0 <= x < 0x1_0000_0000_0000_0000

  /** An unsigned 64-bit number: digits and nothing else. */
  function ParseUnsigned(s: string): Option<uint64> {
    if s == "" || !AllDigits(s) || ValueOf(s) >= 0x1_0000_0000_0000_0000 then None else Some(ValueOf(s))
  }

  lemma {:induction false} ParseDigits(n: uint64)
    ensures ParseUnsigned(Digits(n)) == Some(n)
  {
    ValueOfDigits(n);
  }

  // ------------------------------------------------------------ fields

  function Count(s: string, c: char): nat {
    if s == "" then 0 else Count(s[..|s| - 1], c) + if s[|s| - 1] == c then 1 else 0
  }

  /** The fields between separators. */
  function Split(s: string, c: char): (fields: seq<string>)
    ensures |fields| > 0
    decreases |s|
  {
    match Find(s, c, 0)
    case None => [s]
    case Some(i) => [s[..i]] + Split(s[i + 1..], c)
  }

  lemma {:induction false} CountConcat(a: string, b: string, c: char)
    ensures Count(a + b, c) == Count(a, c) + Count(b, c)
    decreases |b|
  {
    if b == "" {
      assert a + b == a;
    } else {
      CountConcat(a, b[..|b| - 1], c);
      assert (a + b)[..|a + b| - 1] == a + b[..|b| - 1];
    }
  }

  lemma {:induction false} CountNone(s: string, c: char)
    ensures Count(s, c) == 0 <==> c !in s
    decreases |s|
  {
    if s != "" {
      CountNone(s[..|s| - 1], c);
      assert s == s[..|s| - 1] + [s[|s| - 1]];
    }
  }

  lemma {:induction false} SplitCount(s: string, c: char)
    ensures |Split(s, c)| == 1 + Count(s, c)
    decreases |s|
  {
    match Find(s, c, 0)
    case None => CountNone(s, c);
    case Some(i) =>
      SplitCount(s[i + 1..], c);
      assert s == s[..i] + [c] + s[i + 1..];
      CountConcat(s[..i] + [c], s[i + 1..], c);
      CountConcat(s[..i], [c], c);
      CountNone(s[..i], c);
      assert [c][..0] == "";
  }

  lemma {:induction false} SplitFirst(a: string, rest: string, c: char)
    requires c !in a
    ensures Split(a + [c] + rest, c) == [a] + Split(rest, c)
  {
    var s := a + [c] + rest;
    assert s[|a|] == c;
    assert forall j | 0 <= j < |a| :: s[j] == a[j] && a[j] in a;
    assert Find(s, c, 0) == Some(|a|);
    assert s[..|a|] == a && s[|a| + 1..] == rest;
  }

  lemma {:induction false} SplitLast(a: string, c: char)
    requires c !in a
    ensures Split(a, c) == [a]
  {
    assert forall j | 0 <= j < |a| :: a[j] in a;
  }

  lemma {:induction false} DigitsPlain(n: nat, c: char)
    requires !IsDigit(c)
    ensures c !in Digits(n)
  {
    forall i | 0 <= i < |Digits(n)|
      ensures Digits(n)[i] != c
    {
      assert IsDigit(Digits(n)[i]);
    }
  }
}
