/** The append-only record file: each record a checksum, a space, its payload and a line end;
    a write cut short is found and cut off before the next one. */
module FileStore {
  import opened Basics

  const NEWLINE: byte := 10
  const SPACE: byte := 32

  /** The checksum of a payload, and whether a payload reads back as an entry. */
  datatype Codec = Codec(checksum: seq<byte> -> nat, readable: seq<byte> -> bool)

  // ------------------------------------------------------------ one record

  function HexDigit(n: nat): (b: byte)
    requires n < 16
    ensures b != SPACE && b != NEWLINE
  {
    if n < 10 then (48 + n) as byte else (87 + n) as byte
  }

  /** A number in a fixed count of hexadecimal digits. */
  function Hex(n: nat, digits: nat): (s: seq<byte>)
    ensures |s| == digits && SPACE !in s && NEWLINE !in s
  {
    if digits == 0 then [] else Hex(n / 16, digits - 1) + [HexDigit(n % 16)]
  }

  function Frame(c: Codec, payload: seq<byte>): seq<byte> {
    Hex(c.checksum(payload), 8) + [SPACE] + payload + [NEWLINE]
  }

  /** The first place a byte stands at or after an offset. */
  function Find(s: seq<byte>, b: byte, from: nat): (i: Option<nat>)
    ensures i.Some? ==> from <= i.value < |s| && s[i.value] == b && forall j | from <= j < i.value :: s[j] != b
    ensures i.None? ==> forall j | from <= j < |s| :: s[j] != b
    decreases |s| - from
  {
    if from >= |s| then None else if s[from] == b then Some(from) else Find(s, b, from + 1)
  }

  lemma {:induction false} FindAt(s: seq<byte>, b: byte, from: nat, i: nat)
    requires from <= i < |s| && s[i] == b && forall j | from <= j < i :: s[j] != b
    ensures Find(s, b, from) == Some(i)
  {
    hide Find;
  }

  function Trimmed(line: seq<byte>): seq<byte> {
    if line != [] && line[|line| - 1] == NEWLINE then line[..|line| - 1] else line
  }

  function Unframe(c: Codec, line: seq<byte>): Option<seq<byte>> {
    var text := Trimmed(line);
    match Find(text, SPACE, 0)
    case None => None
    case Some(i) =>
      var payload := text[i + 1..];
      if Hex(c.checksum(payload), 8) == text[..i] then Some(payload) else None
  }

  function Decode(c: Codec, line: seq<byte>): Option<seq<byte>> {
    match Unframe(c, line)
    case None => None
    case Some(payload) => if c.readable(payload) then Some(payload) else None
  }

  /** Whatever the payload and whatever the checksum, a framed payload unframes to itself. */
  lemma {:induction false} UnframeFrame(c: Codec, payload: seq<byte>)
    ensures Unframe(c, Frame(c, payload)) == Some(payload)
  {
    var sum := Hex(c.checksum(payload), 8);
    var text := Trimmed(Frame(c, payload));
    assert text == sum + [SPACE] + payload;
    assert text[8] == SPACE;
    assert forall j | 0 <= j < 8 :: text[j] == sum[j] && text[j] in sum;
    FindAt(text, SPACE, 0, 8);
    assert text[9..] == payload && text[..8] == sum;
  }

  // ------------------------------------------------------------ scanning

  /** How far a file holds whole, readable records, from an offset a record starts at. */
  function Through(c: Codec, file: seq<byte>, from: nat): (keep: nat)
    requires from <= |file|
    ensures from <= keep <= |file|
    decreases |file| - from
  {
    match Find(file, NEWLINE, from)
    case None => from
    case Some(i) => if Decode(c, file[from..i + 1]).Some? then Through(c, file, i + 1) else from
  }

  lemma {:induction false} FindPrefix(f: seq<byte>, g: seq<byte>, b: byte, from: nat, v: nat)
    requires v <= |f| && v <= |g| && f[..v] == g[..v] && Find(f, b, from).Some? && Find(f, b, from).value < v
    ensures Find(g, b, from) == Find(f, b, from)
  {
    hide Find;
    var i := Find(f, b, from).value;
    assert forall j | 0 <= j <= i :: g[j] == g[..v][j] == f[..v][j] == f[j];
  }

  lemma {:induction false} SlicesAgree(f: seq<byte>, g: seq<byte>, v: nat, a: nat, b: nat)
    requires a <= b <= v <= |f| && v <= |g| && f[..v] == g[..v]
    ensures f[a..b] == g[a..b] && f[..b] == g[..b]
  {
    assert f[a..b] == f[..v][a..b] && g[a..b] == g[..v][a..b];
    assert f[..b] == f[..v][..b] && g[..b] == g[..v][..b];
  }

  /** A file that agrees with another up to where the other was scanned is scanned on from there. */
  lemma {:induction false} ScanResumes(c: Codec, f: seq<byte>, g: seq<byte>, from: nat)
    requires from <= |f| && Through(c, f, from) <= |g| && f[..Through(c, f, from)] == g[..Through(c, f, from)]
    ensures from <= |g| && Through(c, g, from) == Through(c, g, Through(c, f, from))
    decreases |f| - from
  {
    hide Find, Decode;
    var v := Through(c, f, from);
    match Find(f, NEWLINE, from)
    case None =>
    case Some(i) =>
      if Decode(c, f[from..i + 1]).Some? {
        FindPrefix(f, g, NEWLINE, from, v);
        SlicesAgree(f, g, v, from, i + 1);
        ScanResumes(c, f, g, i + 1);
      }
  }

  /** What is kept is itself scanned to its end. */
  lemma {:induction false} KeptIsWhole(c: Codec, f: seq<byte>, from: nat)
    requires from <= |f|
    ensures var v := Through(c, f, from); Through(c, f[..v], from) == v
    decreases |f| - from
  {
    hide Find, Decode;
    var v := Through(c, f, from);
    match Find(f, NEWLINE, from)
    case None =>
    case Some(i) =>
      if Decode(c, f[from..i + 1]).Some? {
        FindPrefix(f, f[..v], NEWLINE, from, v);
        assert f[..v][from..i + 1] == f[from..i + 1];
        KeptIsWhole(c, f, i + 1);
      }
  }

  // ------------------------------------------------------------ a log cut anywhere

  function Log(c: Codec, payloads: seq<seq<byte>>): seq<byte> {
    if payloads == [] then [] else Log(c, payloads[..|payloads| - 1]) + Frame(c, payloads[|payloads| - 1])
  }

  /** A payload an entry encodes to: it reads back, and holds no line end. */
  predicate Encoded(c: Codec, payload: seq<byte>) {
    c.readable(payload) && NEWLINE !in payload
  }

  predicate AllEncoded(c: Codec, payloads: seq<seq<byte>>) {
    forall p | p in payloads :: Encoded(c, p)
  }

  lemma {:induction false} FrameEnds(c: Codec, payload: seq<byte>)
    requires Encoded(c, payload)
    ensures var f := Frame(c, payload);
      && |f| > 0 && f[|f| - 1] == NEWLINE && (forall j | 0 <= j < |f| - 1 :: f[j] != NEWLINE)
      && Decode(c, f) == Some(payload)
  {
    var f, sum := Frame(c, payload), Hex(c.checksum(payload), 8);
    UnframeFrame(c, payload);
    forall j | 0 <= j < |f| - 1
      ensures f[j] != NEWLINE
    {
      if j < 8 {
        assert f[j] == sum[j] && sum[j] in sum;
      } else if j > 8 {
        assert f[j] == payload[j - 9] && payload[j - 9] in payload;
      }
    }
  }

  lemma {:induction false} LogSnoc(c: Codec, payloads: seq<seq<byte>>, p: seq<byte>)
    ensures Log(c, payloads + [p]) == Log(c, payloads) + Frame(c, p)
  {
    assert (payloads + [p])[..|payloads|] == payloads;
  }

  /** One more record, then a piece with no line end, is scanned to the record's end. */
  lemma {:induction false} RecordScanned(c: Codec, head: seq<byte>, p: seq<byte>, torn: seq<byte>)
    requires Encoded(c, p) && NEWLINE !in torn
    ensures Through(c, head + Frame(c, p) + torn, |head|) == |head + Frame(c, p)|
  {
    hide Find, Decode;
    var f, g := Frame(c, p), head + Frame(c, p) + torn;
    FrameEnds(c, p);
    hide Frame;
    var end := |head| + |f| - 1;
    assert g[|head|..end + 1] == f;
    assert forall j | |head| <= j < end :: g[j] == f[j - |head|];
    assert g[end] == f[|f| - 1];
    FindAt(g, NEWLINE, |head|, end);
    assert forall j | end < j < |g| :: g[j] == torn[j - end - 1] && torn[j - end - 1] in torn;
    assert Find(g, NEWLINE, end + 1).None?;
  }

  /** A log followed by a record with no line end is kept up to the log's end. */
  lemma {:induction false} LogScanned(c: Codec, payloads: seq<seq<byte>>, torn: seq<byte>)
    requires AllEncoded(c, payloads) && NEWLINE !in torn
    ensures Through(c, Log(c, payloads) + torn, 0) == |Log(c, payloads)|
    decreases |payloads|
  {
    hide Find, Decode, Frame;
    if payloads == [] {
      assert Log(c, payloads) + torn == torn;
    } else {
      var front, p := payloads[..|payloads| - 1], payloads[|payloads| - 1];
      LogScanned(c, front, []);
      var head, g := Log(c, front), Log(c, payloads) + torn;
      assert head + [] == head;
      assert g[..|head|] == head;
      hide Through;
      ScanResumes(c, head, g, 0);
      RecordScanned(c, head, p, torn);
    }
  }

  lemma {:induction false} CutFrame(c: Codec, head: seq<byte>, p: seq<byte>, k: nat)
    requires Encoded(c, p) && |head| <= k < |head + Frame(c, p)|
    ensures NEWLINE !in Frame(c, p)[..k - |head|]
    ensures (head + Frame(c, p))[..k] == head + Frame(c, p)[..k - |head|]
  {
    FrameEnds(c, p);
    hide Frame;
  }

  /** A log cut at any byte holds some of its records whole and then a piece with no line end. */
  lemma {:induction false} CutLog(c: Codec, payloads: seq<seq<byte>>, k: nat) returns (n: nat, torn: seq<byte>)
    requires AllEncoded(c, payloads) && k <= |Log(c, payloads)|
    ensures n <= |payloads| && NEWLINE !in torn && Log(c, payloads)[..k] == Log(c, payloads[..n]) + torn
    ensures n < |payloads| ==> k < |Log(c, payloads[..n + 1])|
    decreases |payloads|
  {
    hide Frame;
    if k == |Log(c, payloads)| {
      n, torn := |payloads|, [];
      assert payloads[..n] == payloads;
      assert Log(c, payloads)[..k] == Log(c, payloads) + [];
    } else {
      var front, p := payloads[..|payloads| - 1], payloads[|payloads| - 1];
      if k < |Log(c, front)| {
        n, torn := CutLog(c, front, k);
        assert Log(c, front)[..k] == Log(c, payloads)[..k];
        assert front[..n] == payloads[..n];
        var whole := if n < |front| then front[..n + 1] else payloads;
        assert payloads[..n + 1] == whole;
      } else {
        CutFrame(c, Log(c, front), p, k);
        n, torn := |front|, Frame(c, p)[..k - |Log(c, front)|];
        assert payloads[..n] == front && payloads[..n + 1] == payloads;
      }
    }
  }

  /** A framed log cut at any byte is repaired to exactly the records written whole. */
  lemma {:induction false} TornLogRepaired(c: Codec, payloads: seq<seq<byte>>, k: nat) returns (n: nat)
    requires AllEncoded(c, payloads) && k <= |Log(c, payloads)|
    ensures n <= |payloads| && |Log(c, payloads[..n])| <= k
    ensures n < |payloads| ==> k < |Log(c, payloads[..n + 1])|
    ensures var cut := Log(c, payloads)[..k]; cut[..Through(c, cut, 0)] == Log(c, payloads[..n])
  {
    var torn;
    n, torn := CutLog(c, payloads, k);
    LogScanned(c, payloads[..n], torn);
    assert |Log(c, payloads)[..k]| == k;
  }

  // ------------------------------------------------------------ any file

  /** A line that reads back is the frame of what it reads back as. */
  lemma {:induction false} DecodedIsFrame(c: Codec, line: seq<byte>, p: seq<byte>)
    requires line != [] && line[|line| - 1] == NEWLINE && forall j | 0 <= j < |line| - 1 :: line[j] != NEWLINE
    requires Decode(c, line) == Some(p)
    ensures line == Frame(c, p) && Encoded(c, p)
  {
    var text := Trimmed(line);
    var i := Find(text, SPACE, 0).value;
    assert p == text[i + 1..] && Hex(c.checksum(p), 8) == text[..i];
    assert text == text[..i] + [SPACE] + p;
    assert line == text + [NEWLINE];
  }

  lemma {:induction false} LogFront(c: Codec, p: seq<byte>, payloads: seq<seq<byte>>)
    ensures Log(c, [p] + payloads) == Frame(c, p) + Log(c, payloads)
    decreases |payloads|
  {
    hide Frame;
    if payloads == [] {
      assert [p] + payloads == [] + [p];
      LogSnoc(c, [], p);
    } else {
      var front, last := payloads[..|payloads| - 1], payloads[|payloads| - 1];
      LogFront(c, p, front);
      assert [p] + payloads == [p] + front + [last];
      LogSnoc(c, [p] + front, last);
    }
  }

  /** Whatever a file holds, what a scan keeps of it is a log. */
  lemma {:induction false} KeptIsLog(c: Codec, file: seq<byte>, from: nat) returns (payloads: seq<seq<byte>>)
    requires from <= |file|
    ensures AllEncoded(c, payloads) && file[from..Through(c, file, from)] == Log(c, payloads)
    decreases |file| - from
  {
    hide Decode, Find, Frame, Encoded, AllEncoded;
    payloads := [];
    NoneEncoded(c);
    match Find(file, NEWLINE, from)
    case None =>
    case Some(i) =>
      var line := file[from..i + 1];
      var d := Decode(c, line);
      if d.Some? {
        DecodedIsFrame(c, line, d.value);
        var rest := KeptIsLog(c, file, i + 1);
        LogFront(c, d.value, rest);
        payloads := [d.value] + rest;
        SliceJoins(file, from, i + 1, Through(c, file, i + 1));
        EncodedFront(c, d.value, rest);
      }
  }

  lemma {:induction false} NoneEncoded(c: Codec)
    ensures AllEncoded(c, []) && Log(c, []) == []
  {
  }

  lemma {:induction false} SliceJoins(file: seq<byte>, from: nat, mid: nat, to: nat)
    requires from <= mid <= to <= |file|
    ensures file[from..to] == file[from..mid] + file[mid..to]
  {
  }

  lemma {:induction false} EncodedFront(c: Codec, p: seq<byte>, payloads: seq<seq<byte>>)
    requires Encoded(c, p) && AllEncoded(c, payloads)
    ensures AllEncoded(c, [p] + payloads)
  {
  }

  lemma {:induction false} KeptFromStart(c: Codec, file: seq<byte>) returns (payloads: seq<seq<byte>>)
    ensures AllEncoded(c, payloads) && file[..Through(c, file, 0)] == Log(c, payloads)
    ensures Log(c, payloads) == Log(c, payloads) + []
  {
    payloads := KeptIsLog(c, file, 0);
    assert file[0..Through(c, file, 0)] == file[..Through(c, file, 0)];
  }

  // ------------------------------------------------------------ where the last record starts

  predicate Boundary(file: seq<byte>, at: nat) {
    at == 0 || (at <= |file| && file[at - 1] == NEWLINE)
  }

  /** In a file that is whole records, one starts at every boundary. */
  lemma {:induction false} RecordAt(c: Codec, file: seq<byte>, from: nat, at: nat)
    requires from <= at < |file| && Through(c, file, from) == |file| && (at == from || file[at - 1] == NEWLINE)
    ensures var i := Find(file, NEWLINE, at); i.Some? && Decode(c, file[at..i.value + 1]).Some?
    decreases |file| - from
  {
    hide Find, Decode;
    match Find(file, NEWLINE, from)
    case None =>
    case Some(i) =>
      if at > from {
        assert i < at;
        RecordAt(c, file, i + 1, at);
      }
  }

  // ------------------------------------------------------------ reading

  /** The payloads of a file read to its end, or None when a record is torn. */
  function Entries(c: Codec, file: seq<byte>, from: nat): Option<seq<seq<byte>>>
    requires from <= |file|
    decreases |file| - from
  {
    if from == |file| then Some([])
    else match Find(file, NEWLINE, from)
      case None => None
      case Some(i) =>
        match Decode(c, file[from..i + 1])
        case None => None
        case Some(p) =>
          match Entries(c, file, i + 1)
          case None => None
          case Some(rest) => Some([p] + rest)
  }

  lemma {:induction false} LogGrows(c: Codec, payloads: seq<seq<byte>>, k: nat)
    requires k <= |payloads|
    ensures Log(c, payloads[..k]) <= Log(c, payloads)
    decreases |payloads|
  {
    if k < |payloads| {
      LogGrows(c, payloads[..|payloads| - 1], k);
      assert payloads[..|payloads| - 1][..k] == payloads[..k];
    } else {
      assert payloads[..k] == payloads;
    }
  }

  lemma {:induction false} RecordRead(c: Codec, head: seq<byte>, p: seq<byte>, file: seq<byte>)
    requires Encoded(c, p) && head + Frame(c, p) <= file
    ensures Find(file, NEWLINE, |head|) == Some(|head + Frame(c, p)| - 1)
    ensures Decode(c, file[|head|..|head + Frame(c, p)|]) == Some(p)
  {
    hide Find, Decode;
    var f, g := Frame(c, p), head + Frame(c, p);
    FrameEnds(c, p);
    hide Frame;
    assert forall j | 0 <= j < |g| :: file[j] == g[j];
    assert file[|head|..|g|] == f;
    FindAt(file, NEWLINE, |head|, |g| - 1);
  }

  /** A log reads back as the payloads it was written from, unless a torn record follows it. */
  lemma {:induction false} LogRead(c: Codec, payloads: seq<seq<byte>>, torn: seq<byte>, k: nat)
    requires AllEncoded(c, payloads) && NEWLINE !in torn && k <= |payloads|
    ensures var file := Log(c, payloads) + torn;
      && |Log(c, payloads[..k])| <= |file|
      && Entries(c, file, |Log(c, payloads[..k])|) == if torn == [] then Some(payloads[k..]) else None
    decreases |payloads| - k
  {
    hide Find, Decode, Frame;
    var file := Log(c, payloads) + torn;
    LogGrows(c, payloads, k);
    if k == |payloads| {
      assert payloads[..k] == payloads && payloads[k..] == [];
      TornTail(Log(c, payloads), torn);
    } else {
      var head, p := Log(c, payloads[..k]), payloads[k];
      assert payloads[..k + 1] == payloads[..k] + [p];
      LogSnoc(c, payloads[..k], p);
      LogGrows(c, payloads, k + 1);
      RecordRead(c, head, p, file);
      LogRead(c, payloads, torn, k + 1);
      assert payloads[k..] == [p] + payloads[k + 1..];
    }
  }

  lemma {:induction false} TornTail(head: seq<byte>, torn: seq<byte>)
    requires NEWLINE !in torn
    ensures Find(head + torn, NEWLINE, |head|).None?
  {
    hide Find;
    assert forall j | |head| <= j < |head + torn| :: (head + torn)[j] == torn[j - |head|] && torn[j - |head|] in torn;
  }

  // ------------------------------------------------------------ the store

  class Store {
    const codec: Codec
    var file: seq<byte>
    var validated: nat
    var confirmed: bool
    var lastStart: nat
    /** The file as the last repair left it, the payloads written whole, and the piece after them. */
    ghost var seen: seq<byte>
    ghost var written: seq<seq<byte>>
    ghost var torn: seq<byte>

    /** Since the last repair the file only grew. */
    ghost predicate Grown()
      reads this
    {
      confirmed ==>
        && validated == |seen| && seen <= file && Through(codec, seen, 0) == |seen|
        && (|seen| > 0 ==> lastStart < |seen| && Boundary(seen, lastStart))
    }

    ghost predicate Valid()
      reads this
    {
      Grown() && AllEncoded(codec, written) && NEWLINE !in torn && file == Log(codec, written) + torn
    }

    /** Any file is opened, and cut back to the records it starts with. */
    constructor (codec: Codec, file: seq<byte>)
      ensures Valid() && this.codec == codec && torn == []
      ensures this.file == file[..Through(codec, file, 0)] && this.file == Log(codec, written)
    {
      this.codec, this.file, validated, confirmed, lastStart := codec, file, 0, false, 0;
      seen, written, torn := [], [], [];
      new;
      RepairAny();
    }

    /** Whatever the file holds, it is cut back to the records it starts with. */
    method RepairAny()
      requires Grown()
      modifies this
      ensures Valid() && torn == []
      ensures file == old(file)[..Through(codec, old(file), 0)] && file == Log(codec, written)
    {
      hide Find, Decode, Through, Log, AllEncoded, Boundary;
      ghost var payloads := KeptFromStart(codec, file);
      var _ := Repair();
      written, torn := payloads, [];
    }

    method ReadLineAt(start: nat) returns (line: Option<seq<byte>>)
      ensures line == match Find(file, NEWLINE, start) case Some(i) => Some(file[start..i + 1]) case None => None
    {
      hide Find;
      if start >= |file| {
        return None;
      }
      var buffer: seq<byte> := [];
      for offset := start to |file|
        invariant buffer == file[start..offset] && forall j | start <= j < offset :: file[j] != NEWLINE
      {
        buffer := buffer + [file[offset]];
        assert buffer == file[start..offset + 1];
        if file[offset] == NEWLINE {
          FindAt(file, NEWLINE, start, offset);
          return Some(buffer);
        }
      }
      return None;
    }

    method ValidatedThrough(from: nat) returns (keep: nat)
      requires from <= |file|
      ensures keep == Through(codec, file, from)
    {
      hide Find, Decode;
      keep := from;
      for index := from to |file|
        invariant from <= keep <= index
        invariant forall j | keep <= j < index :: file[j] != NEWLINE
        invariant Through(codec, file, from) == Through(codec, file, keep)
      {
        if file[index] == NEWLINE {
          FindAt(file, NEWLINE, keep, index);
          if Decode(codec, file[keep..index + 1]).None? {
            return;
          }
          keep := index + 1;
        }
      }
      assert Find(file, NEWLINE, keep).None?;
    }

    /** Where the last record starts, looking back over at most 4096 bytes. */
    method LastRecordStart(size: nat) returns (start: nat)
      requires size <= |file|
      ensures size > 0 ==> start < size && Boundary(file[..size], start)
      ensures size == 0 ==> start == 0
    {
      if size == 0 {
        return 0;
      }
      var window := if size < 4096 then size else 4096;
      var index := window - 1;
      while index > 0
        invariant 0 <= index < window
      {
        if file[size - window + index - 1] == NEWLINE {
          return size - window + index;
        }
        index := index - 1;
      }
      return 0;
    }

    /** The file cut back to its whole records. The scan starts where the last one ended when the
        file only grew since; the answer says where it started. */
    method Repair() returns (from: nat)
      requires Grown()
      modifies this`file, this`validated, this`confirmed, this`lastStart, this`seen
      ensures Grown() && file == old(file)[..Through(codec, old(file), 0)]
      ensures from == if old(confirmed) && old(validated) > 0 then old(validated) else 0
    {
      hide Find, Decode, Through;
      if |file| == 0 {
        NothingThrough(codec);
        from := 0;
        Forget();
        return;
      }
      if confirmed {
        ScanResumes(codec, seen, file, 0);
      }
      if confirmed && |file| == validated {
        assert file == seen;
        from := validated;
        return;
      }
      from := ChooseStart();
      var keep := ValidatedThrough(from);
      KeptIsWhole(codec, file, 0);
      if keep != |file| {
        file := file[..keep];
      }
      assert file == old(file)[..keep];
      validated, confirmed := keep, true;
      lastStart := LastRecordStart(keep);
      seen := file;
      assert file[..keep] == file;
    }

    /** The offset a repair scans from: past the validated records if the last of them is still there. */
    method ChooseStart() returns (from: nat)
      requires Grown()
      ensures from == if confirmed && validated > 0 then validated else 0
    {
      hide Find, Decode, Through;
      from := 0;
      if confirmed && |file| >= lastStart {
        var line := ReadLineAt(lastStart);
        if validated > 0 {
          RecordStillThere(codec, seen, file, lastStart);
        }
        if line.Some? && Decode(codec, line.value).Some? {
          from := validated;
        }
      }
    }

    method Forget()
      modifies this`validated, this`confirmed, this`lastStart
      ensures validated == 0 && !confirmed && lastStart == 0
    {
      validated, confirmed, lastStart := 0, false, 0;
    }

    method RepairLog() returns (from: nat)
      requires Valid()
      modifies this
      ensures Valid() && written == old(written) && torn == [] && file == Log(codec, written)
      ensures from == if old(confirmed) && old(validated) > 0 then old(validated) else 0
    {
      hide Find, Decode, Through, Log;
      LogScanned(codec, written, torn);
      from := Repair();
      torn := [];
      assert Log(codec, written) + torn == Log(codec, written);
    }

    /** A record appended after a repair; the write may be cut at any byte. */
    method Append(payload: seq<byte>, cut: nat)
      requires Valid() && Encoded(codec, payload) && cut <= |Frame(codec, payload)|
      modifies this
      ensures Valid()
      ensures written == if cut == |Frame(codec, payload)| then old(written) + [payload] else old(written)
      ensures torn == if cut == |Frame(codec, payload)| then [] else Frame(codec, payload)[..cut]
    {
      hide Find, Decode, Through, Log;
      var _ := RepairLog();
      FrameEnds(codec, payload);
      var line := Frame(codec, payload);
      hide Frame;
      file := file + line[..cut];
      if cut == |line| {
        LogSnoc(codec, written, payload);
        written, torn := written + [payload], [];
        assert line[..cut] == line && file == Log(codec, written) + [];
      } else {
        torn := line[..cut];
      }
    }

    /** Every entry, or an error when a torn record is found. */
    method Read() returns (entries: Option<seq<seq<byte>>>)
      requires Valid()
      modifies this`validated, this`confirmed, this`lastStart
      ensures Valid()
      ensures entries == if torn == [] then Some(written) else None
    {
      hide Find, Decode, Through, Log;
      LogRead(codec, written, torn, 0);
      NoLog(codec, written);
      var start := 0;
      var found: seq<seq<byte>> := [];
      ghost var all := Entries(codec, file, 0);
      assert all.Some? ==> found + all.value == all.value;
      while start < |file|
        invariant start <= |file| && Valid()
        invariant all == match Entries(codec, file, start) case None => None case Some(rest) => Some(found + rest)
        decreases |file| - start
      {
        var line := ReadLineAt(start);
        if line.None? {
          Forget();
          return None;
        }
        var entry := Decode(codec, line.value);
        if entry.None? {
          Forget();
          return None;
        }
        assert forall rest :: found + ([entry.value] + rest) == (found + [entry.value]) + rest;
        found := found + [entry.value];
        start := start + |line.value|;
      }
      assert found + [] == found;
      return Some(found);
    }
  }

  lemma {:induction false} NothingThrough(c: Codec)
    ensures Through(c, [], 0) == 0
  {
  }

  lemma {:induction false} NoLog(c: Codec, payloads: seq<seq<byte>>)
    ensures |Log(c, payloads[..0])| == 0 && payloads[0..] == payloads
  {
  }

  /** A store opened over a log with a torn piece after it holds exactly the log's records. */
  lemma {:induction false} OpenedLog(c: Codec, payloads: seq<seq<byte>>, torn: seq<byte>, written: seq<seq<byte>>)
    requires AllEncoded(c, payloads) && NEWLINE !in torn && AllEncoded(c, written)
    requires var file := Log(c, payloads) + torn; file[..Through(c, file, 0)] == Log(c, written)
    ensures written == payloads
  {
    hide Find, Decode, Through, Frame, Log;
    var file := Log(c, payloads) + torn;
    LogScanned(c, payloads, torn);
    assert file[..|Log(c, payloads)|] == Log(c, payloads);
    LogRead(c, payloads, [], 0);
    LogRead(c, written, [], 0);
    NoLog(c, payloads);
    NoLog(c, written);
    assert Log(c, payloads) + [] == Log(c, payloads) && Log(c, written) + [] == Log(c, written);
  }

  /** The record a repair marked as its last still starts where it did in a file that grew. */
  lemma {:induction false} RecordStillThere(c: Codec, seen: seq<byte>, file: seq<byte>, at: nat)
    requires seen <= file && Through(c, seen, 0) == |seen| && at < |seen| && Boundary(seen, at)
    ensures var i := Find(file, NEWLINE, at); i.Some? && Decode(c, file[at..i.value + 1]).Some?
  {
    hide Find, Decode;
    RecordAt(c, seen, 0, at);
    var i := Find(seen, NEWLINE, at).value;
    assert file[..|seen|] == seen;
    assert seen[..|seen|] == seen;
    FindPrefix(seen, file, NEWLINE, at, |seen|);
    SlicesAgree(seen, file, |seen|, at, i + 1);
  }
}
