/** Paging through a session's transcript: ids derived from offsets, pages bounded by count and
    bytes, and cursors that survive growth. */
module Transcript {
  import opened Basics
  import opened CursorText

  const PAGE_BYTES: nat := 524288

  datatype Item = Item(offset: uint64, body: nat)

  /** How far an entry is cut down; no bound is no cut. */
  datatype Cut = Cut(bound: Option<nat>, reduce: bool, keep: nat)

  const UNCUT := Cut(None, false, 0)

  /** The size an entry encodes to under a cut, and the parts its message has, at least one. */
  datatype Sizer = Sizer(size: (Item, Cut) -> nat, parts: Item -> nat)

  // ------------------------------------------------------------ entry ids

  /** How many items right before this one share its offset. */
  function RepeatOf(items: seq<Item>, i: nat): nat
    requires i < |items|
  {
    if i > 0 && items[i - 1].offset == items[i].offset then RepeatOf(items, i - 1) + 1 else 0
  }

  function Name(offset: nat, repeat: nat): string {
    "e" + Digits(offset) + if repeat > 0 then "." + Digits(repeat) else ""
  }

  function IDs(items: seq<Item>): (ids: seq<string>)
    ensures |ids| == |items|
  {
    seq(|items|, i requires 0 <= i < |items| => Name(items[i].offset, RepeatOf(items, i)))
  }

  predicate Nondecreasing(items: seq<Item>) {
    forall i, j | 0 <= i < j < |items| :: items[i].offset <= items[j].offset
  }

  predicate Distinct(ids: seq<string>) {
    forall i, j | 0 <= i < j < |ids| :: ids[i] != ids[j]
  }

  lemma {:induction false} DigitsInjective(a: nat, b: nat)
    requires Digits(a) == Digits(b)
    ensures a == b
  {
    ValueOfDigits(a);
    ValueOfDigits(b);
  }

  lemma {:induction false} NameSplits(offset: nat, repeat: nat)
    ensures Split(Name(offset, repeat), '.') == if repeat > 0 then ["e" + Digits(offset), Digits(repeat)] else ["e" + Digits(offset)]
  {
    DigitsPlain(offset, '.');
    DigitsPlain(repeat, '.');
    var head := "e" + Digits(offset);
    assert '.' !in head;
    if repeat > 0 {
      assert Name(offset, repeat) == head + ['.'] + Digits(repeat);
      SplitFirst(head, Digits(repeat), '.');
      SplitLast(Digits(repeat), '.');
    } else {
      assert Name(offset, repeat) == head;
      SplitLast(head, '.');
    }
  }

  lemma {:induction false} NameInjective(a: nat, r: nat, b: nat, s: nat)
    requires Name(a, r) == Name(b, s)
    ensures a == b && r == s
  {
    NameSplits(a, r);
    NameSplits(b, s);
    var x, y := Split(Name(a, r), '.'), Split(Name(b, s), '.');
    assert x[0][1..] == Digits(a) && y[0][1..] == Digits(b);
    DigitsInjective(a, b);
    if r > 0 {
      assert x[1] == Digits(r) && y[1] == Digits(s);
      DigitsInjective(r, s);
    }
  }

  lemma {:induction false} RepeatGrows(items: seq<Item>, i: nat, j: nat)
    requires Nondecreasing(items) && i < j < |items| && items[i].offset == items[j].offset
    ensures RepeatOf(items, i) < RepeatOf(items, j)
    decreases j
  {
    assert items[i].offset <= items[j - 1].offset <= items[j].offset;
    if i < j - 1 {
      RepeatGrows(items, i, j - 1);
    }
  }

  /** With nondecreasing offsets the ids are distinct. */
  lemma {:induction false} IDsDistinct(items: seq<Item>)
    requires Nondecreasing(items)
    ensures Distinct(IDs(items))
  {
    var ids := IDs(items);
    forall i, j | 0 <= i < j < |ids|
      ensures ids[i] != ids[j]
    {
      if ids[i] == ids[j] {
        NameInjective(items[i].offset, RepeatOf(items, i), items[j].offset, RepeatOf(items, j));
        RepeatGrows(items, i, j);
        assert false;
      }
    }
  }

  lemma {:induction false} RepeatStable(items: seq<Item>, more: seq<Item>, i: nat)
    requires i < |items|
    ensures RepeatOf(items + more, i) == RepeatOf(items, i)
    decreases i
  {
    if i > 0 {
      RepeatStable(items, more, i - 1);
    }
  }

  /** Appending items changes no id already given. */
  lemma {:induction false} IDsStable(items: seq<Item>, more: seq<Item>)
    ensures IDs(items + more)[..|items|] == IDs(items)
  {
    forall i | 0 <= i < |items|
      ensures IDs(items + more)[i] == IDs(items)[i]
    {
      RepeatStable(items, more, i);
    }
  }

  method TranscriptIDs(items: seq<Item>) returns (ids: seq<string>)
    ensures ids == IDs(items)
  {
    hide RepeatOf, Digits;
    ids := [];
    for index := 0 to |items|
      invariant |ids| == index && ids == IDs(items)[..index]
    {
      var repeat := RepeatsBefore(items, index);
      var id := "e" + Digits(items[index].offset);
      if repeat > 0 {
        id := id + "." + Digits(repeat);
      }
      assert id == Name(items[index].offset, repeat);
      ids := ids + [id];
    }
  }

  method RepeatsBefore(items: seq<Item>, index: nat) returns (repeat: nat)
    requires index < |items|
    ensures repeat == RepeatOf(items, index)
  {
    repeat := 0;
    while repeat < index && items[index - repeat - 1].offset == items[index].offset
      invariant 0 <= repeat <= index && items[index - repeat].offset == items[index].offset
      invariant RepeatOf(items, index) == repeat + RepeatOf(items, index - repeat)
    {
      repeat := repeat + 1;
    }
  }

  // ------------------------------------------------------------ cursors

  const NEWLINE: char := '\n'

  function CursorFields(nativeID: string, entry: string, offset: uint64): string {
    "1" + [NEWLINE] + nativeID + [NEWLINE] + entry + [NEWLINE] + Digits(offset)
  }

  function EncodeCursor(b: Base64, nativeID: string, entry: string, offset: uint64): string {
    b.encode(CursorFields(nativeID, entry, offset))
  }

  datatype Cursor = Cursor(entry: string, offset: uint64)

  function DecodeCursor(b: Base64, nativeID: string, cursor: string): Option<Cursor> {
    match b.decode(cursor)
    case None => None
    case Some(raw) =>
      var fields := Split(raw, NEWLINE);
      if |fields| != 4 || fields[0] != "1" || fields[1] != nativeID then None
      else match ParseUnsigned(fields[3])
        case None => None
        case Some(offset) => Some(Cursor(fields[2], offset))
  }

  lemma {:induction false} FieldsNested(nativeID: string, entry: string, last: string)
    ensures "1" + [NEWLINE] + nativeID + [NEWLINE] + entry + [NEWLINE] + last
         == "1" + [NEWLINE] + (nativeID + [NEWLINE] + (entry + [NEWLINE] + last))
  {
  }

  lemma {:induction false} FieldsSplit(nativeID: string, entry: string, offset: uint64)
    requires NEWLINE !in nativeID && NEWLINE !in entry
    ensures Split(CursorFields(nativeID, entry, offset), NEWLINE) == ["1", nativeID, entry, Digits(offset)]
  {
    hide Split, Digits;
    DigitsPlain(offset, NEWLINE);
    var last := Digits(offset);
    FieldsNested(nativeID, entry, last);
    SplitLast(last, NEWLINE);
    SplitFirst(entry, last, NEWLINE);
    var rest := entry + [NEWLINE] + last;
    SplitFirst(nativeID, rest, NEWLINE);
    SplitFirst("1", nativeID + [NEWLINE] + rest, NEWLINE);
    assert ["1"] + ([nativeID] + ([entry] + [last])) == ["1", nativeID, entry, last];
  }

  lemma {:induction false} FieldsCount(nativeID: string, entry: string, offset: uint64)
    ensures |Split(CursorFields(nativeID, entry, offset), NEWLINE)| == 4 + Count(nativeID, NEWLINE) + Count(entry, NEWLINE)
  {
    DigitsPlain(offset, NEWLINE);
    CountNone(Digits(offset), NEWLINE);
    var n := [NEWLINE];
    assert Count(n, NEWLINE) == 1 by {
      assert n[..0] == "";
    }
    CountNone("1", NEWLINE);
    CountConcat("1", n, NEWLINE);
    CountConcat("1" + n, nativeID, NEWLINE);
    CountConcat("1" + n + nativeID, n, NEWLINE);
    CountConcat("1" + n + nativeID + n, entry, NEWLINE);
    CountConcat("1" + n + nativeID + n + entry, n, NEWLINE);
    CountConcat("1" + n + nativeID + n + entry + n, Digits(offset), NEWLINE);
    SplitCount(CursorFields(nativeID, entry, offset), NEWLINE);
  }

  /** A cursor reads back as the entry and offset it was made from, exactly when the session's
      native id holds no line end; otherwise it is refused. */
  lemma {:induction false} CursorRoundTrip(b: Base64, nativeID: string, entry: string, offset: uint64)
    requires Lawful(b) && NEWLINE !in entry
    ensures DecodeCursor(b, nativeID, EncodeCursor(b, nativeID, entry, offset))
         == if NEWLINE in nativeID then None else Some(Cursor(entry, offset))
    ensures EncodeCursor(b, nativeID, entry, offset) != ""
  {
    hide Split;
    assert CursorFields(nativeID, entry, offset)[0] == '1';
    if NEWLINE in nativeID {
      FieldsCount(nativeID, entry, offset);
      CountNone(nativeID, NEWLINE);
    } else {
      FieldsSplit(nativeID, entry, offset);
      ParseDigits(offset);
    }
  }

  // ------------------------------------------------------------ fitting an entry

  /** The bound halved until the entry fits or nothing is left of it. */
  function BoundOf(z: Sizer, item: Item, bound: nat, keep: nat): nat {
    if bound > 0 && z.size(item, Cut(Some(bound), false, keep)) > PAGE_BYTES then BoundOf(z, item, bound / 2, keep) else bound
  }

  /** The parts kept, halved until the entry fits or one is left. */
  function KeepOf(z: Sizer, item: Item, bound: nat, keep: nat): nat {
    if keep > 1 && z.size(item, Cut(Some(bound), true, keep)) > PAGE_BYTES then KeepOf(z, item, bound, keep / 2) else keep
  }

  function PartsOf(z: Sizer, item: Item): nat {
    if z.parts(item) > 1 then z.parts(item) else 1
  }

  function FirstBound(parts: nat): nat
    requires parts > 0
  {
    QuotientNatural(PAGE_BYTES, parts * 2);
    PAGE_BYTES / (parts * 2)
  }

  lemma {:induction false} ProductAtMost(d: nat, q: int)
    requires q <= 0
    ensures d * q <= 0
  {
  }

  lemma {:induction false} QuotientNatural(n: nat, d: nat)
    requires d > 0
    ensures n / d >= 0
  {
    var q, r := n / d, n % d;
    assert n == d * q + r && 0 <= r < d;
    assert d * (q + 1) == d * q + d;
    if q <= -1 {
      ProductAtMost(d, q + 1);
    }
  }

  function FitOf(z: Sizer, item: Item): Cut {
    var parts := PartsOf(z, item);
    var bound := BoundOf(z, item, FirstBound(parts), parts);
    if z.size(item, Cut(Some(bound), false, parts)) <= PAGE_BYTES then Cut(Some(bound), false, parts)
    else Cut(Some(bound), true, KeepOf(z, item, bound, parts))
  }

  lemma {:induction false} BoundFits(z: Sizer, item: Item, bound: nat, keep: nat)
    ensures var b := BoundOf(z, item, bound, keep);
      b <= bound && (b == 0 || z.size(item, Cut(Some(b), false, keep)) <= PAGE_BYTES)
  {
    if bound > 0 && z.size(item, Cut(Some(bound), false, keep)) > PAGE_BYTES {
      BoundFits(z, item, bound / 2, keep);
    }
  }

  lemma {:induction false} KeepFits(z: Sizer, item: Item, bound: nat, keep: nat)
    requires keep >= 1
    ensures var k := KeepOf(z, item, bound, keep);
      1 <= k <= keep && (k == 1 || z.size(item, Cut(Some(bound), true, k)) <= PAGE_BYTES)
  {
    if keep > 1 && z.size(item, Cut(Some(bound), true, keep)) > PAGE_BYTES {
      KeepFits(z, item, bound, keep / 2);
    }
  }

  /** An entry is fitted to the page, unless it is over it with no text, reduced, and one part kept. */
  lemma {:induction false} FitOrSmallest(z: Sizer, item: Item)
    ensures z.size(item, FitOf(z, item)) <= PAGE_BYTES || FitOf(z, item) == Cut(Some(0), true, 1)
  {
    hide FirstBound, BoundOf, KeepOf;
    var parts := PartsOf(z, item);
    BoundFits(z, item, FirstBound(parts), parts);
    KeepFits(z, item, BoundOf(z, item, FirstBound(parts), parts), parts);
  }

  method FitEntry(z: Sizer, item: Item) returns (cut: Cut, size: nat)
    ensures cut == FitOf(z, item) && size == z.size(item, cut)
  {
    hide FirstBound;
    var parts := PartsOf(z, item);
    var bound := FirstBound(parts);
    size := z.size(item, Cut(Some(bound), false, parts));
    while size > PAGE_BYTES && bound > 0
      invariant size == z.size(item, Cut(Some(bound), false, parts))
      invariant BoundOf(z, item, FirstBound(parts), parts) == BoundOf(z, item, bound, parts)
      decreases bound
    {
      bound := bound / 2;
      size := z.size(item, Cut(Some(bound), false, parts));
    }
    if size <= PAGE_BYTES {
      return Cut(Some(bound), false, parts), size;
    }
    var keep := parts;
    size := z.size(item, Cut(Some(bound), true, keep));
    while size > PAGE_BYTES && keep > 1
      invariant size == z.size(item, Cut(Some(bound), true, keep))
      invariant KeepOf(z, item, bound, parts) == KeepOf(z, item, bound, keep)
      decreases keep
    {
      keep := keep / 2;
      size := z.size(item, Cut(Some(bound), true, keep));
    }
    return Cut(Some(bound), true, keep), size;
  }

  // ------------------------------------------------------------ cutting text

  /** A byte that starts a character in UTF-8. */
  predicate RuneStart(b: byte) {
    !(128 <= b < 192)
  }

  /** The longest prefix within a bound that ends where a character starts. */
  method CutText(text: seq<byte>, bound: int) returns (r: seq<byte>)
    ensures r <= text
    ensures bound < 0 || |text| <= bound ==> r == text
    ensures 0 <= bound < |text| ==>
      && |r| <= bound && (|r| == 0 || RuneStart(text[|r|]))
      && forall i | |r| < i <= bound :: !RuneStart(text[i])
  {
    if bound < 0 || |text| <= bound {
      return text;
    }
    var at := bound;
    while at > 0 && !RuneStart(text[at])
      invariant 0 <= at <= bound
      invariant forall i | at < i <= bound :: !RuneStart(text[i])
    {
      at := at - 1;
    }
    return text[..at];
  }

  // ------------------------------------------------------------ one page

  datatype PageEntry = PageEntry(id: string, item: Item, cut: Cut)

  datatype GapReason = Rewritten | Pruned

  datatype Gap = Gap(reason: GapReason, resumedAt: Option<string>)

  datatype Page = Page(entries: seq<PageEntry>, complete: bool, gap: Option<Gap>, next: string)

  function SizeOf(z: Sizer, e: PageEntry): nat {
    z.size(e.item, e.cut)
  }

  function TotalSize(z: Sizer, entries: seq<PageEntry>): nat {
    if entries == [] then 0 else TotalSize(z, entries[..|entries| - 1]) + SizeOf(z, entries[|entries| - 1])
  }

  /** The entries of a page from an index on: as many as the limit and the bytes allow, and always one. */
  function Filled(z: Sizer, items: seq<Item>, start: nat, limit: nat, n: nat): (entries: seq<PageEntry>)
    requires start <= |items|
    ensures |entries| <= n && start + |entries| <= |items|
  {
    if n == 0 then []
    else
      var before := Filled(z, items, start, limit, n - 1);
      var at := start + n - 1;
      if |before| < n - 1 || at >= |items| || n - 1 >= limit then before
      else
        var whole := PageEntry(IDs(items)[at], items[at], UNCUT);
        if TotalSize(z, before) + SizeOf(z, whole) <= PAGE_BYTES then before + [whole]
        else if before != [] then before
        else [PageEntry(IDs(items)[at], items[at], FitOf(z, items[at]))]
  }

  function EntriesAt(z: Sizer, items: seq<Item>, start: nat, limit: nat): (entries: seq<PageEntry>)
    requires start <= |items|
    ensures start + |entries| <= |items|
  {
    Filled(z, items, start, limit, |items| - start)
  }

  lemma {:induction false} NothingSize(z: Sizer)
    ensures TotalSize(z, []) == 0
  {
  }

  lemma {:induction false} TotalSnoc(z: Sizer, entries: seq<PageEntry>, e: PageEntry)
    ensures TotalSize(z, entries + [e]) == TotalSize(z, entries) + SizeOf(z, e)
  {
    assert (entries + [e])[..|entries|] == entries;
  }

  /** A page holds consecutive items from its start, each under its id; at least one while any is
      left, no more than the limit, and more bytes than the budget only when it holds one entry. */
  lemma {:induction false} FilledHolds(z: Sizer, items: seq<Item>, start: nat, limit: nat, n: nat)
    requires start <= |items| && limit >= 1
    ensures var entries := Filled(z, items, start, limit, n);
      && |entries| <= limit && start + |entries| <= |items|
      && (n > 0 && start < |items| ==> entries != [])
      && (forall i | 0 <= i < |entries| :: entries[i].item == items[start + i] && entries[i].id == IDs(items)[start + i])
      && (TotalSize(z, entries) <= PAGE_BYTES || |entries| == 1)
  {
    hide IDs, TotalSize, SizeOf, FitOf;
    NothingSize(z);
    if n > 0 {
      FilledHolds(z, items, start, limit, n - 1);
      var before, at := Filled(z, items, start, limit, n - 1), start + n - 1;
      if !(|before| < n - 1 || at >= |items| || n - 1 >= limit) {
        TotalSnoc(z, before, PageEntry(IDs(items)[at], items[at], UNCUT));
      }
    }
  }

  /** A page is full: it stops at the last item, at the limit, or before an item that does not fit whole;
      and every entry is whole, but for a first one that does not fit by itself, which is cut. */
  lemma {:induction false} PageFull(z: Sizer, items: seq<Item>, start: nat, limit: nat)
    requires start <= |items| && limit >= 1
    ensures var entries := EntriesAt(z, items, start, limit); var next := start + |entries|;
      && (next == |items| || |entries| == limit || TotalSize(z, entries) + z.size(items[next], UNCUT) > PAGE_BYTES)
      && (forall i | 0 <= i < |entries| :: entries[i].cut != UNCUT ==>
            i == 0 && z.size(items[start], UNCUT) > PAGE_BYTES && entries[i].cut == FitOf(z, items[start]))
  {
    hide IDs, FitOf, TotalSize;
    FilledFull(z, items, start, limit, |items| - start);
  }

  lemma {:induction false} FilledFull(z: Sizer, items: seq<Item>, start: nat, limit: nat, n: nat)
    requires start <= |items| && limit >= 1 && n <= |items| - start
    ensures var entries := Filled(z, items, start, limit, n); var next := start + |entries|;
      && |entries| <= limit
      && (|entries| == n || |entries| == limit || (next < |items| && TotalSize(z, entries) + z.size(items[next], UNCUT) > PAGE_BYTES))
      && (forall i | 0 <= i < |entries| :: entries[i].cut != UNCUT ==>
            i == 0 && z.size(items[start], UNCUT) > PAGE_BYTES && entries[i].cut == FitOf(z, items[start]))
  {
    hide IDs, FitOf, TotalSize;
    NothingSize(z);
    if n > 0 {
      FilledFull(z, items, start, limit, n - 1);
      var before, at := Filled(z, items, start, limit, n - 1), start + n - 1;
      if !(|before| < n - 1 || at >= |items| || n - 1 >= limit) {
        TotalSnoc(z, before, PageEntry(IDs(items)[at], items[at], UNCUT));
      }
    }
  }

  function Halved(n: nat, times: nat): nat {
    if times == 0 then n else Halved(n, times - 1) / 2
  }

  /** No bound before one in a row of halvings fits. */
  ghost predicate NoneFits(z: Sizer, item: Item, bound: nat, keep: nat, j: nat) {
    forall i: nat | i < j :: z.size(item, Cut(Some(Halved(bound, i)), false, keep)) > PAGE_BYTES
  }

  lemma {:induction false} HalvedOnce(n: nat, times: nat)
    ensures Halved(n / 2, times) == Halved(n, times + 1)
  {
    if times > 0 {
      HalvedOnce(n, times - 1);
    }
  }

  /** No bound tried before the one settled on fits. */
  lemma {:induction false} BoundLargest(z: Sizer, item: Item, bound: nat, keep: nat)
    ensures exists j: nat :: BoundOf(z, item, bound, keep) == Halved(bound, j) && NoneFits(z, item, bound, keep, j)
    decreases bound
  {
    if bound > 0 && z.size(item, Cut(Some(bound), false, keep)) > PAGE_BYTES {
      BoundLargest(z, item, bound / 2, keep);
      var j: nat :| BoundOf(z, item, bound / 2, keep) == Halved(bound / 2, j) && NoneFits(z, item, bound / 2, keep, j);
      HalvedOnce(bound, j);
      forall i: nat | i < j + 1
        ensures z.size(item, Cut(Some(Halved(bound, i)), false, keep)) > PAGE_BYTES
      {
        if i > 0 {
          HalvedOnce(bound, i - 1);
        }
      }
    } else {
      assert Halved(bound, 0) == bound;
    }
  }

  /** An entry is cut in its texts first, to the largest bound tried that fits; only when none is left of them
      is it reduced and its parts dropped. */
  lemma {:induction false} CutsTextsFirst(z: Sizer, item: Item)
    ensures var cut := FitOf(z, item);
      && cut.bound.Some? && (!cut.reduce ==> z.size(item, cut) <= PAGE_BYTES && cut.keep == PartsOf(z, item))
      && (cut.reduce ==> cut.bound == Some(0) && z.size(item, Cut(Some(0), false, PartsOf(z, item))) > PAGE_BYTES)
      && exists j: nat :: cut.bound == Some(Halved(FirstBound(PartsOf(z, item)), j))
                          && NoneFits(z, item, FirstBound(PartsOf(z, item)), PartsOf(z, item), j)
  {
    hide FirstBound, BoundOf, KeepOf;
    var parts := PartsOf(z, item);
    BoundFits(z, item, FirstBound(parts), parts);
    BoundLargest(z, item, FirstBound(parts), parts);
  }

  function IndexOf(ids: seq<string>, wanted: string): (found: Option<nat>)
    ensures found.Some? ==> found.value < |ids| && ids[found.value] == wanted
  {
    if ids == [] then None
    else match IndexOf(ids[..|ids| - 1], wanted)
      case Some(i) => Some(i)
      case None => if ids[|ids| - 1] == wanted then Some(|ids| - 1) else None
  }

  lemma {:induction false} IndexOfDistinct(ids: seq<string>, i: nat)
    requires Distinct(ids) && i < |ids|
    ensures IndexOf(ids, ids[i]) == Some(i)
    decreases |ids|
  {
    var front := ids[..|ids| - 1];
    if i < |front| {
      IndexOfDistinct(front, i);
    } else {
      NotIn(front, ids[i]);
    }
  }

  lemma {:induction false} NotIn(ids: seq<string>, wanted: string)
    requires forall i | 0 <= i < |ids| :: ids[i] != wanted
    ensures IndexOf(ids, wanted).None?
    decreases |ids|
  {
    if ids != [] {
      NotIn(ids[..|ids| - 1], wanted);
    }
  }

  method IndexOfID(ids: seq<string>, wanted: string) returns (found: Option<nat>)
    ensures found == IndexOf(ids, wanted)
  {
    for index := 0 to |ids|
      invariant IndexOf(ids[..index], wanted).None?
    {
      assert ids[..index + 1][..index] == ids[..index];
      if ids[index] == wanted {
        FoundFirst(ids, wanted, index);
        return Some(index);
      }
    }
    assert ids[..|ids|] == ids;
    return None;
  }

  lemma {:induction false} FoundFirst(ids: seq<string>, wanted: string, i: nat)
    requires i < |ids| && ids[i] == wanted && IndexOf(ids[..i], wanted).None?
    ensures IndexOf(ids, wanted) == Some(i)
    decreases |ids|
  {
    var front := ids[..|ids| - 1];
    if i < |front| {
      assert front[..i] == ids[..i];
      FoundFirst(front, wanted, i);
    } else {
      assert front == ids[..i];
    }
  }

  /** Where a page starts for a cursor, and the gap it reports when the cursor's entry is gone. */
  function StartOf(items: seq<Item>, cursor: Option<Cursor>): (r: (nat, Option<Gap>))
    ensures r.0 <= |items|
  {
    if cursor.None? || cursor.value.entry == "" then (0, None)
    else match IndexOf(IDs(items), cursor.value.entry)
      case Some(i) => (i + 1, None)
      case None =>
        (0, Some(Gap(if items == [] || items[0].offset > cursor.value.offset then Pruned else Rewritten,
                     if items == [] then None else Some(IDs(items)[0]))))
  }

  function CursorAt(b: Base64, nativeID: string, items: seq<Item>, at: nat): string
    requires at <= |items|
  {
    if at == 0 then EncodeCursor(b, nativeID, "", 0) else EncodeCursor(b, nativeID, IDs(items)[at - 1], items[at - 1].offset)
  }

  function LimitOf(limit: int): nat {
    if limit > 1 then limit else 1
  }

  function PageFrom(b: Base64, z: Sizer, nativeID: string, items: seq<Item>, start: nat, gap: Option<Gap>, limit: nat): Page
    requires start <= |items|
  {
    var entries := EntriesAt(z, items, start, limit);
    Page(entries, start + |entries| >= |items|, gap, CursorAt(b, nativeID, items, start + |entries|))
  }

  /** The page for a cursor, or None when the cursor is not one of this session. */
  function PageFor(b: Base64, z: Sizer, nativeID: string, items: seq<Item>, cursor: string, limit: int): Option<Page> {
    var at := if cursor == "" then Some(Cursor("", 0)) else DecodeCursor(b, nativeID, cursor);
    if at.None? then None
    else Some(PageFrom(b, z, nativeID, items, StartOf(items, at).0, StartOf(items, at).1, LimitOf(limit)))
  }

  function Tail(b: Base64, nativeID: string, items: seq<Item>): string {
    CursorAt(b, nativeID, items, |items|)
  }

  method TranscriptPage(b: Base64, z: Sizer, nativeID: string, items: seq<Item>, cursor: string, limit: int) returns (page: Option<Page>)
    ensures page == PageFor(b, z, nativeID, items, cursor, limit)
  {
    hide IDs, Filled, DecodeCursor, EncodeCursor, IndexOf;
    var ids := TranscriptIDs(items);
    var start := 0;
    var gap: Option<Gap> := None;
    if cursor != "" {
      var at := DecodeCursor(b, nativeID, cursor);
      if at.None? {
        return None;
      }
      var found := IndexOfID(ids, at.value.entry);
      if at.value.entry != "" {
        if found.Some? {
          start := found.value + 1;
        } else {
          var reason := Rewritten;
          if |items| == 0 || items[0].offset > at.value.offset {
            reason := Pruned;
          }
          gap := Some(Gap(reason, if |items| > 0 then Some(ids[0]) else None));
        }
      }
    }
    var entries := Fill(z, items, ids, start, LimitOf(limit));
    var next := start + |entries|;
    var text := EncodeCursor(b, nativeID, "", 0);
    if next > 0 {
      text := EncodeCursor(b, nativeID, ids[next - 1], items[next - 1].offset);
    }
    return Some(Page(entries, next >= |items|, gap, text));
  }

  method Fill(z: Sizer, items: seq<Item>, ids: seq<string>, start: nat, limit: nat) returns (entries: seq<PageEntry>)
    requires start <= |items| && ids == IDs(items) && limit >= 1
    ensures entries == EntriesAt(z, items, start, limit)
  {
    hide IDs, FitOf, TotalSize;
    entries := [];
    NothingSize(z);
    var bytes, next := 0, start;
    while next < |items| && |entries| < limit
      invariant start <= next <= |items| && next == start + |entries| && |entries| <= limit
      invariant entries == Filled(z, items, start, limit, |entries|) && bytes == TotalSize(z, entries)
      decreases |items| - next
    {
      var entry := PageEntry(ids[next], items[next], UNCUT);
      var size := z.size(items[next], UNCUT);
      if bytes + size > PAGE_BYTES {
        if |entries| > 0 {
          StaysFilled(z, items, start, limit, |entries|, |items| - start);
          return;
        }
        var cut;
        cut, size := FitEntry(z, items[next]);
        entry := PageEntry(ids[next], items[next], cut);
      }
      TotalSnoc(z, entries, entry);
      bytes := bytes + size;
      entries := entries + [entry];
      next := next + 1;
    }
    if |entries| == limit || next == |items| {
      StaysFilled(z, items, start, limit, |entries|, |items| - start);
    }
  }

  /** Once a page takes no more, it stays as it is. */
  lemma {:induction false} StaysFilled(z: Sizer, items: seq<Item>, start: nat, limit: nat, n: nat, m: nat)
    requires start <= |items| && n <= m <= |items| - start && |Filled(z, items, start, limit, n)| == n
    requires n < m ==> Filled(z, items, start, limit, n + 1) == Filled(z, items, start, limit, n)
    ensures Filled(z, items, start, limit, m) == Filled(z, items, start, limit, n)
    decreases m
  {
    hide IDs, FitOf, TotalSize, SizeOf;
    if n + 1 < m {
      StaysFilled(z, items, start, limit, n, m - 1);
    }
  }

  // ------------------------------------------------------------ walks over a growing transcript

  lemma {:induction false} NamePlain(offset: nat, repeat: nat)
    ensures NEWLINE !in Name(offset, repeat) && Name(offset, repeat) != ""
  {
    DigitsPlain(offset, NEWLINE);
    DigitsPlain(repeat, NEWLINE);
  }

  /** A cursor taken at a position starts the next page there, in the items it was taken from and
      in whatever they have grown to. */
  lemma {:induction false} CursorResumes(b: Base64, nativeID: string, items: seq<Item>, more: seq<Item>, at: nat)
    requires Lawful(b) && NEWLINE !in nativeID && at <= |items| && Nondecreasing(items + more)
    ensures var cursor := CursorAt(b, nativeID, items, at);
      && cursor != "" && DecodeCursor(b, nativeID, cursor).Some?
      && StartOf(items + more, DecodeCursor(b, nativeID, cursor)) == (at, None)
  {
    hide DecodeCursor, EncodeCursor, IndexOf, Name;
    if at == 0 {
      CursorRoundTrip(b, nativeID, "", 0);
    } else {
      var id := IDs(items)[at - 1];
      NamePlain(items[at - 1].offset, RepeatOf(items, at - 1));
      CursorRoundTrip(b, nativeID, id, items[at - 1].offset);
      IDsStable(items, more);
      assert IDs(items + more)[at - 1] == IDs(items + more)[..|items|][at - 1] == id;
      IDsDistinct(items + more);
      IndexOfDistinct(IDs(items + more), at - 1);
    }
  }

  /** A cursor whose entry is gone is answered from the start, with a gap that says why: the entries before
      where it stood were pruned when the transcript is empty or begins past it, and rewritten otherwise. */
  lemma {:induction false} LostCursorGap(b: Base64, z: Sizer, nativeID: string, items: seq<Item>, entry: string, offset: uint64, limit: int)
    requires Lawful(b) && NEWLINE !in nativeID && NEWLINE !in entry && entry != "" && entry !in IDs(items)
    ensures var page := PageFor(b, z, nativeID, items, EncodeCursor(b, nativeID, entry, offset), limit);
      && page.Some? && page.value.entries == EntriesAt(z, items, 0, if limit > 1 then limit else 1)
      && page.value.gap.Some? && (page.value.gap.value.reason == Pruned <==> items == [] || items[0].offset > offset)
      && page.value.gap.value.resumedAt == (if items == [] then None else Some(IDs(items)[0]))
      && (page.value.complete <==> |page.value.entries| == |items|)
  {
    hide DecodeCursor, EncodeCursor, IndexOf, IDs, Filled;
    CursorRoundTrip(b, nativeID, entry, offset);
    assert forall i | 0 <= i < |IDs(items)| :: IDs(items)[i] in IDs(items);
    NotIn(IDs(items), entry);
    assert |IDs(items)| == |items|;
  }

  /** Resuming at the tail after growth yields exactly the new items, from the first on. */
  lemma {:induction false} TailResumes(b: Base64, z: Sizer, nativeID: string, items: seq<Item>, more: seq<Item>, limit: int)
    requires Lawful(b) && NEWLINE !in nativeID && Nondecreasing(items + more)
    ensures var page := PageFor(b, z, nativeID, items + more, Tail(b, nativeID, items), limit);
      && page.Some? && page.value.gap.None? && (more != [] ==> page.value.entries != [])
      && |page.value.entries| <= |more|
      && (forall i | 0 <= i < |page.value.entries| :: page.value.entries[i].item == more[i])
      && (page.value.complete <==> |page.value.entries| == |more|)
  {
    hide IDs, Filled, DecodeCursor, EncodeCursor, TotalSize, StartOf, Nondecreasing, Lawful, CursorAt;
    CursorResumes(b, nativeID, items, more, |items|);
    FilledHolds(z, items + more, |items|, LimitOf(limit), |more|);
  }

  /** A transcript taken page by page while it grows. */
  ghost predicate Walk(
    b: Base64, z: Sizer, nativeID: string, snapshots: seq<seq<Item>>, limits: seq<int>, pages: seq<Page>)
  {
    && |snapshots| == |limits| == |pages|
    && (forall i | 0 <= i < |snapshots| :: Nondecreasing(snapshots[i]))
    && (forall i | 0 <= i < |snapshots| - 1 :: snapshots[i] <= snapshots[i + 1])
    && (forall i | 0 <= i < |pages| :: Turns(b, z, nativeID, snapshots[i], limits[i], pages, i))
  }

  /** A page of a walk is the one its cursor asks for. */
  ghost predicate Turns(b: Base64, z: Sizer, nativeID: string, items: seq<Item>, limit: int, pages: seq<Page>, i: nat)
    requires i < |pages|
  {
    PageFor(b, z, nativeID, items, if i == 0 then "" else pages[i - 1].next, limit) == Some(pages[i])
  }

  /** The entries of the first pages, in the order they came. */
  function Taken(pages: seq<Page>, n: nat): seq<PageEntry>
    requires n <= |pages|
  {
    if n == 0 then [] else Taken(pages, n - 1) + pages[n - 1].entries
  }

  /** The entries are the first items, in order, each under its id. */
  ghost predicate Covers(entries: seq<PageEntry>, items: seq<Item>) {
    && |entries| <= |items|
    && forall i | 0 <= i < |entries| :: entries[i].item == items[i] && entries[i].id == IDs(items)[i]
  }

  lemma {:induction false} CoversMore(entries: seq<PageEntry>, items: seq<Item>, items': seq<Item>)
    requires Covers(entries, items) && items <= items'
    ensures Covers(entries, items')
  {
    hide IDs;
    var more := items'[|items|..];
    assert items + more == items';
    IDsStable(items, more);
    forall i | 0 <= i < |entries|
      ensures entries[i].item == items'[i] && entries[i].id == IDs(items')[i]
    {
      assert IDs(items')[i] == IDs(items')[..|items|][i];
    }
  }

  lemma {:induction false} CoversNext(entries: seq<PageEntry>, next: seq<PageEntry>, items: seq<Item>)
    requires Covers(entries, items) && |entries| + |next| <= |items|
    requires forall i | 0 <= i < |next| ::
      next[i].item == items[|entries| + i] && next[i].id == IDs(items)[|entries| + i]
    ensures Covers(entries + next, items)
  {
    hide IDs;
  }

  /** Following the cursors visits the items in order, each exactly once: after any number of pages
      what was taken is the items up to where the walk stands, and each page that had anything
      left to take took something. */
  lemma {:induction false} WalkCovers(
    b: Base64, z: Sizer, nativeID: string, snapshots: seq<seq<Item>>, limits: seq<int>, pages: seq<Page>, n: nat)
    requires Lawful(b) && NEWLINE !in nativeID && Walk(b, z, nativeID, snapshots, limits, pages) && 0 < n <= |pages|
    ensures Covers(Taken(pages, n), snapshots[n - 1])
    ensures pages[n - 1].next == CursorAt(b, nativeID, snapshots[n - 1], |Taken(pages, n)|)
    ensures pages[n - 1].gap.None?
    ensures pages[n - 1].complete <==> |Taken(pages, n)| == |snapshots[n - 1]|
    ensures |Taken(pages, n - 1)| < |snapshots[n - 1]| ==> pages[n - 1].entries != []
  {
    hide IDs, Filled, DecodeCursor, EncodeCursor, TotalSize, Lawful, Nondecreasing, CursorAt, Covers, PageFrom;
    var items := snapshots[n - 1];
    var before := Taken(pages, n - 1);
    if n == 1 {
      assert before == [];
      NoneCovered(items);
    } else {
      WalkCovers(b, z, nativeID, snapshots, limits, pages, n - 1);
      var was := snapshots[n - 2];
      var more := items[|was|..];
      assert was + more == items;
      CoversMore(before, was, items);
      CoversBound(before, was);
      CursorResumes(b, nativeID, was, more, |before|);
    }
    CoversBound(before, items);
    var i := n - 1;
    assert Turns(b, z, nativeID, snapshots[i], limits[i], pages, i);
    WalkPage(b, z, nativeID, items, if i == 0 then "" else pages[i - 1].next, limits[i], pages[i], before);
  }

  lemma {:induction false} NoneCovered(items: seq<Item>)
    ensures Covers([], items)
  {
  }

  lemma {:induction false} CoversBound(entries: seq<PageEntry>, items: seq<Item>)
    requires Covers(entries, items)
    ensures |entries| <= |items|
  {
  }

  lemma {:induction false} WalkPage(
    b: Base64, z: Sizer, nativeID: string, items: seq<Item>, cursor: string, limit: int, page: Page, before: seq<PageEntry>)
    requires PageFor(b, z, nativeID, items, cursor, limit) == Some(page) && Covers(before, items)
    requires if cursor == "" then before == []
             else DecodeCursor(b, nativeID, cursor).Some? && StartOf(items, DecodeCursor(b, nativeID, cursor)) == (|before|, None)
    ensures Covers(before + page.entries, items) && page.gap.None?
    ensures page.next == CursorAt(b, nativeID, items, |before + page.entries|)
    ensures page.complete <==> |before + page.entries| == |items|
    ensures |before| < |items| ==> page.entries != []
  {
    hide IDs, Filled, DecodeCursor, EncodeCursor, TotalSize, CursorAt, StartOf, Covers;
    CoversBound(before, items);
    assert StartOf(items, Some(Cursor("", 0))) == (0, None) by {
      StartAtNone(items);
    }
    assert page == PageFrom(b, z, nativeID, items, |before|, None, LimitOf(limit));
    FilledHolds(z, items, |before|, LimitOf(limit), |items| - |before|);
    CoversNext(before, page.entries, items);
  }

  lemma {:induction false} StartAtNone(items: seq<Item>)
    ensures StartOf(items, Some(Cursor("", 0))) == (0, None)
  {
  }

  /** A walk over items that do not change is complete after at most as many pages as items. */
  lemma {:induction false} WalkEnds(
    b: Base64, z: Sizer, nativeID: string, items: seq<Item>, snapshots: seq<seq<Item>>, limits: seq<int>, pages: seq<Page>, n: nat)
    requires Lawful(b) && NEWLINE !in nativeID && Walk(b, z, nativeID, snapshots, limits, pages) && n <= |pages|
    requires forall i | 0 <= i < |snapshots| :: snapshots[i] == items
    requires forall i | 0 <= i < n :: !pages[i].complete
    ensures |Taken(pages, n)| >= n && (n > 0 ==> n < |items|)
  {
    hide Lawful, Walk, Covers;
    if n > 0 {
      WalkEnds(b, z, nativeID, items, snapshots, limits, pages, n - 1);
      WalkShape(b, z, nativeID, snapshots, limits, pages);
      WalkCovers(b, z, nativeID, snapshots, limits, pages, n);
      CoversBound(Taken(pages, n), items);
    }
  }

  lemma {:induction false} WalkShape(b: Base64, z: Sizer, nativeID: string, snapshots: seq<seq<Item>>, limits: seq<int>, pages: seq<Page>)
    requires Walk(b, z, nativeID, snapshots, limits, pages)
    ensures |snapshots| == |limits| == |pages|
  {
  }
}
