/** Paging through the list of sessions, newest first, by a cursor that names the last entry seen. */
module SessionList {
  import opened Basics
  import opened CursorText

  const DEFAULT_LIMIT: int := 50
  const MAX_LIMIT: int := 100

  datatype Entry = Entry(time: int64, id: string, body: nat)

  /** An entry's place in the list. */
  datatype Key = Key(time: int64, id: string)

  function KeyOf(e: Entry): Key {
    Key(e.time, e.id)
  }

  // ------------------------------------------------------------ the order

  /** Byte order of session ids. */
  predicate Less(a: string, b: string) {
    b != "" && (a == "" || a[0] < b[0] || (a[0] == b[0] && Less(a[1..], b[1..])))
  }

  lemma {:induction false} LessTrichotomy(a: string, b: string)
    ensures Less(a, b) || a == b || Less(b, a)
    ensures !(Less(a, b) && Less(b, a)) && !(a == b && Less(a, b))
    decreases |a|
  {
    if a != "" && b != "" && a[0] == b[0] {
      LessTrichotomy(a[1..], b[1..]);
      assert a == [a[0]] + a[1..] && b == [b[0]] + b[1..];
    }
  }

  lemma {:induction false} LessTransitive(a: string, b: string, c: string)
    requires Less(a, b) && Less(b, c)
    ensures Less(a, c)
    decreases |a|
  {
    if a != "" && a[0] == b[0] && b[0] == c[0] {
      LessTransitive(a[1..], b[1..], c[1..]);
    }
  }

  /** Newer first, and among entries of one instant by id. */
  predicate Before(a: Key, b: Key) {
    if a.time != b.time then a.time > b.time else Less(a.id, b.id)
  }

  lemma {:induction false} BeforeTotal(a: Key, b: Key)
    ensures Before(a, b) || a == b || Before(b, a)
    ensures !(Before(a, b) && Before(b, a)) && !Before(a, a)
  {
    LessTrichotomy(a.id, b.id);
    LessTrichotomy(a.id, a.id);
  }

  lemma {:induction false} BeforeTransitive(a: Key, b: Key, c: Key)
    requires Before(a, b) && Before(b, c)
    ensures Before(a, c)
  {
    if a.time == b.time == c.time {
      LessTransitive(a.id, b.id, c.id);
    }
  }

  // ------------------------------------------------------------ sorting

  predicate Sorted(s: seq<Entry>) {
    forall i, j | 0 <= i < j < |s| :: !Before(KeyOf(s[j]), KeyOf(s[i]))
  }

  predicate Ascending(s: seq<Entry>) {
    forall i, j | 0 <= i < j < |s| :: Before(KeyOf(s[i]), KeyOf(s[j]))
  }

  /** An entry put in front of the first one it precedes. */
  function Insert(s: seq<Entry>, e: Entry): (r: seq<Entry>)
    ensures |r| == |s| + 1
  {
    if s == [] then [e]
    else if Before(KeyOf(e), KeyOf(s[|s| - 1])) then Insert(s[..|s| - 1], e) + [s[|s| - 1]]
    else s + [e]
  }

  function Ordered(s: seq<Entry>): (r: seq<Entry>)
    ensures |r| == |s|
  {
    if s == [] then [] else Insert(Ordered(s[..|s| - 1]), s[|s| - 1])
  }

  lemma {:induction false} InsertMembers(s: seq<Entry>, e: Entry)
    ensures multiset(Insert(s, e)) == multiset(s) + multiset{e}
    decreases |s|
  {
    if s != [] && Before(KeyOf(e), KeyOf(s[|s| - 1])) {
      InsertMembers(s[..|s| - 1], e);
      assert s == s[..|s| - 1] + [s[|s| - 1]];
    }
  }

  lemma {:induction false} NotBeforeTransitive(a: Key, b: Key, c: Key)
    requires !Before(b, a) && !Before(c, b)
    ensures !Before(c, a)
  {
    BeforeTotal(a, b);
    BeforeTotal(b, c);
    BeforeTotal(a, c);
    if a != b && b != c {
      BeforeTransitive(a, b, c);
    }
  }

  lemma {:induction false} MembersOf(s: seq<Entry>, t: seq<Entry>)
    requires multiset(s) == multiset(t)
    ensures forall x :: x in s <==> x in t
  {
    forall x
      ensures x in s <==> x in t
    {
      assert x in s <==> x in multiset(s);
      assert x in t <==> x in multiset(t);
    }
  }

  lemma {:induction false} InsertSorted(s: seq<Entry>, e: Entry)
    requires Sorted(s)
    ensures Sorted(Insert(s, e))
    decreases |s|
  {
    if s != [] {
      var front, last := s[..|s| - 1], s[|s| - 1];
      if Before(KeyOf(e), KeyOf(last)) {
        InsertSorted(front, e);
        var r := Insert(front, e);
        InsertMembers(front, e);
        forall i | 0 <= i < |r|
          ensures !Before(KeyOf(last), KeyOf(r[i]))
        {
          assert r[i] in multiset(r);
          BeforeTotal(KeyOf(e), KeyOf(last));
          assert r[i] in front || r[i] == e;
          if r[i] in front {
            var k :| 0 <= k < |front| && front[k] == r[i];
            assert s[k] == r[i];
          }
        }
      } else {
        forall i | 0 <= i < |s|
          ensures !Before(KeyOf(e), KeyOf(s[i]))
        {
          if i < |s| - 1 {
            NotBeforeTransitive(KeyOf(s[i]), KeyOf(last), KeyOf(e));
          }
        }
      }
    }
  }

  function OfKey(s: seq<Entry>, k: Key): seq<Entry> {
    if s == [] then [] else OfKey(s[..|s| - 1], k) + if KeyOf(s[|s| - 1]) == k then [s[|s| - 1]] else []
  }

  lemma {:induction false} OfKeySnoc(s: seq<Entry>, e: Entry, k: Key)
    ensures OfKey(s + [e], k) == if KeyOf(e) == k then OfKey(s, k) + [e] else OfKey(s, k)
  {
    assert (s + [e])[..|s|] == s;
  }

  lemma {:induction false} InsertStable(s: seq<Entry>, e: Entry, k: Key)
    ensures OfKey(Insert(s, e), k) == if KeyOf(e) == k then OfKey(s, k) + [e] else OfKey(s, k)
    decreases |s|
  {
    if s == [] {
      OfKeySnoc([], e, k);
      assert [] + [e] == [e];
    } else {
      var front, last := s[..|s| - 1], s[|s| - 1];
      assert s == front + [last];
      OfKeySnoc(front, last, k);
      if Before(KeyOf(e), KeyOf(last)) {
        BeforeTotal(KeyOf(e), KeyOf(last));
        InsertStable(front, e, k);
        OfKeySnoc(Insert(front, e), last, k);
      } else {
        OfKeySnoc(s, e, k);
      }
    }
  }

  /** The list is a sorted permutation of the sessions that keeps entries of one key in order. */
  lemma {:induction false} OrderedIsStableSort(s: seq<Entry>)
    ensures Sorted(Ordered(s)) && multiset(Ordered(s)) == multiset(s)
    ensures forall k :: OfKey(Ordered(s), k) == OfKey(s, k)
    decreases |s|
  {
    if s != [] {
      var front, last := s[..|s| - 1], s[|s| - 1];
      OrderedIsStableSort(front);
      assert s == front + [last];
      InsertSorted(Ordered(front), last);
      InsertMembers(Ordered(front), last);
      forall k
        ensures OfKey(Ordered(s), k) == OfKey(s, k)
      {
        InsertStable(Ordered(front), last, k);
        OfKeySnoc(front, last, k);
      }
    }
  }

  // ------------------------------------------------------------ cursors

  function TextOf(k: Key): string {
    Format(k.time) + ":" + k.id
  }

  function EncodeCursor(b: Base64, k: Key): string {
    b.encode(TextOf(k))
  }

  function DecodeCursor(b: Base64, cursor: string): Option<Key> {
    match b.decode(cursor)
    case None => None
    case Some(raw) =>
      match Find(raw, ':', 0)
      case None => None
      case Some(i) =>
        var id := raw[i + 1..];
        if id == "" then None
        else match Parse(raw[..i])
          case None => None
          case Some(time) => Some(Key(time, id))
  }

  /** A cursor reads back as the key it was made from, exactly when the key has a session id. */
  lemma {:induction false} CursorRoundTrip(b: Base64, k: Key)
    requires Lawful(b)
    ensures DecodeCursor(b, EncodeCursor(b, k)) == if k.id == "" then None else Some(k)
    ensures EncodeCursor(b, k) != ""
  {
    var text, time := TextOf(k), Format(k.time);
    assert text == time + ":" + k.id;
    FormatPlain(k.time);
    assert forall j | 0 <= j < |time| :: text[j] == time[j];
    assert text[|time|] == ':';
    assert Find(text, ':', 0) == Some(|time|);
    assert text[..|time|] == time && text[|time| + 1..] == k.id;
    ParseFormat(k.time);
  }

  // ------------------------------------------------------------ one page

  datatype Page = Page(entries: seq<Entry>, next: string)

  datatype Error = InvalidLimit | InvalidCursor

  datatype Result = Ok(page: Page) | Err(error: Error)

  /** The entries of a list past a key. */
  function Later(s: seq<Entry>, after: Option<Key>): seq<Entry> {
    if s == [] then []
    else
      var front, e := Later(s[..|s| - 1], after), s[|s| - 1];
      if after.None? || Before(after.value, KeyOf(e)) then front + [e] else front
  }

  /** The first entries past a key, and a cursor when more follow. */
  function PageOf(b: Base64, ordered: seq<Entry>, after: Option<Key>, limit: int): Page
    requires limit >= 1
  {
    var later := Later(ordered, after);
    if |later| <= limit then Page(later, "") else Page(later[..limit], EncodeCursor(b, KeyOf(later[limit - 1])))
  }

  function LimitOf(limit: int): int {
    if limit == 0 then DEFAULT_LIMIT else limit
  }

  function Listed(b: Base64, sessions: seq<Entry>, cursor: string, limit: int): Result {
    var n := LimitOf(limit);
    if n < 1 || n > MAX_LIMIT then Err(InvalidLimit)
    else if cursor == "" then Ok(PageOf(b, Ordered(sessions), None, n))
    else match DecodeCursor(b, cursor)
      case None => Err(InvalidCursor)
      case Some(k) => Ok(PageOf(b, Ordered(sessions), Some(k), n))
  }

  lemma {:induction false} LaterMembers(s: seq<Entry>, after: Option<Key>)
    ensures forall e :: e in Later(s, after) <==> e in s && (after.None? || Before(after.value, KeyOf(e)))
    decreases |s|
  {
    if s != [] {
      LaterMembers(s[..|s| - 1], after);
      assert s == s[..|s| - 1] + [s[|s| - 1]];
    }
  }

  lemma {:induction false} LaterAscending(s: seq<Entry>, after: Option<Key>)
    requires Ascending(s)
    ensures Ascending(Later(s, after))
    decreases |s|
  {
    if s != [] {
      var front, last := s[..|s| - 1], s[|s| - 1];
      LaterAscending(front, after);
      LaterMembers(front, after);
      var l := Later(front, after);
      forall i | 0 <= i < |l|
        ensures Before(KeyOf(l[i]), KeyOf(last))
      {
        assert l[i] in front;
        var k :| 0 <= k < |front| && front[k] == l[i];
        assert s[k] == l[i];
      }
    }
  }

  /** In a sorted list the entries past a key are a suffix. */
  lemma {:induction false} LaterIsSuffix(s: seq<Entry>, after: Key, start: nat)
    requires start <= |s|
    requires forall i | 0 <= i < start :: !Before(after, KeyOf(s[i]))
    requires forall i | start <= i < |s| :: Before(after, KeyOf(s[i]))
    ensures Later(s, Some(after)) == s[start..]
    decreases |s|
  {
    if s != [] {
      var front := s[..|s| - 1];
      if start < |s| {
        LaterIsSuffix(front, after, start);
      } else {
        LaterIsSuffix(front, after, start - 1);
      }
    }
  }

  lemma {:induction false} LaterAll(s: seq<Entry>)
    ensures Later(s, None) == s
    decreases |s|
  {
    if s != [] {
      LaterAll(s[..|s| - 1]);
    }
  }

  method Sort(sessions: seq<Entry>) returns (ordered: seq<Entry>)
    ensures ordered == Ordered(sessions)
  {
    ordered := [];
    for i := 0 to |sessions|
      invariant ordered == Ordered(sessions[..i])
    {
      assert sessions[..i + 1][..i] == sessions[..i];
      ordered := Put(ordered, sessions[i]);
    }
    assert sessions[..|sessions|] == sessions;
  }

  method Put(s: seq<Entry>, e: Entry) returns (r: seq<Entry>)
    ensures r == Insert(s, e)
  {
    var i := |s|;
    assert s[..i] == s && s[i..] == [];
    while i > 0 && Before(KeyOf(e), KeyOf(s[i - 1]))
      invariant 0 <= i <= |s|
      invariant Insert(s, e) == Insert(s[..i], e) + s[i..]
    {
      assert s[..i][..i - 1] == s[..i - 1];
      assert s[i - 1..] == [s[i - 1]] + s[i..];
      i := i - 1;
    }
    r := s[..i] + [e] + s[i..];
  }

  /** The first place past a key in a sorted list, by halving. */
  method Search(s: seq<Entry>, after: Key) returns (start: nat)
    requires Sorted(s)
    ensures start <= |s|
    ensures forall i | 0 <= i < start :: !Before(after, KeyOf(s[i]))
    ensures forall i | start <= i < |s| :: Before(after, KeyOf(s[i]))
  {
    var low, high := 0, |s|;
    while low < high
      invariant 0 <= low <= high <= |s|
      invariant forall i | 0 <= i < low :: !Before(after, KeyOf(s[i]))
      invariant forall i | high <= i < |s| :: Before(after, KeyOf(s[i]))
    {
      var middle := (low + high) / 2;
      if Before(after, KeyOf(s[middle])) {
        forall i | middle < i < high
          ensures Before(after, KeyOf(s[i]))
        {
          PastStaysPast(after, KeyOf(s[middle]), KeyOf(s[i]));
        }
        high := middle;
      } else {
        forall i | low <= i < middle
          ensures !Before(after, KeyOf(s[i]))
        {
          NotBeforeTransitive(KeyOf(s[i]), KeyOf(s[middle]), after);
        }
        low := middle + 1;
      }
    }
    start := low;
  }

  lemma {:induction false} PastStaysPast(a: Key, b: Key, c: Key)
    requires Before(a, b) && !Before(c, b)
    ensures Before(a, c)
  {
    BeforeTotal(b, c);
    if b != c {
      BeforeTransitive(a, b, c);
    }
  }

  method List(b: Base64, sessions: seq<Entry>, cursor: string, limit: int) returns (r: Result)
    ensures r == Listed(b, sessions, cursor, limit)
  {
    hide Ordered, Later, DecodeCursor, EncodeCursor, Before, Sorted;
    var n := if limit == 0 then DEFAULT_LIMIT else limit;
    if n < 1 || n > MAX_LIMIT {
      return Err(InvalidLimit);
    }
    var ordered := Sort(sessions);
    OrderedIsStableSort(sessions);
    var start := 0;
    LaterAll(ordered);
    if cursor != "" {
      var after := DecodeCursor(b, cursor);
      if after.None? {
        return Err(InvalidCursor);
      }
      start := Search(ordered, after.value);
      LaterIsSuffix(ordered, after.value, start);
    }
    assert ordered[0..] == ordered;
    var page := Cut(b, ordered, start, n);
    return Ok(page);
  }

  method Cut(b: Base64, ordered: seq<Entry>, start: nat, n: int) returns (page: Page)
    requires start <= |ordered| && n >= 1
    ensures var later := ordered[start..];
      page == if |later| <= n then Page(later, "") else Page(later[..n], EncodeCursor(b, KeyOf(later[n - 1])))
  {
    hide EncodeCursor;
    var end := if start + n < |ordered| then start + n else |ordered|;
    var next := "";
    if end < |ordered| {
      next := EncodeCursor(b, KeyOf(ordered[end - 1]));
    }
    assert end < |ordered| ==> ordered[start..end] == ordered[start..][..n];
    return Page(ordered[start..end], next);
  }

  // ------------------------------------------------------------ a walk over changing snapshots

  /** A snapshot lists each session once, under its id. */
  predicate Snapshot(s: seq<Entry>) {
    && (forall i | 0 <= i < |s| :: s[i].id != "")
    && forall i, j | 0 <= i < j < |s| :: s[i].id != s[j].id
  }

  /** The list taken page by page, each page from a snapshot of its own and the cursor before it. */
  ghost predicate Walk(b: Base64, snapshots: seq<seq<Entry>>, limits: seq<int>, pages: seq<Page>) {
    && |snapshots| == |limits| == |pages|
    && (forall i | 0 <= i < |pages| :: Snapshot(snapshots[i]))
    && (forall i | 0 <= i < |pages| ::
          Listed(b, snapshots[i], if i == 0 then "" else pages[i - 1].next, limits[i]) == Ok(pages[i]))
    && (forall i | 0 <= i < |pages| - 1 :: pages[i].next != "")
  }

  lemma {:induction false} DistinctAscending(s: seq<Entry>)
    requires Snapshot(s)
    ensures Ascending(Ordered(s)) && (forall e :: e in Ordered(s) <==> e in s)
    ensures forall e | e in Ordered(s) :: e.id != ""
  {
    OrderedIsStableSort(s);
    var o := Ordered(s);
    MembersOf(o, s);
    forall i, j | 0 <= i < j < |o|
      ensures Before(KeyOf(o[i]), KeyOf(o[j]))
    {
      BeforeTotal(KeyOf(o[i]), KeyOf(o[j]));
      KeysDistinct(s, o, i, j);
    }
  }

  lemma {:induction false} KeysDistinct(s: seq<Entry>, o: seq<Entry>, i: nat, j: nat)
    requires Snapshot(s) && multiset(o) == multiset(s) && i < j < |o|
    ensures KeyOf(o[i]) != KeyOf(o[j])
  {
    if o[i] == o[j] {
      TwiceIn(o, i, j);
      OnceIn(s, o[i]);
      assert false;
    }
    MembersOf(o, s);
    assert o[i] in s && o[j] in s;
  }

  lemma {:induction false} TwiceIn(o: seq<Entry>, i: nat, j: nat)
    requires i < j < |o| && o[i] == o[j]
    ensures multiset(o)[o[i]] >= 2
  {
    assert o == o[..i] + [o[i]] + o[i + 1..j] + [o[j]] + o[j + 1..];
  }

  lemma {:induction false} OnceIn(s: seq<Entry>, e: Entry)
    requires Snapshot(s)
    ensures multiset(s)[e] <= 1
    decreases |s|
  {
    if s != [] {
      var front, last := s[..|s| - 1], s[|s| - 1];
      assert s == front + [last];
      OnceIn(front, e);
      assert forall i | 0 <= i < |front| :: front[i] == s[i] && s[i].id != last.id;
      if last == e {
        assert e !in front;
      }
    }
  }

  predicate PastKey(after: Option<Key>, e: Entry) {
    after.None? || Before(after.value, KeyOf(e))
  }

  /** What a page holds: entries of its snapshot past the key, in order, and no entry of the
      snapshot between them left out; a page with a cursor ends at the entry the cursor names. */
  ghost predicate Holds(b: Base64, s: seq<Entry>, after: Option<Key>, page: Page) {
    && Ascending(page.entries)
    && (forall e | e in page.entries :: e in s && PastKey(after, e))
    && (page.next == "" ==> forall e | e in s && PastKey(after, e) :: e in page.entries)
    && (page.next != "" ==>
          && page.entries != []
          && var last := page.entries[|page.entries| - 1];
             && page.next == EncodeCursor(b, KeyOf(last)) && last.id != ""
             && forall e | e in s && PastKey(after, e) :: e in page.entries || Before(KeyOf(last), KeyOf(e)))
  }

  lemma {:induction false} TakePast(later: seq<Entry>, n: nat, e: Entry)
    requires Ascending(later) && 1 <= n < |later| && e in later
    ensures e in later[..n] || Before(KeyOf(later[n - 1]), KeyOf(e))
  {
    var i :| 0 <= i < |later| && later[i] == e;
    if i < n {
      assert later[..n][i] == e;
    }
  }

  lemma {:induction false} PageHolds(b: Base64, s: seq<Entry>, after: Option<Key>, limit: int)
    requires Lawful(b) && Snapshot(s) && limit >= 1
    ensures Holds(b, s, after, PageOf(b, Ordered(s), after, limit))
  {
    hide Ordered, EncodeCursor, Before, Later;
    DistinctAscending(s);
    var later, page := Later(Ordered(s), after), PageOf(b, Ordered(s), after, limit);
    LaterAscending(Ordered(s), after);
    LaterMembers(Ordered(s), after);
    if |later| > limit {
      var last := later[limit - 1];
      CursorRoundTrip(b, KeyOf(last));
      assert page.entries == later[..limit] && last in later;
      forall e | e in s && PastKey(after, e)
        ensures e in page.entries || Before(KeyOf(last), KeyOf(e))
      {
        TakePast(later, limit, e);
      }
    }
  }

  /** What a listing answers: of valid limits, none asked for being 50, a page of the entries past the cursor's
      key, in order, as many as the limit allows, with a cursor if and only if more follow; a limit below 1 or
      above 100 is refused, and so is a cursor that does not decode. */
  lemma {:induction false} ListAnswers(b: Base64, s: seq<Entry>, cursor: string, limit: int)
    requires Lawful(b) && Snapshot(s)
    ensures var r, n := Listed(b, s, cursor, limit), if limit == 0 then 50 else limit;
      var after := if cursor == "" then None else DecodeCursor(b, cursor);
      if n < 1 || n > 100 then r == Err(InvalidLimit)
      else if cursor != "" && after.None? then r == Err(InvalidCursor)
      else
        && r.Ok? && Holds(b, s, after, r.page)
        && var left := |set e | e in s && PastKey(after, e)|;
           |r.page.entries| == (if left <= n then left else n) && (r.page.next == "" <==> left <= n)
  {
    hide Ordered, EncodeCursor, DecodeCursor, Before, Later, Ascending, Holds, PageOf;
    var n := LimitOf(limit);
    if 1 <= n <= MAX_LIMIT && (cursor == "" || DecodeCursor(b, cursor).Some?) {
      var after := if cursor == "" then None else DecodeCursor(b, cursor);
      PageHolds(b, s, after, n);
      PageCounts(b, s, after, n);
    }
  }

  lemma {:induction false} AscendingSize(s: seq<Entry>)
    requires Ascending(s)
    ensures |set e | e in s| == |s|
    decreases |s|
  {
    if s != [] {
      var front, e := s[..|s| - 1], s[|s| - 1];
      assert forall i, j | 0 <= i < j < |front| :: front[i] == s[i] && front[j] == s[j];
      AscendingSize(front);
      assert s == front + [e];
      if e in front {
        var i :| 0 <= i < |front| && front[i] == e;
        assert Before(KeyOf(s[i]), KeyOf(s[|s| - 1]));
        BeforeTotal(KeyOf(e), KeyOf(e));
      }
      assert (set x | x in s) == (set x | x in front) + {e};
    }
  }

  lemma {:induction false} PageCounts(b: Base64, s: seq<Entry>, after: Option<Key>, limit: int)
    requires Lawful(b) && Snapshot(s) && limit >= 1
    ensures var page, left := PageOf(b, Ordered(s), after, limit), |set e | e in s && PastKey(after, e)|;
      |page.entries| == (if left <= limit then left else limit) && (page.next == "" <==> left <= limit)
  {
    hide Ordered, EncodeCursor, Before, Later, Ascending;
    DistinctAscending(s);
    var later := Later(Ordered(s), after);
    LaterAscending(Ordered(s), after);
    LaterMembers(Ordered(s), after);
    AscendingSize(later);
    assert (set e | e in later) == set e | e in s && PastKey(after, e);
    if |later| > limit {
      LaterNamed(s, later, limit);
      CursorRoundTrip(b, KeyOf(later[limit - 1]));
    }
  }

  lemma {:induction false} LaterNamed(s: seq<Entry>, later: seq<Entry>, limit: int)
    requires Snapshot(s) && 1 <= limit < |later| && forall e | e in later :: e in s
    ensures KeyOf(later[limit - 1]).id != ""
  {
    assert later[limit - 1] in later;
  }

  /** The key a page of a walk starts past. */
  ghost function StartOf(b: Base64, pages: seq<Page>, i: nat): Option<Key>
    requires i < |pages|
  {
    if i == 0 || pages[i - 1].entries == [] then None
    else Some(KeyOf(pages[i - 1].entries[|pages[i - 1].entries| - 1]))
  }

  lemma {:induction false} WalkHolds(b: Base64, snapshots: seq<seq<Entry>>, limits: seq<int>, pages: seq<Page>, i: nat)
    requires Lawful(b) && Walk(b, snapshots, limits, pages) && i < |pages|
    ensures Holds(b, snapshots[i], StartOf(b, pages, i), pages[i])
    ensures i > 0 ==> StartOf(b, pages, i).Some?
  {
    hide Ordered, EncodeCursor, DecodeCursor, Before, PageOf, Ascending, Lawful;
    if i == 0 {
      assert Listed(b, snapshots[0], "", limits[0]) == Ok(pages[0]);
      PageHolds(b, snapshots[0], None, LimitOf(limits[0]));
    } else {
      WalkHolds(b, snapshots, limits, pages, i - 1);
      var before := pages[i - 1];
      assert before.next != "";
      var k := KeyOf(before.entries[|before.entries| - 1]);
      CursorRoundTrip(b, k);
      assert Listed(b, snapshots[i], before.next, limits[i]) == Ok(pages[i]);
      PageHolds(b, snapshots[i], Some(k), LimitOf(limits[i]));
    }
  }

  function Concat(pages: seq<Page>): seq<Entry> {
    if pages == [] then [] else Concat(pages[..|pages| - 1]) + pages[|pages| - 1].entries
  }

  lemma {:induction false} AscendingConcat(a: seq<Entry>, b: seq<Entry>)
    requires Ascending(a) && Ascending(b) && forall x, y | x in a && y in b :: Before(KeyOf(x), KeyOf(y))
    ensures Ascending(a + b)
  {
    forall i, j | 0 <= i < j < |a + b|
      ensures Before(KeyOf((a + b)[i]), KeyOf((a + b)[j]))
    {
      if i < |a| <= j {
        assert a[i] in a && b[j - |a|] in b;
      }
    }
  }

  /** Whatever changes between its pages, a walk returns strictly ascending keys, so none twice. */
  lemma {:induction false} WalkAscends(b: Base64, snapshots: seq<seq<Entry>>, limits: seq<int>, pages: seq<Page>, n: nat)
    requires Lawful(b) && Walk(b, snapshots, limits, pages) && n <= |pages|
    ensures Ascending(Concat(pages[..n]))
    ensures 0 < n < |pages| ==>
      StartOf(b, pages, n).Some? && forall e | e in Concat(pages[..n]) :: !Before(StartOf(b, pages, n).value, KeyOf(e))
  {
    hide Before, Lawful, Listed, Ascending, Walk, Holds;
    if n > 0 {
      WalkAscends(b, snapshots, limits, pages, n - 1);
      WalkHolds(b, snapshots, limits, pages, n - 1);
      WalkShape(b, snapshots, limits, pages);
      HoldsEntries(b, snapshots[n - 1], StartOf(b, pages, n - 1), pages[n - 1]);
      var a, p := Concat(pages[..n - 1]), pages[n - 1];
      assert pages[..n][..n - 1] == pages[..n - 1];
      if n > 1 {
        Across(a, StartOf(b, pages, n - 1).value, p.entries);
      } else {
        assert a == [];
      }
      AscendingConcat(a, p.entries);
      if n < |pages| {
        WalkHolds(b, snapshots, limits, pages, n);
        EndsHighest(a, p.entries);
      }
    } else {
      NoneAscending();
    }
  }

  lemma {:induction false} WalkShape(b: Base64, snapshots: seq<seq<Entry>>, limits: seq<int>, pages: seq<Page>)
    requires Walk(b, snapshots, limits, pages)
    ensures |snapshots| == |limits| == |pages| && forall i | 0 <= i < |pages| - 1 :: pages[i].next != ""
  {
  }

  lemma {:induction false} HoldsEntries(b: Base64, s: seq<Entry>, after: Option<Key>, page: Page)
    requires Holds(b, s, after, page)
    ensures Ascending(page.entries) && (page.next != "" ==> page.entries != [])
    ensures after.Some? ==> forall e | e in page.entries :: Before(after.value, KeyOf(e))
  {
    hide Before, Ascending;
  }

  lemma {:induction false} NoneAscending()
    ensures Ascending([])
  {
  }

  lemma {:induction false} Across(a: seq<Entry>, k: Key, p: seq<Entry>)
    requires forall x | x in a :: !Before(k, KeyOf(x))
    requires forall y | y in p :: Before(k, KeyOf(y))
    ensures forall x, y | x in a && y in p :: Before(KeyOf(x), KeyOf(y))
  {
    hide Before;
    forall x, y | x in a && y in p
      ensures Before(KeyOf(x), KeyOf(y))
    {
      BeforeTotal(k, KeyOf(x));
      if k != KeyOf(x) {
        BeforeTransitive(KeyOf(x), k, KeyOf(y));
      }
    }
  }

  lemma {:induction false} EndsHighest(a: seq<Entry>, p: seq<Entry>)
    requires p != [] && Ascending(a + p)
    ensures forall e | e in a + p :: !Before(KeyOf(p[|p| - 1]), KeyOf(e))
  {
    hide Before;
    var s := a + p;
    forall e | e in s
      ensures !Before(KeyOf(p[|p| - 1]), KeyOf(e))
    {
      var i :| 0 <= i < |s| && s[i] == e;
      assert s[|s| - 1] == p[|p| - 1];
      BeforeTotal(KeyOf(e), KeyOf(p[|p| - 1]));
    }
  }

  /** An entry in every snapshot has been returned, or is still past the cursor. */
  lemma {:induction false} WalkReaches(
    b: Base64, snapshots: seq<seq<Entry>>, limits: seq<int>, pages: seq<Page>, e: Entry, n: nat)
    requires Lawful(b) && Walk(b, snapshots, limits, pages) && n <= |pages|
    requires forall i | 0 <= i < |snapshots| :: e in snapshots[i]
    ensures e in Concat(pages[..n]) || n == 0 || (pages[n - 1].next != "" && (n < |pages| ==> PastKey(StartOf(b, pages, n), e)))
  {
    hide Before, Lawful, Listed, Ascending, EncodeCursor;
    if n > 0 {
      WalkReaches(b, snapshots, limits, pages, e, n - 1);
      WalkHolds(b, snapshots, limits, pages, n - 1);
      assert pages[..n][..n - 1] == pages[..n - 1];
    }
  }

  /** A walk taken to its end returns every entry present unchanged in all its snapshots exactly
      once, and all it returns in list order. */
  lemma {:induction false} WalkReturnsAll(b: Base64, snapshots: seq<seq<Entry>>, limits: seq<int>, pages: seq<Page>, e: Entry)
    requires Lawful(b) && Walk(b, snapshots, limits, pages) && pages != [] && pages[|pages| - 1].next == ""
    requires forall i | 0 <= i < |snapshots| :: e in snapshots[i]
    ensures Ascending(Concat(pages))
    ensures exists i ::
      && 0 <= i < |Concat(pages)| && Concat(pages)[i] == e
      && (forall j | 0 <= j < |Concat(pages)| && KeyOf(Concat(pages)[j]) == KeyOf(e) :: j == i)
  {
    hide Before, Lawful, Listed, Concat;
    assert pages[..|pages|] == pages;
    WalkAscends(b, snapshots, limits, pages, |pages|);
    WalkReaches(b, snapshots, limits, pages, e, |pages|);
    var all := Concat(pages);
    var i :| 0 <= i < |all| && all[i] == e;
    forall j | 0 <= j < |all| && KeyOf(all[j]) == KeyOf(e)
      ensures j == i
    {
      BeforeTotal(KeyOf(e), KeyOf(all[j]));
    }
  }
}
