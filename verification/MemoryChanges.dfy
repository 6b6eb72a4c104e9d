/** The operations of the in-memory session taken apart into single changes, and resumes that come
    between any two of them. */
module MemoryChanges {
  import opened Basics
  import opened RunEvents
  import opened CompactionChecker
  import opened MemoryRun
  import opened SessionLedger
  import opened MemoryBook
  import opened MemoryOps
  import opened MemoryCalls
  import opened MemoryGates
  import opened MemoryHistory

  // ------------------------------------------------------------ single changes

  /** The fields of a run that operations set beside its events. */
  datatype Fields = Fields(
    status: Status, stage: Stage, answered: bool, acknowledged: bool, settledArm: Arm, settledRequest: nat,
    admittedSteers: seq<nat>, started: bool)

  function FieldsOf(run: Run): Fields {
    Fields(run.status, run.stage, run.answered, run.acknowledged, run.settledArm, run.settledRequest,
           run.admittedSteers, run.started)
  }

  function WithFields(run: Run, f: Fields): Run {
    run.(status := f.status, stage := f.stage, answered := f.answered, acknowledged := f.acknowledged,
         settledArm := f.settledArm, settledRequest := f.settledRequest, admittedSteers := f.admittedSteers,
         started := f.started)
  }

  datatype Change =
    | OnePublished(run: nat, kind: Kind)
    | FieldsSet(run: nat, fields: Fields)
    | Counted(ids: nat, history: nat)
    | RunEnlisted(enlisted: Run, queue: bool)
    | SteerHeld(run: nat, envelope: nat)
    | ThresholdSet(tokens: nat)
    | SessionClosed

  /** What an operation knows when it makes a change. */
  ghost predicate Allowed(b: Book, c: Change) {
    match c
    case OnePublished(id, k) => MayPublish(b, id, k)
    case FieldsSet(id, f) =>
      && id in b.runs && (b.runs[id].started ==> f.started)
      && (f.started == b.runs[id].started || b.reserved != Some(id))
    case Counted(ids, _) => ids >= b.ids
    case RunEnlisted(run, _) => NewDraft(run) && !(Live(b, b.active) && Live(b, b.reserved))
    case SteerHeld(id, _) => id in b.runs && b.runs[id].started && !b.runs[id].terminal && b.runs[id].nextSequence > 0
    case ThresholdSet(_) => true
    case SessionClosed => !Live(b, b.active) && !Live(b, b.reserved)
  }

  ghost function Changed(b: Book, c: Change): Book
    requires Allowed(b, c)
  {
    match c
    case OnePublished(id, k) => Published(b, id, k)
    case FieldsSet(id, f) => Put(b, id, WithFields(b.runs[id], f))
    case Counted(ids, history) => b.(ids := ids, history := history)
    case RunEnlisted(run, queue) => Enlisted(b, run, queue)
    case SteerHeld(id, envelope) => SteeredBook(b, id, envelope)
    case ThresholdSet(tokens) => b.(threshold := tokens)
    case SessionClosed => b.(closed := true)
  }

  /** One change after another, each allowed where it is made. */
  ghost function ChangedAll(b: Book, cs: seq<Change>): Option<Book> {
    if cs == [] then Some(b) else Further(ChangedAll(b, cs[..|cs| - 1]), cs[|cs| - 1])
  }

  ghost function Further(o: Option<Book>, c: Change): Option<Book> {
    match o
    case None => None
    case Some(b) => if Allowed(b, c) then Some(Changed(b, c)) else None
  }

  lemma {:induction false} ChangedSnoc(b: Book, cs: seq<Change>, c: Change)
    ensures ChangedAll(b, cs + [c]) == Further(ChangedAll(b, cs), c)
  {
    assert (cs + [c])[..|cs|] == cs;
  }

  lemma {:induction false} ChangedConcat(b: Book, m: Book, cs: seq<Change>, ds: seq<Change>)
    requires ChangedAll(b, cs) == Some(m)
    ensures ChangedAll(b, cs + ds) == ChangedAll(m, ds)
    decreases |ds|
  {
    hide Further;
    if ds == [] {
      assert cs + ds == cs;
    } else {
      var front, last := ds[..|ds| - 1], ds[|ds| - 1];
      ChangedConcat(b, m, cs, front);
      assert cs + ds == (cs + front) + [last];
      ChangedSnoc(b, cs + front, last);
    }
  }

  lemma {:induction false} PlainSound(b: Book, b': Book)
    requires Sound(b) && b' == b.(closed := b'.closed, threshold := b'.threshold)
    ensures Sound(b')
  {
    hide RunsSound, LogSound, StreamsSound, SteersSound, SlotsSound, OrderSound;
  }

  lemma {:induction false} ChangeSound(b: Book, c: Change)
    requires Sound(b) && Allowed(b, c)
    ensures Sound(Changed(b, c))
  {
    hide Sound, MayPublish, NewDraft, Published, Put, Enlisted, SteeredBook, Live;
    match c
    case OnePublished(id, k) => PublishedSound(b, id, k);
    case FieldsSet(id, f) => PutSound(b, id, WithFields(b.runs[id], f));
    case Counted(ids, history) => CountersSound(b, ids, history);
    case RunEnlisted(run, queue) => EnlistedSound(b, run, queue);
    case SteerHeld(id, envelope) => SteeredSound(b, id, envelope);
    case ThresholdSet(_) => PlainSound(b, Changed(b, c));
    case SessionClosed => PlainSound(b, Changed(b, c));
  }

  // ------------------------------------------------------------ resumes disturb no change

  /** The same session but for who listens to it. */
  ghost predicate Same(b: Book, m: Book) {
    && m == b.(streams := m.streams, feeds := m.feeds, runs := m.runs) && m.runs.Keys == b.runs.Keys
    && forall id | id in b.runs :: m.runs[id] == b.runs[id].(subscribers := m.runs[id].subscribers)
  }

  lemma {:induction false} SameThen(b: Book, m: Book, n: Book)
    requires Same(b, m) && Same(m, n)
    ensures Same(b, n)
  {
  }

  lemma {:induction false} SameBack(b: Book, m: Book)
    requires Same(b, m)
    ensures Same(m, b)
  {
  }

  lemma {:induction false} SameMayPublish(b: Book, m: Book, id: nat, k: Kind)
    requires Same(b, m) && MayPublish(b, id, k)
    ensures MayPublish(m, id, k)
  {
    hide StartsOf, Next;
  }

  lemma {:induction false} SameRunAfter(run: Run, run': Run, k: Kind, eventID: nat)
    requires run' == run.(subscribers := run'.subscribers)
    ensures var r, r' := RunAfter(run, k, eventID), RunAfter(run', k, eventID); r' == r.(subscribers := r'.subscribers)
  {
  }

  lemma {:induction false} SamePublished(b: Book, m: Book, id: nat, k: Kind)
    requires Same(b, m) && id in b.runs && id in b.traces
    ensures Same(Published(b, id, k), Published(m, id, k))
  {
    hide RunAfter, SlotsAfter, Delivered, SettledAfter;
    SameRunAfter(b.runs[id], m.runs[id], k, b.ids);
  }

  lemma {:induction false} SamePut(b: Book, m: Book, id: nat, f: Fields)
    requires Same(b, m) && id in b.runs
    ensures Same(Put(b, id, WithFields(b.runs[id], f)), Put(m, id, WithFields(m.runs[id], f)))
  {
  }

  lemma {:induction false} SameLive(b: Book, m: Book, slot: Option<nat>)
    requires Same(b, m)
    ensures Live(b, slot) == Live(m, slot)
  {
  }

  lemma {:induction false} SameEnlisted(b: Book, m: Book, run: Run, queue: bool)
    requires Same(b, m)
    ensures Same(Enlisted(b, run, queue), Enlisted(m, run, queue))
  {
    SameLive(b, m, b.active);
    hide Live;
    var b', m' := Enlisted(b, run, queue), Enlisted(m, run, queue);
    forall id | id in b'.runs
      ensures m'.runs[id] == b'.runs[id].(subscribers := m'.runs[id].subscribers)
    {
    }
  }

  lemma {:induction false} SameSteered(b: Book, m: Book, id: nat, envelope: nat)
    requires Same(b, m) && id in b.runs && b.runs[id].nextSequence > 0
    ensures Same(SteeredBook(b, id, envelope), SteeredBook(m, id, envelope))
  {
  }

  lemma {:induction false} SameAllowed(b: Book, m: Book, c: Change)
    requires Same(b, m) && Allowed(b, c)
    ensures Allowed(m, c)
  {
    hide MayPublish, NewDraft, Live;
    SameLive(b, m, b.active);
    SameLive(b, m, b.reserved);
    match c
    case OnePublished(id, k) => SameMayPublish(b, m, id, k);
    case _ =>
  }

  /** A change is allowed whoever listens, and comes to the same. */
  lemma {:induction false} SameChange(b: Book, m: Book, c: Change)
    requires Same(b, m) && Allowed(b, c)
    ensures Allowed(m, c) && Same(Changed(b, c), Changed(m, c))
  {
    SameAllowed(b, m, c);
    hide Same, MayPublish, Published, Enlisted, SteeredBook, Put, WithFields, NewDraft, Live;
    match c {
      case OnePublished(id, k) =>
        KnownBoth(b, m, id, k);
        SamePublished(b, m, id, k);
      case FieldsSet(id, f) => SamePut(b, m, id, f);
      case RunEnlisted(run, queue) => SameEnlisted(b, m, run, queue);
      case SteerHeld(id, envelope) => SameSteered(b, m, id, envelope);
      case _ => SamePlain(b, m, Changed(b, c), Changed(m, c));
    }
  }

  lemma {:induction false} SamePlain(b: Book, m: Book, b': Book, m': Book)
    requires Same(b, m)
    requires b' == b.(ids := b'.ids, history := b'.history, threshold := b'.threshold, closed := b'.closed)
    requires m' == m.(ids := b'.ids, history := b'.history, threshold := b'.threshold, closed := b'.closed)
    ensures Same(b', m')
  {
  }

  lemma {:induction false} KnownBoth(b: Book, m: Book, id: nat, k: Kind)
    requires MayPublish(b, id, k) && MayPublish(m, id, k)
    ensures id in b.runs && id in b.traces && id in m.runs && id in m.traces
  {
  }

  lemma {:induction false} SameResumed(b: Book, capacity: nat, id: nat, after: nat)
    ensures Same(b, ResumeBook(b, OfRun(Tail(b.log, capacity), id), id, after))
  {
    hide OfRun, Tail, Past, GapIn, Oldest;
  }

  /** A resume takes nothing from an operation under way: whatever single change was allowed before
      it is allowed after it, and the other way about, and comes to the same. */
  lemma {:induction false} ResumeDisturbsNothing(b: Book, capacity: nat, id: nat, after: nat, c: Change)
    ensures var m := ResumeBook(b, OfRun(Tail(b.log, capacity), id), id, after);
      (Allowed(b, c) <==> Allowed(m, c)) && (Allowed(b, c) ==> Same(Changed(b, c), Changed(m, c)))
  {
    hide Same, Allowed, Changed, OfRun, Tail, ResumeBook;
    var m := ResumeBook(b, OfRun(Tail(b.log, capacity), id), id, after);
    SameResumed(b, capacity, id, after);
    SameBack(b, m);
    if Allowed(b, c) {
      SameChange(b, m, c);
    } else if Allowed(m, c) {
      SameChange(m, b, c);
    }
  }

  /** One turn of a session: a change some operation makes, or a resume, which waits for none. */
  datatype Turn = Done(change: Change) | Resumed(run: nat, after: nat)

  ghost function Turned(b: Book, capacity: nat, t: Turn): Option<Book> {
    match t
    case Done(c) => if Allowed(b, c) then Some(Changed(b, c)) else None
    case Resumed(id, after) => Some(ResumeBook(b, OfRun(Tail(b.log, capacity), id), id, after))
  }

  ghost function TurnedAll(b: Book, capacity: nat, ts: seq<Turn>): Option<Book> {
    if ts == [] then Some(b)
    else
      match TurnedAll(b, capacity, ts[..|ts| - 1])
      case None => None
      case Some(m) => Turned(m, capacity, ts[|ts| - 1])
  }

  /** The changes of some turns, the resumes left out. */
  function ChangesOf(ts: seq<Turn>): seq<Change> {
    if ts == [] then []
    else ChangesOf(ts[..|ts| - 1]) + if ts[|ts| - 1].Done? then [ts[|ts| - 1].change] else []
  }

  lemma {:induction false} TurnSound(b: Book, capacity: nat, t: Turn)
    requires Sound(b) && Turned(b, capacity, t).Some?
    ensures Sound(Turned(b, capacity, t).value)
  {
    hide Sound, Allowed, Changed, ResumeBook, OfRun, Tail;
    match t
    case Done(c) => ChangeSound(b, c);
    case Resumed(id, after) => ResumeSound(b, capacity, id, after);
  }

  /** However resumes are put between changes, the changes stay allowed and come to the same. */
  lemma {:induction false} Interleaved(b: Book, m: Book, capacity: nat, ts: seq<Turn>)
    requires Same(b, m) && Sound(m) && ChangedAll(b, ChangesOf(ts)).Some?
    ensures TurnedAll(m, capacity, ts).Some? && Sound(TurnedAll(m, capacity, ts).value)
    ensures Same(ChangedAll(b, ChangesOf(ts)).value, TurnedAll(m, capacity, ts).value)
    decreases |ts|
  {
    hide Same, Sound, Allowed, Changed, ResumeBook, OfRun, Tail;
    if ts != [] {
      var front, t := ts[..|ts| - 1], ts[|ts| - 1];
      if t.Done? {
        ChangedSnoc(b, ChangesOf(front), t.change);
      } else {
        assert ChangesOf(ts) == ChangesOf(front);
      }
      Interleaved(b, m, capacity, front);
      var b1, m1 := ChangedAll(b, ChangesOf(front)).value, TurnedAll(m, capacity, front).value;
      match t {
        case Done(c) => SameChange(b1, m1, c);
        case Resumed(id, after) =>
          SameResumed(m1, capacity, id, after);
          SameThen(b1, m1, ResumeBook(m1, OfRun(Tail(m1.log, capacity), id), id, after));
      }
      TurnSound(m1, capacity, t);
    }
  }

  // ------------------------------------------------------------ what is reached

  /** One book is reached from another by single changes, each allowed where it is made. */
  ghost predicate Reached(b: Book, b': Book) {
    exists cs :: ChangedAll(b, cs) == Some(b')
  }

  lemma {:induction false} ReachedSelf(b: Book)
    ensures Reached(b, b)
  {
    assert ChangedAll(b, []) == Some(b);
  }

  lemma {:induction false} ReachedOne(b: Book, c: Change)
    requires Allowed(b, c)
    ensures Reached(b, Changed(b, c))
  {
    hide Allowed, Changed;
    assert [] + [c] == [c];
    ChangedSnoc(b, [], c);
    assert ChangedAll(b, [c]) == Some(Changed(b, c));
  }

  lemma {:induction false} ReachedThen(b: Book, m: Book, b': Book)
    requires Reached(b, m) && Reached(m, b')
    ensures Reached(b, b')
  {
    hide ChangedAll;
    var cs :| ChangedAll(b, cs) == Some(m);
    var ds :| ChangedAll(m, ds) == Some(b');
    ChangedConcat(b, m, cs, ds);
  }

  lemma {:induction false} PublishReached(b: Book, id: nat, f: Focus, k: Kind)
    requires At(b, id, f) && !k.RunStarted? && Next(f, k).Some?
    ensures id in b.runs && id in b.traces && Reached(b, Published(b, id, k))
  {
    hide Sound, Next, FocusOf, Published, Reached;
    ReachedOne(b, OnePublished(id, k));
  }

  lemma {:induction false} PutReached(b: Book, id: nat, r': Run)
    requires id in b.runs && Cosmetic(b.runs[id], r') && (r'.started == b.runs[id].started || b.reserved != Some(id))
    ensures Reached(b, Put(b, id, r'))
  {
    hide Reached;
    assert WithFields(b.runs[id], FieldsOf(r')) == r';
    ReachedOne(b, FieldsSet(id, FieldsOf(r')));
  }

  lemma {:induction false} CountReached(b: Book, ids: nat, history: nat)
    requires ids >= b.ids
    ensures Reached(b, b.(ids := ids, history := history))
  {
    hide Reached;
    ReachedOne(b, Change.Counted(ids, history));
  }

  lemma {:induction false} PlayReached(b: Book, id: nat, f: Focus, ks: seq<Kind>, g: Focus)
    requires At(b, id, f) && Quiet(ks) && NextAll(f, ks) == Some(g)
    ensures id in b.runs && id in b.traces && Reached(b, PublishedAll(b, id, ks))
    decreases |ks|
  {
    hide Sound, Next, FocusOf, Published, Reached, Moved, At;
    AtRun(b, id, f);
    if ks == [] {
      ReachedSelf(b);
    } else {
      var front, k := ks[..|ks| - 1], ks[|ks| - 1];
      var mid := NextAll(f, front).value;
      Play(b, id, f, front, mid);
      PlayReached(b, id, f, front, mid);
      var m := PublishedAll(b, id, front);
      PublishReached(m, id, mid, k);
      ReachedThen(b, m, Published(m, id, k));
    }
  }

  // ------------------------------------------------------------ the steps operations share

  lemma {:induction false} InputAskedReached(b: Book, id: nat, f: Focus)
    requires At(b, id, f) && Ready(f)
    ensures id in b.runs && id in b.traces && Reached(b, InputAsked(b, id))
  {
    hide Sound, FocusOf, Next, NextAll, PublishedAll, Published, Advance, Observe, Calm, Moved, At, AllShut, Reached;
    AtRun(b, id, f);
    var ks := Applied(f.steers);
    SettleEach(f, ks, |ks|);
    assert ks[..|ks|] == ks && f.steers[|ks|..] == [];
    var f1 := f.(steers := []);
    var g := f1.(t := f1.t.(input := Open));
    Play(b, id, f, ks, f1);
    PlayReached(b, id, f, ks, f1);
    var b1 := PublishedAll(b, id, ks);
    InputFocus(f1);
    PlayOne(b1, id, f1, InputRequested, g);
    PublishReached(b1, id, f1, InputRequested);
    var b2 := Published(b1, id, InputRequested);
    var b3 := Put(b2, id, b2.runs[id].(status := WaitingForInput));
    Adjusted(b2, id, g, b3.runs[id]);
    PutReached(b2, id, b3.runs[id]);
    PublishReached(b3, id, g, StatusUpdated(WaitingForInput));
    ReachedThen(b, b1, b2);
    ReachedThen(b, b2, b3);
    ReachedThen(b, b3, InputAsked(b, id));
  }

  lemma {:induction false} CompactedReached(b: Book, id: nat, f: Focus, reason: Reason)
    requires At(b, id, f) && Uncompacted(f, reason)
    ensures id in b.runs && id in b.traces && Reached(b, Compacted(b, id, reason))
  {
    hide Sound, FocusOf, NextAll, PublishedAll, Moved, At, Uncompacted, Reached;
    AtRun(b, id, f);
    var ks := [CompactionStarted(b.ids, reason), CompactionEnded(b.ids, OutcomeCompleted, false)];
    CompactionFocus(f, b.ids, reason);
    MemoryOps.Counted(b, id, f, b.ids + 1, b.history);
    CountReached(b, b.ids + 1, b.history);
    var b1 := b.(ids := b.ids + 1);
    PlayReached(b1, id, f, ks, f.(c := CompactedCheck(f.c, b.ids, reason)));
    var b2 := PublishedAll(b1, id, ks);
    CountReached(b2, b2.ids, SummaryTokens(b.runs[id].focus));
    ReachedThen(b, b1, b2);
    ReachedThen(b, b2, Compacted(b, id, reason));
  }

  lemma {:induction false} AskedReached(b: Book, id: nat, f: Focus)
    requires At(b, id, f) && Ready(f) && f.t == UNSEEN.(started := true) && f.steers == []
    ensures id in b.runs && id in b.traces && Reached(b, Asked(b, id))
  {
    hide Sound, FocusOf, Next, NextAll, PublishedAll, Published, Moved, At, Ready, InputAsked, Advance, Observe, Reached;
    AtRun(b, id, f);
    InputFocus(f);
    PlayOne(b, id, f, ContentDelta, f);
    PublishReached(b, id, f, ContentDelta);
    var b1 := Published(b, id, ContentDelta);
    MovedRun(b, b1, id, [ContentDelta]);
    GateFocus(f);
    if !b.runs[id].callsTool {
      InputAskedReached(b1, id, f);
    } else if b.runs[id].callID != 0 {
      PublishReached(b1, id, f, CallRequested);
    } else {
      PlayReached(b1, id, f, [CallRequested, PermissionRequested], f.(t := f.t.(call := CallOpen, permission := Open)));
    }
    ReachedThen(b, b1, Asked(b, id));
  }

  lemma {:induction false} BegunReached(b: Book, id: nat)
    requires Unbegun(b, id)
    ensures id in b.traces && Reached(b, Begun(b, id))
  {
    hide Sound, FocusOf, StartsOf, Next, Published, Reached, Delivered;
    var run := b.runs[id];
    var r' := run.(started := true, status := Running);
    BeginsFocus(b, id);
    Starting(run);
    PutSound(b, id, r');
    PutReached(b, id, r');
    var b1 := Put(b, id, r');
    ReachedOne(b1, OnePublished(id, RunStarted));
    ReachedThen(b, b1, Begun(b, id));
  }

  lemma {:induction false} OpenedReached(b: Book, id: nat)
    requires Unbegun(b, id)
    ensures id in b.traces && Reached(b, Opened(b, id))
  {
    hide Sound, FocusOf, StartsOf, Begun, Compacted, Asked, At, Moved, Waiting, Next, Ready, BeganWith, Draft, Uncompacted, Reached;
    var run := b.runs[id];
    Begins(b, id);
    BegunReached(b, id);
    BeginsUncompacted(b, id);
    var b1, f := Begun(b, id), BegunFocus(run);
    if run.compaction {
      CompactingReached(b, b1, id, f);
      ReachedThen(b, b1, Opened(b, id));
    } else {
      var b2 := b1.(history := b1.history + run.input);
      MemoryOps.Counted(b1, id, f, b1.ids, b2.history);
      CountReached(b1, b1.ids, b2.history);
      ReachedThen(b, b1, b2);
      BegunHistory(b, id);
      RunningReached(b, b2, id, f, AutoReason(b2));
      ReachedThen(b, b2, Opened(b, id));
    }
  }

  lemma {:induction false} CompactingReached(b: Book, b1: Book, id: nat, f: Focus)
    requires Unbegun(b, id) && b.runs[id].compaction && f == BegunFocus(b.runs[id])
    requires At(b1, id, f) && Uncompacted(f, Requested)
    ensures id in b1.runs && id in b1.traces
    ensures var b2 := Compacted(b1, id, Requested);
      Reached(b1, if b.runs[id].compactContinue then Asked(b2, id) else Published(b2, id, RunCompleted("compacted")))
  {
    hide Sound, FocusOf, Compacted, Asked, Published, At, Moved, Next, Ready, Uncompacted, Reached;
    AtRun(b1, id, f);
    Compacts(b1, id, f, Requested);
    CompactedReached(b1, id, f, Requested);
    var run := b.runs[id];
    var b2, g := Compacted(b1, id, Requested), f.(c := CompactedCheck(f.c, b1.ids, Requested));
    if run.compactContinue {
      CompactedReady(run, b1.ids, Some(Requested));
      AskedReached(b2, id, g);
      ReachedThen(b1, b2, Asked(b2, id));
    } else {
      CompactedSettles(run, b1.ids);
      PublishReached(b2, id, g, RunCompleted("compacted"));
      ReachedThen(b1, b2, Published(b2, id, RunCompleted("compacted")));
    }
  }

  lemma {:induction false} RunningReached(b: Book, b2: Book, id: nat, f: Focus, reason: Option<Reason>)
    requires Unbegun(b, id) && !b.runs[id].compaction && f == BegunFocus(b.runs[id])
    requires At(b2, id, f)
    requires reason.Some? ==> !reason.value.Requested? && Uncompacted(f, reason.value)
    ensures id in b2.runs && id in b2.traces
    ensures Reached(b2, Asked(if reason.Some? then Compacted(b2, id, reason.value) else b2, id))
  {
    hide Sound, FocusOf, Compacted, Asked, Published, At, Moved, Next, Ready, Uncompacted, Reached;
    AtRun(b2, id, f);
    CompactedReady(b.runs[id], b2.ids, reason);
    if reason.Some? {
      Compacts(b2, id, f, reason.value);
      CompactedReached(b2, id, f, reason.value);
      var b3 := Compacted(b2, id, reason.value);
      var g := f.(c := CompactedCheck(f.c, b2.ids, reason.value));
      AskedReached(b3, id, g);
      ReachedThen(b2, b3, Asked(b3, id));
    } else {
      AskedReached(b2, id, f);
    }
  }

  lemma {:induction false} SettledReached(b: Book, id: nat, f: Focus, k: Kind)
    requires InvBut(b, id) && !b.closed && At(b, id, f) && b.runs[id].answered && Settleable(f, k)
    ensures id in b.traces && Reached(b, SettledBook(b, id, k))
  {
    hide Sound, FocusOf, Next, NextAll, PublishedAll, Published, Moved, Opened, Poised, Draft, Settleable, Waiting, Reached;
    AtRun(b, id, f);
    SteersNamed(b, id, f);
    var ks := Dropped(f.steers);
    DroppedFocus(f, k);
    var g := f.(steers := []);
    Play(b, id, f, ks, g);
    PlayReached(b, id, f, ks, g);
    var b1 := PublishedAll(b, id, ks);
    MovedFrame(b, b1, id, ks);
    InvButMoves(b, b1, id);
    SettlesTerminal(f, k);
    EndReached(b1, id, g, k);
    ReachedThen(b, b1, SettledBook(b, id, k));
  }

  lemma {:induction false} EndReached(b1: Book, id: nat, g: Focus, k: Kind)
    requires InvBut(b1, id) && !b1.closed && At(b1, id, g) && b1.runs[id].answered && Terminal(k) && Next(g, k).Some?
    ensures id in b1.traces
    ensures var b2, p := Published(b1, id, k), Promoted(b1, id, k);
      Reached(b1, if p.Some? && p.value in b2.runs && p.value in b2.traces then Opened(b2, p.value) else b2)
  {
    hide Sound, FocusOf, Next, Published, Opened, Poised, Draft, Waiting, Kinds, Reached, SettledWith, Inv;
    SettlesRun(b1, id, g, k);
    PublishReached(b1, id, g, k);
    var b2 := Published(b1, id, k);
    SlotsOf(b1);
    if Promoted(b1, id, k).Some? {
      var p := Promoted(b1, id, k).value;
      PromotedUnbegun(b1, b2, id, p);
      OpenedReached(b2, p);
      ReachedThen(b1, b2, Opened(b2, p));
    }
  }

  lemma {:induction false} AskNextReached(b: Book, id: nat, f: Focus, ks: seq<Kind>, g: Focus)
    requires At(b, id, f) && Quiet(ks) && NextAll(f, ks) == Some(g) && Ready(g)
    ensures id in b.runs && id in b.traces && Reached(b, InputAsked(PublishedAll(b, id, ks), id))
  {
    hide Sound, FocusOf, Next, NextAll, PublishedAll, InputAsked, Moved, At, Reached;
    AtRun(b, id, f);
    Play(b, id, f, ks, g);
    PlayReached(b, id, f, ks, g);
    var m := PublishedAll(b, id, ks);
    InputAskedReached(m, id, g);
    ReachedThen(b, m, InputAsked(m, id));
  }

  lemma {:induction false} SettleNextReached(b: Book, id: nat, f: Focus, ks: seq<Kind>, g: Focus, history: nat, k: Kind)
    requires InvBut(b, id) && !b.closed && At(b, id, f) && Quiet(ks) && NextAll(f, ks) == Some(g) && Settleable(g, k)
    requires b.runs[id].answered
    ensures id in b.traces && Reached(b, SettledBook(PublishedAll(b, id, ks).(history := history), id, k))
  {
    hide Sound, FocusOf, Next, NextAll, PublishedAll, SettledBook, Moved, At, Settleable, Reached;
    AtRun(b, id, f);
    Play(b, id, f, ks, g);
    PlayReached(b, id, f, ks, g);
    var m := PublishedAll(b, id, ks);
    MovedFrame(b, m, id, ks);
    AtRun(m, id, g);
    MemoryOps.Counted(m, id, g, m.ids, history);
    CountReached(m, m.ids, history);
    var b2 := m.(history := history);
    MovedFrame(m, b2, id, []);
    OnlyRunThen(b, m, b2, id);
    AtSound(b2, id, g);
    InvButMoves(b, b2, id);
    SettledReached(b2, id, g, k);
    ReachedThen(b, m, b2);
    ReachedThen(b, b2, SettledBook(b2, id, k));
  }

  // ------------------------------------------------------------ the operations

  lemma {:induction false} AdmitReached(b: Book, run: Run, queue: bool)
    requires Inv(b) && !b.closed && NewDraft(run) && !(Live(b, b.active) && Live(b, b.reserved))
    ensures Reached(b, AdmitBook(b, run, queue))
  {
    hide Sound, StartsOf, Steady, FocusOf, Opened, Kinds, Reached, SteadyAt;
    var b1, id := Enlisted(b, run, queue), b.ids;
    ReachedOne(b, RunEnlisted(run, queue));
    EnlistedSound(b, run, queue);
    SlotsOf(b);
    NotYet(b);
    if Live(b, b.active) {
      PutReached(b1, id, b1.runs[id].(answered := true));
      ReachedThen(b, b1, AdmitBook(b, run, queue));
    } else {
      DraftUnbegun(b1, id);
      OpenedReached(b1, id);
      var b2 := Opened(b1, id);
      ReachedThen(b, b1, b2);
      PutReached(b2, id, b2.runs[id].(answered := true));
      ReachedThen(b, b2, AdmitBook(b, run, queue));
    }
  }

  lemma {:induction false} SubmitReached(b: Book, cfg: Config, q: Submission)
    requires Inv(b)
    ensures Reached(b, SubmitBook(b, cfg, q))
  {
    hide Sound, SteadyAt, AdmitBook, Reached, SteeredBook;
    ReachedSelf(b);
    if q.delivery.AsSteer? {
      if SteerRefusal(b, cfg, q).None? && b.runs[SteerTarget(b, q.target).run].nextSequence != 0 {
        SteerTargets(b, q.target);
        ReachedOne(b, SteerHeld(SteerTarget(b, q.target).run, q.envelope));
      }
    } else if SubmitRefusal(b, cfg, q).None? {
      AdmitReached(b, SubmittedRun(b, cfg, q), q.delivery.AsQueue?);
    }
  }

  lemma {:induction false} CompactReached(b: Book, cfg: Config, q: Compaction)
    requires Inv(b)
    ensures Reached(b, CompactBook(b, cfg, q))
  {
    hide Sound, SteadyAt, AdmitBook, Reached;
    ReachedSelf(b);
    if CompactRefusal(b, cfg, q).None? {
      AdmitReached(b, CompactingRun(b, q), q.delivery.AsQueue?);
    }
  }

  /** A started run's fields set first, then a script that leaves it ready for its input. */
  lemma {:induction false} GateReached(b: Book, id: nat, r': Run, ks: seq<Kind>, g: Focus)
    requires Inv(b) && !b.closed && id in b.runs && b.runs[id].started && !b.runs[id].terminal && Known(b, id)
    requires Cosmetic(b.runs[id], r') && r'.answered && r'.started
    requires Quiet(ks) && NextAll(FocusAt(b, id), ks) == Some(g) && Ready(g)
    ensures Reached(b, InputAsked(PublishedAll(Put(b, id, r'), id, ks), id))
  {
    hide Sound, FocusOf, NextAll, PublishedAll, InputAsked, At, Inv, InvBut, Reached, Cosmetic, Poised, Ready;
    Gated(b, id, r');
    var b1 := Put(b, id, r');
    PutReached(b, id, r');
    AskNextReached(b1, id, FocusAt(b, id), ks, g);
    ReachedThen(b, b1, InputAsked(PublishedAll(b1, id, ks), id));
  }

  /** Likewise a script that leaves it ready to settle. */
  lemma {:induction false} GateSettled(b: Book, id: nat, r': Run, ks: seq<Kind>, g: Focus, history: nat, k: Kind)
    requires Inv(b) && !b.closed && id in b.runs && b.runs[id].started && !b.runs[id].terminal && Known(b, id)
    requires Cosmetic(b.runs[id], r') && r'.answered && r'.started
    requires Quiet(ks) && NextAll(FocusAt(b, id), ks) == Some(g) && Settleable(g, k)
    ensures Reached(b, SettledBook(PublishedAll(Put(b, id, r'), id, ks).(history := history), id, k))
  {
    hide Sound, FocusOf, NextAll, PublishedAll, SettledBook, At, Inv, InvBut, Reached, Cosmetic, Poised, Settleable;
    Gated(b, id, r');
    var b1 := Put(b, id, r');
    PutReached(b, id, r');
    SettleNextReached(b1, id, FocusAt(b, id), ks, g, history, k);
    ReachedThen(b, b1, SettledBook(PublishedAll(b1, id, ks).(history := history), id, k));
  }

  lemma {:induction false} PermissionReached(b: Book, id: nat, granted: bool)
    requires Inv(b) && !b.closed && id in b.runs && id in b.traces && b.runs[id].started && !b.runs[id].terminal
    requires b.runs[id].stage.StagePermission?
    ensures var b1 := Put(b, id, b.runs[id].(stage := StageInput));
      Reached(b, if granted then GrantedBook(b1, id) else DeniedBook(b1, id))
  {
    hide Sound, FocusOf, NextAll, PublishedAll, InputAsked, SettledBook, At, Calm, Distinct, Inv, InvBut, Reached;
    var r' := b.runs[id].(stage := StageInput);
    Answered(b, id);
    Gated(b, id, r');
    var b1, f := Put(b, id, r'), FocusAt(b, id);
    var g := f.(t := f.t.(call := CallShut, permission := Shut));
    if granted {
      GrantFocus(f);
      GateReached(b, id, r', [PermissionResolved(true), CallStarted, CallCompleted], g);
    } else {
      DenyFocus(f);
      var ks := [PermissionResolved(false), CallCancelled];
      var b2 := PublishedAll(b1, id, ks);
      assert b2.(history := b2.history) == b2;
      GateSettled(b, id, r', ks, g, b2.history, RunFailed);
    }
  }

  lemma {:induction false} InputReached(b: Book, id: nat)
    requires Inv(b) && !b.closed && id in b.runs && id in b.traces && b.runs[id].started && !b.runs[id].terminal
    requires b.runs[id].stage.StageInput?
    ensures Reached(b, AnsweredBook(Put(b, id, b.runs[id].(stage := StageTerminal)), id))
  {
    hide Sound, FocusOf, NextAll, PublishedAll, SettledBook, At, Calm, Distinct, Inv, InvBut, Reached;
    var r' := b.runs[id].(stage := StageTerminal);
    Answered(b, id);
    Gated(b, id, r');
    var b1, f := Put(b, id, r'), FocusAt(b, id);
    GateExclusive(b, id);
    InputDoneFocus(f);
    var ks := [InputResolved(true), ContentDelta];
    GateSettled(b, id, r', ks, f.(t := f.t.(input := Shut)), PublishedAll(b1, id, ks).history + REPLY_TOKENS,
                RunCompleted("end_turn"));
  }

  lemma {:induction false} ResolveReached(b: Book, cfg: Config, q: Resolution)
    requires Inv(b)
    ensures Reached(b, ResolveBook(b, cfg, q))
  {
    hide Inv, GrantedBook, DeniedBook, AnsweredBook, Reached;
    ReachedSelf(b);
    if ResolveRefusal(b, cfg, q).None? && q.run in b.traces {
      if b.runs[q.run].stage.StagePermission? {
        PermissionReached(b, q.run, q.permission.value.granted);
      } else {
        InputReached(b, q.run);
      }
    }
  }

  lemma {:induction false} AcknowledgeReached(b: Book, id: nat)
    requires Inv(b) && !b.closed && id in b.runs && id in b.traces && b.runs[id].started && !b.runs[id].terminal
    requires b.runs[id].stage.StageCall? && !b.runs[id].acknowledged
    ensures Reached(b, PublishedAll(Put(b, id, b.runs[id].(acknowledged := true)), id, [CallStarted]))
  {
    hide Sound, FocusOf, NextAll, PublishedAll, At, Calm, Distinct, Inv, InvBut, Reached;
    var r' := b.runs[id].(acknowledged := true);
    Answered(b, id);
    Gated(b, id, r');
    var b1, f := Put(b, id, r'), FocusAt(b, id);
    CallFocus(f, false, NoArm);
    PutReached(b, id, r');
    PlayReached(b1, id, f, [CallStarted], f.(t := f.t.(call := CallRunning)));
    ReachedThen(b, b1, PublishedAll(b1, id, [CallStarted]));
  }

  lemma {:induction false} ResultReached(b: Book, id: nat, arm: Arm, envelope: nat)
    requires Inv(b) && !b.closed && id in b.runs && id in b.traces && b.runs[id].started && !b.runs[id].terminal
    requires b.runs[id].stage.StageCall?
    ensures
      var b1 := Put(b, id, b.runs[id].(settledArm := arm, settledRequest := envelope, stage := StageInput));
      Reached(b, InputAsked(PublishedAll(b1, id, CallScript(b.runs[id].acknowledged, arm)), id))
  {
    hide Sound, FocusOf, NextAll, PublishedAll, InputAsked, At, Calm, Distinct, Inv, InvBut, Reached;
    var run := b.runs[id];
    var r' := run.(settledArm := arm, settledRequest := envelope, stage := StageInput);
    Answered(b, id);
    Gated(b, id, r');
    var f := FocusAt(b, id);
    CallFocus(f, run.acknowledged, arm);
    GateReached(b, id, r', CallScript(run.acknowledged, arm), f.(t := f.t.(call := CallShut)));
  }

  lemma {:induction false} ResolveCallReached(b: Book, cfg: Config, q: CallResolution)
    requires Inv(b) && !Premature(b, cfg, q)
    ensures Reached(b, ResolveCallBook(b, cfg, q))
  {
    hide Inv, PublishedAll, InputAsked, Reached, CallScript;
    ReachedSelf(b);
    if CallAnswerOf(b, cfg, q).CallAccepted? {
      var id := q.run;
      KnownAt(b, id);
      if q.arm.ArmAcknowledge? {
        AcknowledgeReached(b, id);
      } else {
        ResultReached(b, id, q.arm, q.envelope);
      }
    }
  }

  lemma {:induction false} CancelReached(b: Book, id: nat)
    requires Inv(b)
    ensures Reached(b, CancelBook(b, id))
  {
    hide Sound, FocusOf, NextAll, PublishedAll, SettledBook, At, Settleable, Poised, CloseGates, Reached, SteadyAt;
    ReachedSelf(b);
    if !b.closed && id in b.runs && id in b.traces && !b.runs[id].terminal && !b.runs[id].status.Cancelling? {
      if b.runs[id].started {
        StartedCancelled(b, id);
      } else {
        WaitingCancelled(b, id);
      }
    }
  }

  lemma {:induction false} StartedCancelled(b: Book, id: nat)
    requires Inv(b) && !b.closed && id in b.runs && id in b.traces && b.runs[id].started && !b.runs[id].terminal
    ensures var b1 := Put(b, id, b.runs[id].(status := Cancelling));
      Reached(b, SettledBook(PublishedAll(b1, id, [StatusUpdated(Cancelling)] + CloseGates(b.runs[id].stage)), id, RunCancelled))
  {
    hide Inv, InvBut, Sound, FocusOf, NextAll, PublishedAll, SettledBook, At, Settleable, Poised, CloseGates, Reached;
    Answered(b, id);
    var run := b.runs[id];
    var r' := run.(status := Cancelling);
    Gated(b, id, r');
    var b1, f := Put(b, id, r'), FocusAt(b, id);
    GateExclusive(b, id);
    CancelFocus(run, f);
    var ks := [StatusUpdated(Cancelling)] + CloseGates(run.stage);
    var b2 := PublishedAll(b1, id, ks);
    assert b2.(history := b2.history) == b2;
    CancelSettles(run, f, NextAll(f, ks).value);
    GateSettled(b, id, r', ks, NextAll(f, ks).value, b2.history, RunCancelled);
  }

  lemma {:induction false} WaitingCancelled(b: Book, id: nat)
    requires Inv(b) && !b.closed && id in b.runs && id in b.traces && !b.runs[id].started && !b.runs[id].terminal
    ensures Reached(b, SettledBook(Put(b, id, b.runs[id].(status := Cancelling)), id, RunCancelled))
  {
    hide Sound, FocusOf, SettledBook, At, Settleable, SteadyAt, Reached;
    KnownRun(b, id);
    var r' := b.runs[id].(status := Cancelling);
    var b1, f := Put(b, id, r'), FocusAt(b, id);
    ReservedFocus(b, id);
    PutSound(b, id, r');
    PutReached(b, id, r');
    InvIsBut(b, id);
    InvButMoves(b, b1, id);
    AtHere(b1, id, f);
    SettledReached(b1, id, f, RunCancelled);
    ReachedThen(b, b1, SettledBook(b1, id, RunCancelled));
  }

  lemma {:induction false} InvIsBut(b: Book, id: nat)
    requires Inv(b)
    ensures InvBut(b, id)
  {
    hide Sound, SteadyAt;
  }

  lemma {:induction false} CloseReached(b: Book)
    ensures Reached(b, CloseBook(b))
  {
    hide Reached;
    ReachedSelf(b);
    if !b.closed && !CloseRefused(b) {
      ReachedOne(b, Change.SessionClosed);
    }
  }

  lemma {:induction false} SettingsReached(b: Book, cfg: Config, sessionID: string, policy: Option<Policy>)
    ensures Reached(b, SettingsBook(b, cfg, sessionID, policy))
  {
    hide Reached;
    ReachedSelf(b);
    if SettingsRefusal(b, cfg, sessionID, policy).None? {
      ReachedOne(b, ThresholdSet(ThresholdOf(policy).value));
    }
  }

  /** Every operation but a premature one is made of single changes, each allowed where it is made;
      a resume is none, and changes only who listens. */
  lemma {:induction false} ApplyReached(b: Book, cfg: Config, op: Op)
    requires Inv(b) && Orderly(b, cfg, op)
    ensures if op.Resume? then Same(b, Apply(b, cfg, op)) else Reached(b, Apply(b, cfg, op))
  {
    hide Inv, SubmitBook, CompactBook, ResolveBook, ResolveCallBook, CancelBook, CloseBook, SettingsBook, Premature, Reached, Same;
    hide OfRun, Tail, ResumeBook;
    match op
    case Submit(q) => SubmitReached(b, cfg, q);
    case Compact(q) => CompactReached(b, cfg, q);
    case Resolve(q) => ResolveReached(b, cfg, q);
    case ResolveCall(q) => ResolveCallReached(b, cfg, q);
    case Cancel(id) => CancelReached(b, id);
    case Resume(id, after) => SameResumed(b, cfg.capacity, id, after);
    case Close => CloseReached(b);
    case Settings(sessionID, policy) => SettingsReached(b, cfg, sessionID, policy);
  }

  // ------------------------------------------------------------ whole histories

  lemma {:induction false} SameChanges(b: Book, m: Book, cs: seq<Change>)
    requires Same(b, m) && ChangedAll(b, cs).Some?
    ensures ChangedAll(m, cs).Some? && Same(ChangedAll(b, cs).value, ChangedAll(m, cs).value)
    decreases |cs|
  {
    hide Same, Allowed, Changed;
    if cs != [] {
      SameChanges(b, m, cs[..|cs| - 1]);
      SameChange(ChangedAll(b, cs[..|cs| - 1]).value, ChangedAll(m, cs[..|cs| - 1]).value, cs[|cs| - 1]);
    }
  }

  /** The changes of a whole history lead, resumes left out, to the session it leads to but for who
      listens to it. */
  ghost predicate Decomposes(threshold: nat, cfg: Config, ops: seq<Op>, cs: seq<Change>) {
    var o := ChangedAll(Empty(threshold), cs);
    o.Some? && Same(After(threshold, cfg, ops), o.value)
  }

  lemma {:induction false} Decomposed(threshold: nat, cfg: Config, ops: seq<Op>)
    requires OrderlyAll(threshold, cfg, ops)
    ensures exists cs :: Decomposes(threshold, cfg, ops, cs)
  {
    hide Inv, Apply, Orderly, Same, Empty, ChangedAll, After;
    var e := Empty(threshold);
    if ops == [] {
      NoneDecomposed(threshold, cfg);
    } else {
      var n := |ops| - 1;
      var front, b := ops[..n], After(threshold, cfg, ops[..n]);
      OrderlyPrefix(threshold, cfg, ops, n);
      Decomposed(threshold, cfg, front);
      var cs :| Decomposes(threshold, cfg, front, cs);
      OrderlyKeeps(threshold, cfg, ops, n);
      assert ops[..n + 1] == ops;
      AfterNext(threshold, cfg, ops, n);
      ApplyReached(b, cfg, ops[n]);
      var m := ChangedAll(e, cs).value;
      if ops[n].Resume? {
        SameBack(b, Apply(b, cfg, ops[n]));
        SameThen(Apply(b, cfg, ops[n]), b, m);
        assert Decomposes(threshold, cfg, ops, cs);
      } else {
        var ds :| ChangedAll(b, ds) == Some(Apply(b, cfg, ops[n]));
        SameChanges(b, m, ds);
        ChangedConcat(e, m, cs, ds);
        assert Decomposes(threshold, cfg, ops, cs + ds);
      }
    }
  }

  lemma {:induction false} NoneDecomposed(threshold: nat, cfg: Config)
    ensures Decomposes(threshold, cfg, [], [])
  {
  }

  lemma {:induction false} SameSteady(run: Run, run': Run, trace: seq<Event>)
    requires run' == run.(subscribers := run'.subscribers) && Tracked(run, trace) && Steady(run, trace)
    ensures Tracked(run', trace) && Steady(run', trace)
  {
  }

  lemma {:induction false} SameInv(b: Book, m: Book)
    requires Inv(b) && Same(b, m) && Sound(m)
    ensures Inv(m)
  {
    hide Sound, Steady;
    forall id | id in m.runs
      ensures SteadyAt(m, id)
    {
      assert SteadyAt(b, id);
      SameSteady(b.runs[id], m.runs[id], b.traces[id]);
    }
  }

  lemma {:induction false} ChangesUpto(b: Book, ts: seq<Turn>, n: nat)
    requires n <= |ts| && ChangedAll(b, ChangesOf(ts)).Some?
    ensures ChangedAll(b, ChangesOf(ts[..n])).Some?
    decreases |ts|
  {
    hide Allowed, Changed;
    if n < |ts| {
      var front, t := ts[..|ts| - 1], ts[|ts| - 1];
      if t.Done? {
        ChangedSnoc(b, ChangesOf(front), t.change);
      } else {
        assert ChangesOf(ts) == ChangesOf(front);
      }
      ChangesUpto(b, front, n);
      assert front[..n] == ts[..n];
    } else {
      assert ts[..n] == ts;
    }
  }

  /** Some turns, from a new session: every one can be taken, after each of them every stream carries
      exactly its run's events past its cursor, and at the end all is told that the history tells. */
  ghost predicate ToldThroughout(threshold: nat, cfg: Config, ops: seq<Op>, ts: seq<Turn>) {
    && (forall n | 0 <= n <= |ts| ::
         var o := TurnedAll(Empty(threshold), cfg.capacity, ts[..n]);
         o.Some? && Sound(o.value) && forall k | k in o.value.streams :: StreamTold(o.value, k))
    && var o := TurnedAll(Empty(threshold), cfg.capacity, ts);
       o.Some? && Same(After(threshold, cfg, ops), o.value) && AllTold(o.value)
  }

  /** The operations of every history, but for premature ones, are made of single changes such that,
      however resumes are put between them, every change stays allowed, every stream carries exactly
      its run's events past its cursor, each once and in order, and the session ends as the history
      ends it but for who listens to it. */
  lemma {:induction false} EveryInterleavingStreams(threshold: nat, cfg: Config, ops: seq<Op>)
    requires OrderlyAll(threshold, cfg, ops)
    ensures exists cs ::
      Decomposes(threshold, cfg, ops, cs) && forall ts | ChangesOf(ts) == cs :: ToldThroughout(threshold, cfg, ops, ts)
  {
    hide Decomposes, ToldThroughout, ChangesOf;
    Decomposed(threshold, cfg, ops);
    var cs :| Decomposes(threshold, cfg, ops, cs);
    forall ts | ChangesOf(ts) == cs
      ensures ToldThroughout(threshold, cfg, ops, ts)
    {
      InterleavingTold(threshold, cfg, ops, cs, ts);
    }
  }

  lemma {:induction false} InterleavingTold(threshold: nat, cfg: Config, ops: seq<Op>, cs: seq<Change>, ts: seq<Turn>)
    requires OrderlyAll(threshold, cfg, ops) && Decomposes(threshold, cfg, ops, cs) && ChangesOf(ts) == cs
    ensures ToldThroughout(threshold, cfg, ops, ts)
  {
    hide Inv, Same, Sound, OrderlyAll, Empty, ChangedAll, TurnedAll, After, AllTold, StreamTold, ChangesOf;
    var e := Empty(threshold);
    EmptyInv(threshold);
    InvIsSound(e);
    SameSelf(e);
    forall n | 0 <= n <= |ts|
      ensures var o := TurnedAll(e, cfg.capacity, ts[..n]);
        o.Some? && Sound(o.value) && forall k | k in o.value.streams :: StreamTold(o.value, k)
    {
      ChangesUpto(e, ts, n);
      Interleaved(e, e, cfg.capacity, ts[..n]);
      var m := TurnedAll(e, cfg.capacity, ts[..n]).value;
      forall k | k in m.streams
        ensures StreamTold(m, k)
      {
        StreamsTold(m, k);
      }
    }
    Interleaved(e, e, cfg.capacity, ts);
    var b, m := After(threshold, cfg, ops), TurnedAll(e, cfg.capacity, ts).value;
    SameThen(b, ChangedAll(e, cs).value, m);
    assert ops[..|ops|] == ops;
    OrderlyKeeps(threshold, cfg, ops, |ops|);
    SameInv(b, m);
    InvTells(m);
  }

  lemma {:induction false} SameSelf(b: Book)
    ensures Same(b, b)
  {
  }
}
