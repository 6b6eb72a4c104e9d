/** The operations of the in-memory session as functions on its book, and the invariant each
    of them keeps. */
module MemoryOps {
  import opened Basics
  import opened RunEvents
  import opened CompactionChecker
  import opened MemoryRun
  import opened SessionLedger
  import opened MemoryBook

  const REFERENCE_WINDOW: nat := 8192

  function Tokens(bytes: nat): nat {
    (bytes + 3) / 4
  }

  /** The summary that replaces the history, by the length of the focus it names. */
  function SummaryTokens(focus: nat): nat {
    Tokens(if focus == 0 then 30 else 49 + focus)
  }

  // ------------------------------------------------------------ the steps operations share

  function InputAsked(b: Book, id: nat): (b': Book)
    requires id in b.runs && id in b.traces
    ensures id in b'.runs && id in b'.traces
  {
    var b1 := PublishedAll(b, id, Applied(b.runs[id].steers));
    var b2 := Published(b1, id, InputRequested);
    var b3 := Put(b2, id, b2.runs[id].(status := WaitingForInput));
    Published(b3, id, StatusUpdated(WaitingForInput))
  }

  function Compacted(b: Book, id: nat, reason: Reason): (b': Book)
    requires id in b.runs && id in b.traces
    ensures id in b'.runs && id in b'.traces
  {
    var c := b.ids;
    PublishedAll(b.(ids := b.ids + 1), id, [CompactionStarted(c, reason), CompactionEnded(c, OutcomeCompleted, false)])
      .(history := SummaryTokens(b.runs[id].focus))
  }

  function Asked(b: Book, id: nat): (b': Book)
    requires id in b.runs && id in b.traces
    ensures id in b'.runs && id in b'.traces
  {
    var b1 := Published(b, id, ContentDelta);
    if !b.runs[id].callsTool then InputAsked(b1, id)
    else if b.runs[id].callID != 0 then Published(b1, id, CallRequested)
    else PublishedAll(b1, id, [CallRequested, PermissionRequested])
  }

  function AutoReason(b: Book): Option<Reason> {
    if b.history >= REFERENCE_WINDOW then Some(Overflow)
    else if b.history >= b.threshold then Some(Threshold)
    else None
  }

  function Begun(b: Book, id: nat): (b': Book)
    requires id in b.runs && id in b.traces
    ensures id in b'.runs && id in b'.traces
  {
    Published(Put(b, id, b.runs[id].(started := true, status := Running)), id, RunStarted)
  }

  /** A run from run.started to the gate it first waits at, or to its end. */
  function Opened(b: Book, id: nat): (b': Book)
    requires id in b.runs && id in b.traces
    ensures id in b'.runs && id in b'.traces
  {
    var b1 := Begun(b, id);
    var run := b.runs[id];
    if run.compaction then
      var b2 := Compacted(b1, id, Requested);
      if run.compactContinue then Asked(b2, id) else Published(b2, id, RunCompleted("compacted"))
    else
      var b2 := b1.(history := b1.history + run.input);
      Asked(if AutoReason(b2).Some? then Compacted(b2, id, AutoReason(b2).value) else b2, id)
  }

  // ------------------------------------------------------------ what the steps keep

  /** A started run with nothing open and its input not asked for yet. */
  predicate Ready(f: Focus) {
    && f.t.started && !f.t.terminal && AllShut(f.t) && f.t.input.Unopened? && Calm(f.c) && Distinct(f.steers)
    && forall i | 0 <= i < |f.steers| :: f.steers[i].submission != 0
  }

  lemma {:induction false} SteersNamed(b: Book, id: nat, f: Focus)
    requires At(b, id, f)
    ensures f.steers == b.runs[id].steers && Distinct(f.steers)
    ensures forall i | 0 <= i < |f.steers| :: f.steers[i].submission != 0
  {
    hide RunsSound, LogSound, StreamsSound, SlotsSound, OrderSound, AnswerSound, FocusOf, Follows;
    KnownRun(b, id);
    assert SteersOf(id, b.runs[id], b.traces[id], b.answers, b.settled);
    forall i | 0 <= i < |f.steers|
      ensures f.steers[i].submission != 0
    {
      assert f.steers[i] in f.steers;
    }
  }

  /** A change of fields between two publications. */
  lemma {:induction false} Adjusted(b: Book, id: nat, f: Focus, r': Run)
    requires At(b, id, f) && Cosmetic(b.runs[id], r') && r'.started == b.runs[id].started
    ensures At(Put(b, id, r'), id, f)
  {
    hide Sound, FocusOf;
    PutSound(b, id, r');
  }

  lemma {:induction false} MovedStatus(b: Book, id: nat, status: Status)
    requires id in b.runs && id in b.traces
    ensures Moved(b, Put(b, id, b.runs[id].(status := status)), id, [])
  {
    hide StartsOf;
    assert Kinds(b.traces[id]) + [] == Kinds(b.traces[id]);
  }

  lemma {:induction false} InputFocus(f: Focus)
    requires Ready(f)
    ensures var g := f.(t := f.t.(input := Open));
      && Next(f, InputRequested) == Some(g)
      && Next(g, StatusUpdated(WaitingForInput)) == Some(g)
      && Next(f, ContentDelta) == Some(f)
  {
    CalmPlain(f.c, InputRequested);
    CalmPlain(f.c, StatusUpdated(WaitingForInput));
    CalmPlain(f.c, ContentDelta);
  }

  /** Asking for input applies every pending steer first. */
  lemma {:induction false} InputAskedKeeps(b: Book, id: nat, f: Focus)
    requires At(b, id, f) && Ready(f)
    ensures At(InputAsked(b, id), id, f.(t := f.t.(input := Open), steers := []))
    ensures Moved(b, InputAsked(b, id), id, Applied(f.steers) + [InputRequested] + [StatusUpdated(WaitingForInput)])
    ensures InputAsked(b, id).runs[id].status == WaitingForInput
  {
    hide Sound, FocusOf, Next, NextAll, PublishedAll, Published, Advance, Observe, Calm, Moved, At, AllShut;
    AtRun(b, id, f);
    var ks := Applied(f.steers);
    SettleEach(f, ks, |ks|);
    assert ks[..|ks|] == ks && f.steers[|ks|..] == [];
    var f1 := f.(steers := []);
    var g := f1.(t := f.t.(input := Open));
    Play(b, id, f, ks, f1);
    var b1 := PublishedAll(b, id, ks);
    InputFocus(f1);
    PlayOne(b1, id, f1, InputRequested, g);
    var b2 := Published(b1, id, InputRequested);
    var b3 := Put(b2, id, b2.runs[id].(status := WaitingForInput));
    Adjusted(b2, id, g, b3.runs[id]);
    MovedStatus(b2, id, WaitingForInput);
    PlayOne(b3, id, g, StatusUpdated(WaitingForInput), g);
    MovedThen(b, b1, b2, id, ks, [InputRequested]);
    MovedThen(b, b2, b3, id, ks + [InputRequested], []);
    assert ks + [InputRequested] + [] == ks + [InputRequested];
    MovedThen(b, b3, InputAsked(b, id), id, ks + [InputRequested], [StatusUpdated(WaitingForInput)]);
  }

  lemma {:induction false} AtRun(b: Book, id: nat, f: Focus)
    requires At(b, id, f)
    ensures id in b.runs && id in b.traces && b.ids > 0 && !b.runs[id].terminal
    ensures f.steers == b.runs[id].steers && f.provided == (b.runs[id].callID != 0)
  {
    hide Sound, FocusOf;
    KnownRun(b, id);
  }

  lemma {:induction false} Counted(b: Book, id: nat, f: Focus, ids: nat, history: nat)
    requires At(b, id, f) && ids >= b.ids
    ensures At(b.(ids := ids, history := history), id, f) && Moved(b, b.(ids := ids, history := history), id, [])
  {
    hide Sound, FocusOf, StartsOf;
    CountersSound(b, ids, history);
    assert Kinds(b.traces[id]) + [] == Kinds(b.traces[id]);
  }

  function CompactedCheck(c: Check, id: nat, reason: Reason): Check {
    c.(begun := true, tracks := map[id := CompactionTrack(reason, Some(OutcomeCompleted))])
  }

  /** The checker takes a first compaction asked for by the run it is in, and no other. */
  predicate Uncompacted(f: Focus, reason: Reason) {
    && f.t.started && !f.t.terminal && f.t.compaction == 0
    && f.c.diagnostics == [] && f.c.started && !f.c.terminal && f.c.open == 0 && f.c.tracks == map[]
    && f.c.compactionRun == reason.Requested?
  }

  lemma {:induction false} CompactionBegins(f: Focus, id: nat, reason: Reason)
    requires Uncompacted(f, reason) && id != 0
    ensures Next(f, CompactionStarted(id, reason)) ==
      Some(f.(t := f.t.(compaction := id),
              c := f.c.(open := id, begun := true, tracks := map[id := CompactionTrack(reason, None)])))
  {
  }

  lemma {:induction false} CompactionEnds(f: Focus, id: nat, reason: Reason)
    requires Uncompacted(f, reason) && id != 0
    ensures
      var g := f.(t := f.t.(compaction := id),
                  c := f.c.(open := id, begun := true, tracks := map[id := CompactionTrack(reason, None)]));
      Next(g, CompactionEnded(id, OutcomeCompleted, false)) == Some(f.(c := CompactedCheck(f.c, id, reason)))
  {
    assert map[id := CompactionTrack(reason, None)][id := CompactionTrack(reason, Some(OutcomeCompleted))]
        == map[id := CompactionTrack(reason, Some(OutcomeCompleted))];
  }

  lemma {:induction false} CompactionFocus(f: Focus, id: nat, reason: Reason)
    requires Uncompacted(f, reason) && id != 0
    ensures NextAll(f, [CompactionStarted(id, reason), CompactionEnded(id, OutcomeCompleted, false)])
         == Some(f.(c := CompactedCheck(f.c, id, reason)))
  {
    hide Next, NextAll, Uncompacted, CompactedCheck;
    var start, end := CompactionStarted(id, reason), CompactionEnded(id, OutcomeCompleted, false);
    NextScript(f, start, end, end);
    CompactionBegins(f, id, reason);
    CompactionEnds(f, id, reason);
  }

  lemma {:induction false} Compacts(b: Book, id: nat, f: Focus, reason: Reason)
    requires At(b, id, f) && Uncompacted(f, reason)
    ensures At(Compacted(b, id, reason), id, f.(c := CompactedCheck(f.c, b.ids, reason)))
    ensures Moved(b, Compacted(b, id, reason), id, [CompactionStarted(b.ids, reason), CompactionEnded(b.ids, OutcomeCompleted, false)])
    ensures Compacted(b, id, reason).runs[id].status == b.runs[id].status
  {
    hide Sound, FocusOf, NextAll, PublishedAll, Moved, At, Uncompacted;
    AtRun(b, id, f);
    var ks := [CompactionStarted(b.ids, reason), CompactionEnded(b.ids, OutcomeCompleted, false)];
    var g := f.(c := CompactedCheck(f.c, b.ids, reason));
    CompactionFocus(f, b.ids, reason);
    Counted(b, id, f, b.ids + 1, b.history);
    var b1 := b.(ids := b.ids + 1);
    Play(b1, id, f, ks, g);
    var b2 := PublishedAll(b1, id, ks);
    Counted(b2, id, g, b2.ids, SummaryTokens(b.runs[id].focus));
    MovedThen(b, b1, b2, id, [], ks);
    assert [] + ks == ks && ks + [] == ks;
    MovedThen(b, b2, Compacted(b, id, reason), id, ks, []);
  }

  // ------------------------------------------------------------ opening a run

  function AskedScript(run: Run): seq<Kind> {
    [ContentDelta] +
    if !run.callsTool then [InputRequested] + [StatusUpdated(WaitingForInput)]
    else if run.callID != 0 then [CallRequested]
    else [CallRequested, PermissionRequested]
  }

  lemma {:induction false} GateFocus(f: Focus)
    requires Ready(f) && f.t.call.NoCall? && f.t.permission.Unopened?
    ensures Next(f, CallRequested) == Some(f.(t := f.t.(call := CallOpen)))
    ensures !f.provided ==>
      NextAll(f, [CallRequested, PermissionRequested]) == Some(f.(t := f.t.(call := CallOpen, permission := Open)))
  {
    CalmPlain(f.c, CallRequested);
    CalmPlain(f.c, PermissionRequested);
    NextScript(f, CallRequested, PermissionRequested, PermissionRequested);
  }

  ghost predicate Waiting(b: Book, id: nat) {
    Sound(b) && Known(b, id) && !b.runs[id].terminal && Poised(b.runs[id], FocusAt(b, id))
  }

  lemma {:induction false} WaitingAt(b: Book, id: nat, f: Focus)
    requires At(b, id, f) && Poised(b.runs[id], f)
    ensures Waiting(b, id)
  {
  }

  /** A run that began, compacted or not, asks and waits at its first gate. */
  lemma {:induction false} AskedKeeps(b: Book, id: nat, f: Focus)
    requires At(b, id, f) && Ready(f) && f.t == UNSEEN.(started := true) && f.steers == []
    requires var run := b.runs[id]; run.status.Running? && run.started && Draft(run.(started := false))
    ensures Waiting(Asked(b, id), id) && Moved(b, Asked(b, id), id, AskedScript(b.runs[id]))
  {
    hide Sound, FocusOf, Next, NextAll, PublishedAll, Published, Moved, At, Ready, InputAsked, Advance, Observe;
    AtRun(b, id, f);
    ReadyParts(f);
    InputFocus(f);
    PlayOne(b, id, f, ContentDelta, f);
    var b1 := Published(b, id, ContentDelta);
    MovedRun(b, b1, id, [ContentDelta]);
    GateFocus(f);
    if !b.runs[id].callsTool {
      InputAskedKeeps(b1, id, f);
      var b2 := InputAsked(b1, id);
      var ks := [InputRequested] + [StatusUpdated(WaitingForInput)];
      assert Applied(f.steers) + [InputRequested] + [StatusUpdated(WaitingForInput)] == ks;
      MovedThen(b, b1, b2, id, [ContentDelta], ks);
      MovedRun(b1, b2, id, ks);
      WaitingAt(b2, id, f.(t := f.t.(input := Open), steers := []));
    } else if b.runs[id].callID != 0 {
      PlayOne(b1, id, f, CallRequested, f.(t := f.t.(call := CallOpen)));
      var b2 := Published(b1, id, CallRequested);
      MovedThen(b, b1, b2, id, [ContentDelta], [CallRequested]);
      MovedRun(b1, b2, id, [CallRequested]);
      WaitingAt(b2, id, f.(t := f.t.(call := CallOpen)));
    } else {
      var ks := [CallRequested, PermissionRequested];
      var g := f.(t := f.t.(call := CallOpen, permission := Open));
      Play(b1, id, f, ks, g);
      var b2 := PublishedAll(b1, id, ks);
      MovedThen(b, b1, b2, id, [ContentDelta], ks);
      MovedRun(b1, b2, id, ks);
      WaitingAt(b2, id, g);
    }
  }

  lemma {:induction false} ReadyParts(f: Focus)
    requires Ready(f)
    ensures Calm(f.c) && f.t.started && !f.t.terminal && AllShut(f.t)
  {
  }

  lemma {:induction false} MovedRun(b: Book, b': Book, id: nat, ks: seq<Kind>)
    requires Moved(b, b', id, ks)
    ensures id in b.runs && id in b'.runs && SameRun(b.runs[id], b'.runs[id])
    ensures id in b.traces && id in b'.traces
  {
    hide StartsOf;
  }

  function BegunFocus(run: Run): Focus {
    Focus(UNSEEN.(started := true), Fresh(run.compaction, run.compactContinue).(started := true), [], run.callID != 0)
  }

  /** A run admitted, holding the started slot alone and not begun. */
  ghost predicate Unbegun(b: Book, id: nat) {
    && Sound(b) && b.active == Some(id) && b.reserved.None?
    && id in b.runs && id in b.traces && Draft(b.runs[id]) && b.traces[id] == []
  }

  ghost predicate BeganWith(b: Book, b': Book, id: nat, ks: seq<Kind>) {
    && OnlyRun(b, b', id) && id in b'.traces && Kinds(b'.traces[id]) == ks
    && StartsOf(b'.log) == StartsOf(b.log) + [id]
    && b'.runs[id].answered == b.runs[id].answered
  }

  lemma {:induction false} BeginsFocus(b: Book, id: nat)
    requires Unbegun(b, id)
    ensures At(b, id, BegunFocus(b.runs[id]).(t := UNSEEN, c := Fresh(b.runs[id].compaction, b.runs[id].compactContinue)))
    ensures forall s | s in StartsOf(b.log) :: s < id
  {
    hide LogSound, StreamsSound, SteersSound, StartsOf, Agrees;
    assert Kinds([]) == [];
  }

  lemma {:induction false} BeginsWith(b: Book, id: nat)
    requires id in b.runs && id in b.traces && b.traces[id] == [] && Draft(b.runs[id])
    ensures BeganWith(b, Begun(b, id), id, [RunStarted]) && SameSlots(b, Begun(b, id))
    ensures var run := Begun(b, id).runs[id];
      SameRun(b.runs[id].(started := true), run) && run.status.Running? && run.steers == []
  {
    hide StartsOf, Delivered, SettledAfter;
    var b1 := Put(b, id, b.runs[id].(started := true, status := Running));
    KindsSnoc([], EventOf(b1, id, RunStarted));
    assert Kinds([]) == [];
    SnocLog(b1.log, EventOf(b1, id, RunStarted), id);
  }

  lemma {:induction false} Begins(b: Book, id: nat)
    requires Unbegun(b, id)
    ensures At(Begun(b, id), id, BegunFocus(b.runs[id]))
    ensures BeganWith(b, Begun(b, id), id, [RunStarted]) && SameSlots(b, Begun(b, id))
    ensures var run := Begun(b, id).runs[id];
      SameRun(b.runs[id].(started := true), run) && run.status.Running? && run.steers == []
  {
    hide Sound, FocusOf, StartsOf, Delivered, SettledAfter, Cosmetic, BeganWith;
    var run := b.runs[id];
    var r' := run.(started := true, status := Running);
    BeginsFocus(b, id);
    Starting(run);
    PutSound(b, id, r');
    var b1 := Put(b, id, r');
    PublishedSound(b1, id, RunStarted);
    PublishedFocus(b1, id, RunStarted);
    BeginsWith(b, id);
  }

  lemma {:induction false} Starting(run: Run)
    ensures Next(BegunFocus(run).(t := UNSEEN, c := Fresh(run.compaction, run.compactContinue)), RunStarted) == Some(BegunFocus(run))
    ensures Cosmetic(run, run.(started := true, status := Running))
  {
  }

  lemma {:induction false} BeganMoved(b: Book, m: Book, b': Book, id: nat, ks: seq<Kind>, ks': seq<Kind>)
    requires BeganWith(b, m, id, ks) && Moved(m, b', id, ks')
    ensures BeganWith(b, b', id, ks + ks')
  {
    hide StartsOf;
  }

  /** The events of a run up to where Opened leaves it. */
  function OpeningScript(run: Run, compaction: Option<Reason>, c: nat): seq<Kind> {
    [RunStarted]
    + (match compaction
       case None => []
       case Some(reason) => [CompactionStarted(c, reason), CompactionEnded(c, OutcomeCompleted, false)])
    + if run.compaction && !run.compactContinue then [RunCompleted("compacted")] else AskedScript(run)
  }

  /** The compaction a run opens with: the one it was admitted for, or the one its history calls for. */
  function OpeningReason(b: Book, id: nat): Option<Reason>
    requires id in b.runs
  {
    if b.runs[id].compaction then Some(Requested) else AutoReason(b.(history := b.history + b.runs[id].input))
  }

  lemma {:induction false} CompactedReady(run: Run, c: nat, reason: Option<Reason>)
    requires reason.Some? ==> reason.value.Requested? == run.compaction
    requires run.compaction ==> run.compactContinue && reason.Some?
    ensures var f := BegunFocus(run);
      Ready(if reason.Some? then f.(c := CompactedCheck(f.c, c, reason.value)) else f)
  {
  }

  /** A run that settles leaves its slot; nothing else about the other runs changes. */
  lemma {:induction false} SettlesRun(b: Book, id: nat, f: Focus, k: Kind)
    requires At(b, id, f) && Terminal(k) && Next(f, k).Some?
    ensures var b' := Published(b, id, k);
      && Sound(b') && OnlyRun(b, b', id) && b'.runs[id].terminal && b'.runs[id].answered == b.runs[id].answered
      && b'.runs[id].status == StatusAfter(b.runs[id], k)
      && (b'.active, b'.reserved) == SlotsAfter(b.active, b.reserved, id, k)
      && Kinds(b'.traces[id]) == Kinds(b.traces[id]) + [k] && StartsOf(b'.log) == StartsOf(b.log)
  {
    hide Sound, FocusOf, StartsOf, Delivered, SettledAfter, Next;
    PublishedSound(b, id, k);
    KindsSnoc(b.traces[id], EventOf(b, id, k));
    SnocLog(b.log, EventOf(b, id, k), id);
  }

  lemma {:induction false} CompactedSettles(run: Run, c: nat)
    requires run.compaction && !run.compactContinue
    ensures var f := BegunFocus(run); Next(f.(c := CompactedCheck(f.c, c, Requested)), RunCompleted("compacted")).Some?
  {
    var f := BegunFocus(run);
    assert CompactedCheck(f.c, c, Requested).tracks.Keys == {c};
  }

  /** What opening a run leaves: it has settled and freed its slot, or it waits at a gate. */
  ghost predicate OpenedWell(b: Book, b': Book, id: nat) {
    && Sound(b') && OnlyRun(b, b', id) && b'.reserved.None?
    && b'.runs[id].answered == b.runs[id].answered
    && (if b'.runs[id].terminal then b'.active.None? else b'.active == Some(id) && Waiting(b', id))
  }

  /** Opening a run follows its script exactly and leaves it settled or waiting. */
  lemma {:induction false} OpenedKeeps(b: Book, id: nat)
    requires Unbegun(b, id)
    ensures OpenedWell(b, Opened(b, id), id)
    ensures BeganWith(b, Opened(b, id), id, OpeningScript(b.runs[id], OpeningReason(b, id), Begun(b, id).ids))
  {
    hide Sound, FocusOf, StartsOf, Begun, Compacted, Asked, At, Moved, Waiting, Next, Ready, BeganWith, Draft, Uncompacted;
    hide OpenedWell;
    var run := b.runs[id];
    Begins(b, id);
    BeginsUncompacted(b, id);
    var b1, f := Begun(b, id), BegunFocus(run);
    var reason := OpeningReason(b, id);
    if run.compaction {
      OpenedCompacting(b, b1, id, f);
    } else {
      var b2 := b1.(history := b1.history + run.input);
      Counted(b1, id, f, b1.ids, b2.history);
      BeganMoved(b, b1, b2, id, [RunStarted], []);
      assert [RunStarted] + [] == [RunStarted];
      BegunHistory(b, id);
      OpenedRunning(b, b1, b2, id, f, reason);
    }
  }

  lemma {:induction false} OpenedCompacting(b: Book, b1: Book, id: nat, f: Focus)
    requires Unbegun(b, id) && b.runs[id].compaction && f == BegunFocus(b.runs[id])
    requires At(b1, id, f) && BeganWith(b, b1, id, [RunStarted]) && SameSlots(b, b1) && Uncompacted(f, Requested)
    requires SameRun(b.runs[id].(started := true), b1.runs[id]) && b1.runs[id].status.Running?
    ensures id in b1.traces
    ensures var b2 := Compacted(b1, id, Requested);
      var b' := if b.runs[id].compactContinue then Asked(b2, id) else Published(b2, id, RunCompleted("compacted"));
      OpenedWell(b, b', id) && BeganWith(b, b', id, OpeningScript(b.runs[id], Some(Requested), b1.ids))
  {
    hide Sound, FocusOf, StartsOf, Compacted, Asked, Published, At, Moved, Next, Ready, BeganWith, Draft, Uncompacted, OpenedWell;
    AtRun(b1, id, f);
    Compacts(b1, id, f, Requested);
    var run := b.runs[id];
    var b2, g := Compacted(b1, id, Requested), f.(c := CompactedCheck(f.c, b1.ids, Requested));
    var ks := [CompactionStarted(b1.ids, Requested), CompactionEnded(b1.ids, OutcomeCompleted, false)];
    BeganMoved(b, b1, b2, id, [RunStarted], ks);
    MovedRun(b1, b2, id, ks);
    MovedSlots(b1, b2, id, ks);
    if run.compactContinue {
      CompactedReady(run, b1.ids, Some(Requested));
      OpenedAsks(b, b1, b2, id, g, [RunStarted] + ks);
    } else {
      CompactedSettles(run, b1.ids);
      OpenedSettles(b, b2, id, g, [RunStarted] + ks);
    }
  }

  lemma {:induction false} OpenedRunning(b: Book, b1: Book, b2: Book, id: nat, f: Focus, reason: Option<Reason>)
    requires Unbegun(b, id) && !b.runs[id].compaction && f == BegunFocus(b.runs[id])
    requires At(b2, id, f) && BeganWith(b, b2, id, [RunStarted]) && SameSlots(b, b1) && SameSlots(b1, b2)
    requires reason.Some? ==> !reason.value.Requested? && Uncompacted(f, reason.value)
    requires SameRun(b.runs[id].(started := true), b2.runs[id]) && b2.runs[id].status.Running?
    ensures id in b2.traces
    ensures var b' := Asked(if reason.Some? then Compacted(b2, id, reason.value) else b2, id);
      OpenedWell(b, b', id) && BeganWith(b, b', id, OpeningScript(b.runs[id], reason, b2.ids))
  {
    hide Sound, FocusOf, StartsOf, Compacted, Asked, Published, At, Moved, Next, Ready, BeganWith, Draft, Uncompacted, OpenedWell;
    AtRun(b2, id, f);
    CompactedReady(b.runs[id], b2.ids, reason);
    if reason.Some? {
      Compacts(b2, id, f, reason.value);
      var b3, g := Compacted(b2, id, reason.value), f.(c := CompactedCheck(f.c, b2.ids, reason.value));
      var ks := [CompactionStarted(b2.ids, reason.value), CompactionEnded(b2.ids, OutcomeCompleted, false)];
      BeganMoved(b, b2, b3, id, [RunStarted], ks);
      MovedRun(b2, b3, id, ks);
      MovedSlots(b2, b3, id, ks);
      OpenedAsks(b, b2, b3, id, g, [RunStarted] + ks);
    } else {
      OpenedAsks(b, b1, b2, id, f, [RunStarted]);
      assert [RunStarted] + [] == [RunStarted];
    }
  }

  lemma {:induction false} BegunHistory(b: Book, id: nat)
    requires id in b.runs && id in b.traces
    ensures Begun(b, id).history == b.history && Begun(b, id).threshold == b.threshold
  {
  }

  lemma {:induction false} BeginsUncompacted(b: Book, id: nat)
    requires Unbegun(b, id)
    ensures var run := b.runs[id];
      forall reason: Reason | reason.Requested? == run.compaction :: Uncompacted(BegunFocus(run), reason)
  {
    hide Sound;
  }

  lemma {:induction false} MovedSlots(b: Book, b': Book, id: nat, ks: seq<Kind>)
    requires Moved(b, b', id, ks)
    ensures SameSlots(b, b')
  {
    hide StartsOf;
  }

  lemma {:induction false} OpenedAsks(b: Book, b1: Book, b2: Book, id: nat, g: Focus, ks: seq<Kind>)
    requires Unbegun(b, id) && BeganWith(b, b2, id, ks) && SameSlots(b, b1) && SameSlots(b1, b2)
    requires At(b2, id, g) && Ready(g) && g.t == UNSEEN.(started := true) && g.steers == []
    requires b2.runs[id].status.Running? && SameRun(b.runs[id].(started := true), b2.runs[id])
    ensures OpenedWell(b, Asked(b2, id), id) && BeganWith(b, Asked(b2, id), id, ks + AskedScript(b.runs[id]))
  {
    hide Sound, FocusOf, StartsOf, At, Ready, Moved;
    AtRun(b2, id, g);
    AskedKeeps(b2, id, g);
    BeganMoved(b, b2, Asked(b2, id), id, ks, AskedScript(b2.runs[id]));
    MovedRun(b2, Asked(b2, id), id, AskedScript(b2.runs[id]));
    MovedSlots(b2, Asked(b2, id), id, AskedScript(b2.runs[id]));
  }

  lemma {:induction false} OpenedSettles(b: Book, b2: Book, id: nat, g: Focus, ks: seq<Kind>)
    requires Unbegun(b, id) && BeganWith(b, b2, id, ks) && SameSlots(b, b2)
    requires At(b2, id, g) && Next(g, RunCompleted("compacted")).Some?
    ensures id in b2.runs && id in b2.traces
    ensures var b' := Published(b2, id, RunCompleted("compacted"));
      OpenedWell(b, b', id) && BeganWith(b, b', id, ks + [RunCompleted("compacted")])
  {
    hide Sound, FocusOf, StartsOf, Next;
    AtRun(b2, id, g);
    SettlesRun(b2, id, g, RunCompleted("compacted"));
  }
}
