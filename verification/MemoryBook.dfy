/** The in-memory session as a value, each operation as a function on it, and the proof that
    every operation keeps every part of the session sound. */
module MemoryBook {
  import opened Basics
  import opened RunEvents
  import opened CompactionChecker
  import opened MemoryRun
  import opened SessionLedger

  datatype Book = Book(
    closed: bool, active: Option<nat>, reserved: Option<nat>, runs: map<nat, Run>,
    settledRuns: seq<SettledRun>, threshold: nat, history: nat, streams: map<nat, Stream>, feeds: nat,
    ids: nat, log: seq<Event>, traces: map<nat, seq<Event>>, answers: map<nat, Answer>, settled: map<nat, nat>)

  ghost predicate Sound(b: Book) {
    && b.ids > 0
    && RunsSound(b.runs, b.traces, b.ids)
    && LogSound(b.log, b.traces)
    && StreamsSound(b.streams, b.runs, b.traces)
    && (forall k | k in b.streams :: k < b.feeds)
    && SteersSound(b.answers, b.settled, b.runs, b.traces, b.ids)
    && SlotsSound(b.active, b.reserved, b.runs)
    && OrderSound(b.runs, b.log)
  }

  ghost predicate Known(b: Book, id: nat) {
    id in b.runs && id in b.traces && Tracked(b.runs[id], b.traces[id])
  }

  ghost function FocusAt(b: Book, id: nat): Focus
    requires Known(b, id)
  {
    FocusOf(b.runs[id], b.traces[id])
  }

  // ------------------------------------------------------------ one publication

  function EventOf(b: Book, id: nat, k: Kind): Event
    requires id in b.runs
  {
    Event(b.ids, id, b.runs[id].nextSequence, k)
  }

  function Published(b: Book, id: nat, k: Kind): (b': Book)
    requires id in b.runs && id in b.traces
    ensures id in b'.runs && id in b'.traces
  {
    var e := EventOf(b, id, k);
    var (a, r) := SlotsAfter(b.active, b.reserved, id, k);
    b.(active := a, reserved := r,
       runs := b.runs[id := RunAfter(b.runs[id], k, e.id)],
       settledRuns := if Terminal(k) then b.settledRuns + [SettledRun(id, e.sequence)] else b.settledRuns,
       streams := Delivered(b.streams, b.runs[id].subscribers, e),
       ids := b.ids + 1,
       log := b.log + [e],
       traces := b.traces[id := b.traces[id] + [e]],
       settled := SettledAfter(b.settled, e))
  }

  /** What the session must know before it publishes an event of a run. */
  ghost predicate MayPublish(b: Book, id: nat, k: Kind) {
    && Known(b, id) && !b.runs[id].terminal
    && Next(FocusAt(b, id), k).Some?
    && (k.RunStarted? ==> b.runs[id].started && forall s | s in StartsOf(b.log) :: s < id)
  }

  lemma {:induction false} KnownRun(b: Book, id: nat)
    requires Sound(b) && id in b.runs
    ensures Known(b, id) && RunSound(id, b.runs[id], b.traces[id])
    ensures b.runs[id].nextSequence == |b.traces[id]| + 1 && Agrees(b.runs[id], FocusAt(b, id))
    ensures b.ids > 0 && FocusAt(b, id).steers == b.runs[id].steers && FocusAt(b, id).provided == (b.runs[id].callID != 0)
  {
    hide LogSound, StreamsSound, SteersSound, SlotsSound, OrderSound, Agrees;
  }

  lemma {:induction false} PublishedSound(b: Book, id: nat, k: Kind)
    requires Sound(b) && MayPublish(b, id, k)
    ensures Sound(Published(b, id, k))
  {
    hide RunsSound, RunSound, LogSound, StreamsSound, SteersSound, SlotsSound, OrderSound, Next, FocusOf, RunAfter;
    var e := EventOf(b, id, k);
    KnownRun(b, id);
    NextParts(FocusAt(b, id), k);
    RunsSnoc(b.runs, b.traces, b.ids, e);
    LogSnoc(b.log, b.traces, e);
    StreamsSnoc(b.streams, b.runs, b.traces, e);
    SteersSnoc(b.answers, b.settled, b.runs, b.traces, b.ids, e);
    SlotsSnoc(b.active, b.reserved, b.runs, e);
    OrderSnoc(b.active, b.reserved, b.runs, b.log, e);
  }

  lemma {:induction false} PublishedFocus(b: Book, id: nat, k: Kind)
    requires Sound(b) && MayPublish(b, id, k)
    ensures Known(Published(b, id, k), id)
    ensures FocusAt(Published(b, id, k), id) == Next(FocusAt(b, id), k).value
  {
    hide Sound, RunSound, Next, FocusOf;
    KnownRun(b, id);
    SoundAfter(id, b.runs[id], b.traces[id], EventOf(b, id, k));
  }

  // ------------------------------------------------------------ several publications of one run

  function PublishedAll(b: Book, id: nat, ks: seq<Kind>): (b': Book)
    requires id in b.runs && id in b.traces
    ensures id in b'.runs && id in b'.traces
  {
    if ks == [] then b else Published(PublishedAll(b, id, ks[..|ks| - 1]), id, ks[|ks| - 1])
  }

  /** The fields of a run that no publication short of settling it sets; its status is
      the session's to set. */
  ghost predicate SameRun(r: Run, r': Run) {
    r' == r.(nextSequence := r'.nextSequence, pending := r'.pending, settlementID := r'.settlementID,
             steers := r'.steers, status := r'.status)
  }

  /** Nothing but one run, its events and the counters that go with them changed. */
  ghost predicate OnlyRun(b: Book, b': Book, id: nat) {
    && id in b.runs && id in b'.runs
    && b'.runs == b.runs[id := b'.runs[id]] && b'.traces.Keys == b.traces.Keys
    && (forall o | o in b.traces && o != id :: b'.traces[o] == b.traces[o])
    && b'.closed == b.closed && b'.threshold == b.threshold && b'.answers == b.answers
    && b.log <= b'.log && b.ids <= b'.ids
  }

  ghost predicate SameSlots(b: Book, b': Book) {
    b'.active == b.active && b'.reserved == b.reserved && b'.settledRuns == b.settledRuns
  }

  predicate Quiet(ks: seq<Kind>) {
    forall k | k in ks :: !Terminal(k) && !k.RunStarted?
  }

  /** A run that has not settled, with what its events say of it. */
  ghost predicate At(b: Book, id: nat, f: Focus) {
    Sound(b) && Known(b, id) && !b.runs[id].terminal && FocusAt(b, id) == f
  }

  /** A run followed a script: the script was appended to its events and nothing else was touched. */
  ghost predicate Moved(b: Book, b': Book, id: nat, ks: seq<Kind>) {
    && OnlyRun(b, b', id) && SameSlots(b, b') && SameRun(b.runs[id], b'.runs[id])
    && id in b.traces && Kinds(b'.traces[id]) == Kinds(b.traces[id]) + ks
    && StartsOf(b'.log) == StartsOf(b.log)
  }

  lemma {:induction false} MovedThen(b: Book, m: Book, b': Book, id: nat, ks: seq<Kind>, ks': seq<Kind>)
    requires Moved(b, m, id, ks) && Moved(m, b', id, ks')
    ensures Moved(b, b', id, ks + ks')
  {
    hide StartsOf;
    assert Kinds(b.traces[id]) + ks + ks' == Kinds(b.traces[id]) + (ks + ks');
  }

  lemma {:induction false} PublishedMoves(b: Book, id: nat, k: Kind)
    requires id in b.runs && id in b.traces && !b.runs[id].terminal && !Terminal(k) && !k.RunStarted?
    ensures Moved(b, Published(b, id, k), id, [k]) && Published(b, id, k).runs[id].status == b.runs[id].status
  {
    hide Delivered, SettledAfter, PendingAfter, SettlementAfter, Without;
    KindsSnoc(b.traces[id], EventOf(b, id, k));
    SnocLog(b.log, EventOf(b, id, k), id);
  }

  lemma {:induction false} PlayOne(b: Book, id: nat, f: Focus, k: Kind, g: Focus)
    requires At(b, id, f) && !Terminal(k) && !k.RunStarted? && Next(f, k) == Some(g)
    ensures At(Published(b, id, k), id, g)
    ensures Moved(b, Published(b, id, k), id, [k]) && Published(b, id, k).runs[id].status == b.runs[id].status
  {
    hide Sound, Next, FocusOf, Moved, Delivered, SettledAfter;
    PublishedSound(b, id, k);
    PublishedFocus(b, id, k);
    PublishedMoves(b, id, k);
  }

  lemma {:induction false} Play(b: Book, id: nat, f: Focus, ks: seq<Kind>, g: Focus)
    requires At(b, id, f) && Quiet(ks) && NextAll(f, ks) == Some(g)
    ensures At(PublishedAll(b, id, ks), id, g)
    ensures Moved(b, PublishedAll(b, id, ks), id, ks) && PublishedAll(b, id, ks).runs[id].status == b.runs[id].status
    decreases |ks|
  {
    hide Sound, Next, FocusOf, Published;
    if ks == [] {
      assert Kinds(b.traces[id]) + [] == Kinds(b.traces[id]);
    } else {
      var front, k := ks[..|ks| - 1], ks[|ks| - 1];
      var mid := NextAll(f, front).value;
      Play(b, id, f, front, mid);
      var m := PublishedAll(b, id, front);
      PlayOne(m, id, mid, k, g);
      MovedThen(b, m, Published(m, id, k), id, front, [k]);
      assert ks == front + [k];
    }
  }

  // ------------------------------------------------------------ fields an operation sets

  function Put(b: Book, id: nat, run: Run): Book
    requires id in b.runs
  {
    b.(runs := b.runs[id := run])
  }

  /** A change of fields the events say nothing about. */
  ghost predicate Cosmetic(r: Run, r': Run) {
    && r' == r.(status := r'.status, stage := r'.stage, answered := r'.answered, acknowledged := r'.acknowledged,
                settledArm := r'.settledArm, settledRequest := r'.settledRequest,
                admittedSteers := r'.admittedSteers, started := r'.started)
    && (r.started ==> r'.started)
  }

  lemma {:induction false} CosmeticRun(id: nat, r: Run, r': Run, trace: seq<Event>)
    requires RunSound(id, r, trace) && Cosmetic(r, r')
    ensures RunSound(id, r', trace) && FocusOf(r', trace) == FocusOf(r, trace)
  {
  }

  lemma {:induction false} PutStreams(b: Book, id: nat, r': Run)
    requires StreamsSound(b.streams, b.runs, b.traces) && id in b.runs && Cosmetic(b.runs[id], r')
    ensures StreamsSound(b.streams, b.runs[id := r'], b.traces)
  {
    assert b.traces == b.traces[id := b.traces[id]];
    StreamsUpdate(b.streams, b.streams, b.runs, b.traces, id, r', b.traces[id]);
  }

  lemma {:induction false} PutSteers(b: Book, id: nat, r': Run)
    requires SteersSound(b.answers, b.settled, b.runs, b.traces, b.ids) && id in b.runs && Cosmetic(b.runs[id], r')
    ensures SteersSound(b.answers, b.settled, b.runs[id := r'], b.traces, b.ids)
  {
    hide Holds;
    assert id in b.traces;
    assert b.traces == b.traces[id := b.traces[id]];
    AnswersUpdate(b.answers, b.settled, b.settled, b.runs, b.traces, b.ids, b.ids, id, r', b.traces[id]);
    SettlesUpdate(b.answers, b.settled, b.settled, b.runs, b.traces, id, r', b.traces[id]);
  }

  lemma {:induction false} PutSlots(b: Book, id: nat, r': Run)
    requires SlotsSound(b.active, b.reserved, b.runs) && OrderSound(b.runs, b.log)
    requires id in b.runs && Cosmetic(b.runs[id], r')
    requires r'.started == b.runs[id].started || b.reserved != Some(id)
    ensures SlotsSound(b.active, b.reserved, b.runs[id := r']) && OrderSound(b.runs[id := r'], b.log)
  {
    hide StartsOf;
  }

  lemma {:induction false} PutSound(b: Book, id: nat, r': Run)
    requires Sound(b) && id in b.runs && Cosmetic(b.runs[id], r')
    requires r'.started == b.runs[id].started || b.reserved != Some(id)
    ensures Sound(Put(b, id, r')) && Known(Put(b, id, r'), id) && Known(b, id)
    ensures FocusAt(Put(b, id, r'), id) == FocusAt(b, id)
    ensures OnlyRun(b, Put(b, id, r'), id) && SameSlots(b, Put(b, id, r'))
  {
    hide RunSound, StreamsSound, FocusOf, LogSound, SteersSound, SlotsSound, OrderSound, Tracked, Cosmetic;
    KnownRun(b, id);
    PutSlots(b, id, r');
    CosmeticRun(id, b.runs[id], r', b.traces[id]);
    PutStreams(b, id, r');
    PutSteers(b, id, r');
  }

  /** Drawing an id or counting history leaves the session sound. */
  lemma {:induction false} CountersSound(b: Book, ids: nat, history: nat)
    requires Sound(b) && ids >= b.ids
    ensures Sound(b.(ids := ids, history := history))
  {
    hide RunSound, LogSound, StreamsSound, SlotsSound, OrderSound, SettlesSound, AnswerSound;
  }
}
