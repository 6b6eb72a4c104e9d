/** Replay, closing, and every sequence of operations on the in-memory session. */
module MemoryHistory {
  import opened Basics
  import opened RunEvents
  import opened CompactionChecker
  import opened MemoryRun
  import opened SessionLedger
  import opened MemoryBook
  import opened MemoryOps
  import opened MemoryCalls
  import opened MemoryGates

  // ------------------------------------------------------------ replay

  /** The events past a cursor. */
  function Past(events: seq<Event>, after: nat): seq<Event> {
    if events == [] then []
    else
      var front := Past(events[..|events| - 1], after);
      if events[|events| - 1].sequence > after then front + [events[|events| - 1]] else front
  }

  /** The sequence of the first event held, or 0. */
  function Oldest(events: seq<Event>): nat {
    if events == [] then 0 else events[0].sequence
  }

  datatype Recovery =
    | ResumeRefused(refusal: Refusal)
    | Gap(oldest: nat, latest: nat)
    | Replayed(first: nat, through: nat)

  function GapIn(events: seq<Event>, after: nat, latest: nat): bool {
    after < latest && (Oldest(events) == 0 || after + 1 < Oldest(events))
  }

  function ResumeRefusal(b: Book, id: nat, after: nat): Option<Refusal> {
    if b.closed then Some(SessionClosed)
    else if id !in b.runs then Some(RunNotFound)
    else if after > b.runs[id].nextSequence - 1 then Some(ReplayCursorFuture)
    else None
  }

  /** What a resume is answered, from the events of the run the journal still holds. */
  function RecoveryOf(b: Book, held: seq<Event>, id: nat, after: nat): Recovery {
    if ResumeRefusal(b, id, after).Some? then ResumeRefused(ResumeRefusal(b, id, after).value)
    else
      var latest := b.runs[id].nextSequence - 1;
      var suffix := Past(held, after);
      if GapIn(held, after, latest) then Gap(Oldest(held), latest)
      else if suffix == [] then Replayed(after, after)
      else Replayed(suffix[0].sequence, suffix[|suffix| - 1].sequence)
  }

  /** The session with one more stream: a replayed suffix, and the live events if the run goes on. */
  function JoinedTo(b: Book, id: nat, after: nat, suffix: seq<Event>): Book
    requires id in b.runs
  {
    b.(streams := b.streams[b.feeds := Stream(id, after, suffix, b.runs[id].terminal)],
       runs := b.runs[id := Joined(b.runs[id], b.feeds)],
       feeds := b.feeds + 1)
  }

  function ResumeBook(b: Book, held: seq<Event>, id: nat, after: nat): Book {
    if !RecoveryOf(b, held, id, after).Replayed? then b else JoinedTo(b, id, after, Past(held, after))
  }

  lemma {:induction false} PastOf(events: seq<Event>, after: nat, m: nat)
    requires forall i | 0 <= i < |events| :: events[i].sequence == m + i + 1
    ensures Past(events, after) == if after <= m then events else if after - m <= |events| then events[after - m..] else []
    decreases |events|
  {
    if events != [] {
      PastOf(events[..|events| - 1], after, m);
    }
  }

  lemma {:induction false} OfRunMembers(log: seq<Event>, id: nat)
    ensures forall e | e in OfRun(log, id) :: e in log && e.run == id
    decreases |log|
  {
    if log != [] {
      OfRunMembers(log[..|log| - 1], id);
      assert forall e | e in log[..|log| - 1] :: e in log;
    }
  }

  /** The journal holds the last events of a run: those from some sequence on. */
  lemma {:induction false} HeldIsSuffix(log: seq<Event>, capacity: nat, id: nat) returns (m: nat)
    requires Numbered(id, OfRun(log, id))
    ensures m <= |OfRun(log, id)| && OfRun(Tail(log, capacity), id) == OfRun(log, id)[m..]
    ensures forall i | 0 <= i < |OfRun(log, id)| :: OfRun(log, id)[i] in Tail(log, capacity) <==> m <= i
  {
    var k := if |log| > capacity then |log| - capacity else 0;
    assert Tail(log, capacity) == log[k..];
    TailOfRun(log, k, id);
    var trace, held := OfRun(log, id), OfRun(log[k..], id);
    m := |trace| - |held|;
    OfRunMembers(log[k..], id);
    forall i | 0 <= i < |trace|
      ensures trace[i] in log[k..] <==> m <= i
    {
      if trace[i] in log[k..] {
        MemberOfRun(log[k..], trace[i]);
        var j :| 0 <= j < |held| && held[j] == trace[i];
        assert held[j] == trace[m + j];
      }
      if m <= i {
        assert held[i - m] in held && held[i - m] == trace[i];
      }
    }
  }

  /** A resume reports a gap exactly when the event after its cursor exists and was evicted
      from the journal; otherwise it replays precisely the events past its cursor. */
  lemma {:induction false} GapExactly(b: Book, capacity: nat, id: nat, after: nat)
    requires Sound(b) && ResumeRefusal(b, id, after).None?
    ensures id in b.traces && after <= |b.traces[id]|
    ensures var held := OfRun(Tail(b.log, capacity), id);
      && (GapIn(held, after, b.runs[id].nextSequence - 1) <==>
            after < |b.traces[id]| && b.traces[id][after] !in Tail(b.log, capacity))
      && (!GapIn(held, after, b.runs[id].nextSequence - 1) ==> Past(held, after) == b.traces[id][after..])
  {
    hide StreamsSound, SteersSound, SlotsSound, OrderSound, Agrees, Tail, Past;
    var trace := b.traces[id];
    KnownRun(b, id);
    assert OfRun(b.log, id) == trace;
    var m := HeldIsSuffix(b.log, capacity, id);
    PastOf(trace[m..], after, m);
  }

  lemma {:induction false} ResumedRun(id: nat, run: Run, subscribers: seq<nat>, trace: seq<Event>)
    requires RunSound(id, run, trace) && (run.terminal ==> subscribers == [])
    ensures RunSound(id, run.(subscribers := subscribers), trace)
    ensures FocusOf(run.(subscribers := subscribers), trace) == FocusOf(run, trace)
  {
  }

  /** A run that has not settled gains a stream. */
  function Joined(run: Run, key: nat): Run {
    run.(subscribers := if run.terminal then run.subscribers else run.subscribers + [key])
  }

  lemma {:induction false} StreamJoined(k: nat, s: Stream, run: Run, key: nat, trace: seq<Event>)
    requires StreamSound(k, s, run, trace) && k != key
    ensures StreamSound(k, s, Joined(run, key), trace)
  {
  }

  lemma {:induction false} JoinedUnique(run: Run, key: nat)
    requires Unique(run.subscribers) && key !in run.subscribers
    ensures Unique(Joined(run, key).subscribers)
  {
  }

  lemma {:induction false} ResumedStreams(
    streams: map<nat, Stream>, runs: map<nat, Run>, traces: map<nat, seq<Event>>, id: nat, s: Stream, key: nat)
    requires StreamsSound(streams, runs, traces) && id in runs && key !in streams && s.run == id
    requires StreamSound(key, s, Joined(runs[id], key), traces[id])
    ensures StreamsSound(streams[key := s], runs[id := Joined(runs[id], key)], traces)
  {
    hide StreamSound, Unique;
    var run' := Joined(runs[id], key);
    var runs', streams' := runs[id := run'], streams[key := s];
    forall k | k in streams'
      ensures streams'[k].run in runs' && StreamSound(k, streams'[k], runs'[streams'[k].run], traces[streams'[k].run])
    {
      if k != key {
        assert StreamSound(k, streams[k], runs[streams[k].run], traces[streams[k].run]);
        StreamJoined(k, streams[k], runs[streams[k].run], key, traces[streams[k].run]);
      }
    }
    assert key !in runs[id].subscribers;
    JoinedUnique(runs[id], key);
  }

  lemma {:induction false} ResumedSteers(b: Book, id: nat, run': Run)
    requires SteersSound(b.answers, b.settled, b.runs, b.traces, b.ids) && id in b.runs
    requires run' == b.runs[id].(subscribers := run'.subscribers)
    ensures SteersSound(b.answers, b.settled, b.runs[id := run'], b.traces, b.ids)
  {
    hide Holds;
    assert id in b.traces;
    assert b.traces == b.traces[id := b.traces[id]];
    AnswersUpdate(b.answers, b.settled, b.settled, b.runs, b.traces, b.ids, b.ids, id, run', b.traces[id]);
    SettlesUpdate(b.answers, b.settled, b.settled, b.runs, b.traces, id, run', b.traces[id]);
  }

  lemma {:induction false} ResumedSlots(b: Book, id: nat, run': Run)
    requires SlotsSound(b.active, b.reserved, b.runs) && OrderSound(b.runs, b.log) && id in b.runs
    requires run' == b.runs[id].(subscribers := run'.subscribers)
    ensures SlotsSound(b.active, b.reserved, b.runs[id := run']) && OrderSound(b.runs[id := run'], b.log)
  {
    hide StartsOf;
  }

  /** A resume may come between any two publications: it keeps the session sound. */
  lemma {:induction false} ResumeSound(b: Book, capacity: nat, id: nat, after: nat)
    requires Sound(b)
    ensures Sound(ResumeBook(b, OfRun(Tail(b.log, capacity), id), id, after))
  {
    hide RunSound, LogSound, StreamsSound, SteersSound, SlotsSound, OrderSound, Tail, OfRun, Past, FocusOf, Agrees, Oldest, Delivered;
    var held := OfRun(Tail(b.log, capacity), id);
    if RecoveryOf(b, held, id, after).Replayed? {
      var b' := ResumeBook(b, held, id, after);
      var run, run' := b.runs[id], b'.runs[id];
      KnownRun(b, id);
      GapExactly(b, capacity, id, after);
      SettledHasNoStream(b, id);
      ResumedRun(id, run, run'.subscribers, b.traces[id]);
      ResumedStreams(b.streams, b.runs, b.traces, id, b'.streams[b.feeds], b.feeds);
      ResumedSteers(b, id, run');
      ResumedSlots(b, id, run');
    }
  }

  lemma {:induction false} SettledHasNoStream(b: Book, id: nat)
    requires Sound(b) && id in b.runs
    ensures b.runs[id].terminal ==> b.runs[id].subscribers == []
  {
    hide Sound, FocusOf;
    KnownRun(b, id);
  }

  lemma {:induction false} ResumeKeeps(b: Book, capacity: nat, id: nat, after: nat)
    requires Inv(b)
    ensures Inv(ResumeBook(b, OfRun(Tail(b.log, capacity), id), id, after))
  {
    hide Sound, Steady, RecoveryOf, Past;
    var held := OfRun(Tail(b.log, capacity), id);
    ResumeSound(b, capacity, id, after);
    var b' := ResumeBook(b, held, id, after);
    if RecoveryOf(b, held, id, after).Replayed? {
      assert id in b.runs by {
        ResumedKnown(b, held, id, after);
      }
      assert SteadyAt(b, id);
      SteadyJoined(b.runs[id], b.feeds, b.traces[id]);
      forall o | o in b'.runs && o != id
        ensures SteadyAt(b', o)
      {
        assert SteadyAt(b, o);
      }
    }
  }

  lemma {:induction false} ResumedKnown(b: Book, held: seq<Event>, id: nat, after: nat)
    requires RecoveryOf(b, held, id, after).Replayed?
    ensures id in b.runs && !b.closed
  {
  }

  lemma {:induction false} SteadyJoined(run: Run, key: nat, trace: seq<Event>)
    requires Tracked(run, trace) && Steady(run, trace)
    ensures Tracked(Joined(run, key), trace) && Steady(Joined(run, key), trace)
  {
  }

  // ------------------------------------------------------------ closing and settings

  predicate CloseRefused(b: Book) {
    !b.closed && (Live(b, b.active) || Live(b, b.reserved))
  }

  function CloseBook(b: Book): Book {
    if CloseRefused(b) then b else b.(closed := true)
  }

  /** A session closes only over settled runs, so no stream is left open when it does. */
  lemma {:induction false} CloseKeeps(b: Book)
    requires Inv(b)
    ensures Inv(CloseBook(b))
    ensures CloseBook(b).closed ==>
      && (forall id | id in b.runs :: b.runs[id].terminal && b.runs[id].subscribers == [])
      && (forall k | k in b.streams :: b.streams[k].ended)
  {
    hide RunSound, LogSound, SteersSound, OrderSound, Steady, FocusOf;
    var b' := CloseBook(b);
    assert forall o | o in b'.runs :: SteadyAt(b, o);
    if b'.closed {
      assert b.active.None? && b.reserved.None?;
      forall id | id in b.runs
        ensures b.runs[id].terminal && b.runs[id].subscribers == []
      {
        SettledHasNoStream(b, id);
      }
    }
  }

  datatype Policy = PolicyAuto | PolicyOff | PolicyShare(percent: int) | PolicyTokens(tokens: int)

  const NEVER: nat := 0xFFFF_FFFF_FFFF_FFFF

  /** The history estimate at which a session compacts on its own. */
  function ThresholdOf(policy: Option<Policy>): Option<nat> {
    match policy
    case None => Some(REFERENCE_WINDOW * 80 / 100)
    case Some(PolicyOff) => Some(NEVER)
    case Some(PolicyAuto) => Some(REFERENCE_WINDOW * 80 / 100)
    case Some(PolicyShare(p)) => if 1 <= p <= 100 then Some(REFERENCE_WINDOW * p / 100) else None
    case Some(PolicyTokens(n)) => if 1 <= n then Some(n) else None
  }

  /** A run that starts compacts for overflow exactly when the history fills the window; short of
      that, a share or a token count sets where it compacts, and a session whose policy is off
      does not. */
  lemma {:induction false} PolicyHonoured(b: Book, policy: Option<Policy>)
    requires ThresholdOf(policy) == Some(b.threshold) && b.history < NEVER
    ensures AutoReason(b) == Some(Overflow) <==> b.history >= REFERENCE_WINDOW
    ensures AutoReason(b) == Some(Threshold) <==>
      && b.history < REFERENCE_WINDOW
      && match policy
         case Some(PolicyOff) => false
         case Some(PolicyTokens(n)) => b.history >= n
         case Some(PolicyShare(p)) => 100 * (b.history + 1) > REFERENCE_WINDOW * p
         case _ => 100 * (b.history + 1) > REFERENCE_WINDOW * 80
  {
  }

  function SettingsRefusal(b: Book, cfg: Config, sessionID: string, policy: Option<Policy>): Option<Refusal> {
    if ThresholdOf(policy).None? then Some(UnsupportedControl)
    else if b.closed then Some(SessionClosed)
    else if sessionID != cfg.sessionID then Some(InvalidSubmission)
    else None
  }

  function SettingsBook(b: Book, cfg: Config, sessionID: string, policy: Option<Policy>): Book {
    if SettingsRefusal(b, cfg, sessionID, policy).Some? then b else b.(threshold := ThresholdOf(policy).value)
  }

  lemma {:induction false} SettingsKeep(b: Book, cfg: Config, sessionID: string, policy: Option<Policy>)
    requires Inv(b)
    ensures Inv(SettingsBook(b, cfg, sessionID, policy))
  {
    hide RunsSound, LogSound, StreamsSound, SteersSound, SlotsSound, OrderSound, Steady;
    var b' := SettingsBook(b, cfg, sessionID, policy);
    forall o | o in b'.runs
      ensures SteadyAt(b', o)
    {
      assert SteadyAt(b, o);
    }
  }

  // ------------------------------------------------------------ submit and compact

  function SubmitBook(b: Book, cfg: Config, q: Submission): Book {
    if q.delivery.AsSteer? then
      if SteerRefusal(b, cfg, q).Some? || b.runs[SteerTarget(b, q.target).run].nextSequence == 0 then b
      else SteeredBook(b, SteerTarget(b, q.target).run, q.envelope)
    else if SubmitRefusal(b, cfg, q).Some? then b
    else AdmitBook(b, SubmittedRun(b, cfg, q), q.delivery.AsQueue?)
  }

  function CompactBook(b: Book, cfg: Config, q: Compaction): Book {
    if CompactRefusal(b, cfg, q).Some? then b else AdmitBook(b, CompactingRun(b, q), q.delivery.AsQueue?)
  }

  lemma {:induction false} SubmitKeeps(b: Book, cfg: Config, q: Submission)
    requires Inv(b)
    ensures Inv(SubmitBook(b, cfg, q)) && b.log <= SubmitBook(b, cfg, q).log
  {
    hide Sound, SteadyAt, AdmitBook;
    if q.delivery.AsSteer? {
      if SteerRefusal(b, cfg, q).None? {
        SteerTargets(b, q.target);
        SteerKeeps(b, SteerTarget(b, q.target).run, q.envelope);
      }
    } else if SubmitRefusal(b, cfg, q).None? {
      AdmitKeeps(b, SubmittedRun(b, cfg, q), q.delivery.AsQueue?);
    }
  }

  lemma {:induction false} CompactKeeps(b: Book, cfg: Config, q: Compaction)
    requires Inv(b)
    ensures Inv(CompactBook(b, cfg, q)) && b.log <= CompactBook(b, cfg, q).log
  {
    hide Sound, SteadyAt, AdmitBook;
    if CompactRefusal(b, cfg, q).None? {
      AdmitKeeps(b, CompactingRun(b, q), q.delivery.AsQueue?);
    }
  }

  /** A session is refused for being busy only when one run is started and another waits. */
  lemma {:induction false} BusyMeansBoth(b: Book, cfg: Config, sessionID: string)
    requires Inv(b)
    ensures SlotRefusal(b, cfg, sessionID) == Some(RunActive) <==>
      !b.closed && sessionID == cfg.sessionID && b.active.Some? && b.reserved.Some?
    ensures b.reserved.Some? ==> b.active.Some? && b.runs[b.active.value].started && !b.runs[b.reserved.value].started
  {
    hide RunsSound, LogSound, StreamsSound, SteersSound, OrderSound, Poised;
  }

  // ------------------------------------------------------------ every sequence of operations

  datatype Op =
    | Submit(submission: Submission)
    | Compact(compaction: Compaction)
    | Resolve(resolution: Resolution)
    | ResolveCall(call: CallResolution)
    | Cancel(run: nat)
    | Resume(run: nat, after: nat)
    | Close
    | Settings(sessionID: string, policy: Option<Policy>)

  function Apply(b: Book, cfg: Config, op: Op): Book {
    match op
    case Submit(q) => SubmitBook(b, cfg, q)
    case Compact(q) => CompactBook(b, cfg, q)
    case Resolve(q) => ResolveBook(b, cfg, q)
    case ResolveCall(q) => ResolveCallBook(b, cfg, q)
    case Cancel(id) => CancelBook(b, id)
    case Resume(id, after) => ResumeBook(b, OfRun(Tail(b.log, cfg.capacity), id), id, after)
    case Close => CloseBook(b)
    case Settings(sessionID, policy) => SettingsBook(b, cfg, sessionID, policy)
  }

  function Empty(threshold: nat): Book {
    Book(false, None, None, map[], [], threshold, 0, map[], 0, 1, [], map[], map[], map[])
  }

  function After(threshold: nat, cfg: Config, ops: seq<Op>): Book {
    if ops == [] then Empty(threshold) else Apply(After(threshold, cfg, ops[..|ops| - 1]), cfg, ops[|ops| - 1])
  }

  predicate Orderly(b: Book, cfg: Config, op: Op) {
    op.ResolveCall? ==> !Premature(b, cfg, op.call)
  }

  /** No operation answers the provided call of a run that has not started. */
  predicate OrderlyAll(threshold: nat, cfg: Config, ops: seq<Op>) {
    forall n | 0 <= n < |ops| :: Orderly(After(threshold, cfg, ops[..n]), cfg, ops[n])
  }

  lemma {:induction false} ApplyKeeps(b: Book, cfg: Config, op: Op)
    requires Inv(b)
    ensures Inv(Apply(b, cfg, op)) <==> Orderly(b, cfg, op)
    ensures Orderly(b, cfg, op) ==> b.log <= Apply(b, cfg, op).log
  {
    hide Inv, SubmitBook, CompactBook, ResolveBook, ResolveCallBook, CancelBook, Premature, OfRun, Tail, RecoveryOf;
    match op
    case Submit(q) => SubmitKeeps(b, cfg, q);
    case Compact(q) => CompactKeeps(b, cfg, q);
    case Resolve(q) => ResolveKeeps(b, cfg, q);
    case ResolveCall(q) => ResolveCallKeeps(b, cfg, q);
    case Cancel(id) => CancelKeeps(b, id);
    case Resume(id, after) => ResumeKeeps(b, cfg.capacity, id, after);
    case Close => CloseKeeps(b);
    case Settings(sessionID, policy) => SettingsKeep(b, cfg, sessionID, policy);
  }

  lemma {:induction false} EmptyInv(threshold: nat)
    ensures Inv(Empty(threshold))
  {
  }

  /** The invariant holds after every prefix of a history exactly when no operation of the
      history answers the provided call of a run that has not started. */
  lemma {:induction false} EveryHistory(threshold: nat, cfg: Config, ops: seq<Op>)
    ensures (forall n | 0 <= n <= |ops| :: Inv(After(threshold, cfg, ops[..n]))) <==> OrderlyAll(threshold, cfg, ops)
  {
    hide Inv, Apply, Orderly;
    if OrderlyAll(threshold, cfg, ops) {
      forall n | 0 <= n <= |ops|
        ensures Inv(After(threshold, cfg, ops[..n]))
      {
        OrderlyKeeps(threshold, cfg, ops, n);
      }
    } else {
      var n :| 0 <= n < |ops| && !Orderly(After(threshold, cfg, ops[..n]), cfg, ops[n]);
      AfterNext(threshold, cfg, ops, n);
      if Inv(After(threshold, cfg, ops[..n])) {
        ApplyKeeps(After(threshold, cfg, ops[..n]), cfg, ops[n]);
        assert !Inv(After(threshold, cfg, ops[..n + 1]));
      }
    }
  }

  lemma {:induction false} AfterNext(threshold: nat, cfg: Config, ops: seq<Op>, n: nat)
    requires n < |ops|
    ensures After(threshold, cfg, ops[..n + 1]) == Apply(After(threshold, cfg, ops[..n]), cfg, ops[n])
  {
    assert ops[..n + 1][..n] == ops[..n];
  }

  lemma {:induction false} OrderlyKeeps(threshold: nat, cfg: Config, ops: seq<Op>, n: nat)
    requires OrderlyAll(threshold, cfg, ops) && n <= |ops|
    ensures Inv(After(threshold, cfg, ops[..n]))
  {
    hide Inv, Apply, Orderly;
    if n == 0 {
      EmptyInv(threshold);
    } else {
      OrderlyKeeps(threshold, cfg, ops, n - 1);
      AfterNext(threshold, cfg, ops, n - 1);
      ApplyKeeps(After(threshold, cfg, ops[..n - 1]), cfg, ops[n - 1]);
    }
  }

  // ------------------------------------------------------------ what the invariant says

  /** A run's published events are numbered from 1 without gaps and follow the protocol; a settled
      run began with run.started or is a lone cancellation, holds one terminal event and holds it
      last, and closed all it opened; the compaction checker is silent. */
  ghost predicate RunTold(b: Book, id: nat)
    requires id in b.runs
  {
    var trace, run := OfRun(b.log, id), b.runs[id];
    var ks := Kinds(trace);
    && (forall i | 0 <= i < |trace| :: trace[i].sequence == i + 1 && trace[i].run == id)
    && (forall i | 0 <= i < |ks| && Terminal(ks[i]) :: run.terminal && i == |ks| - 1)
    && (run.terminal ==>
          && ks != [] && (ks == [RunCancelled] || ks[0].RunStarted?) && Terminal(ks[|ks| - 1])
          && forall i | 0 <= i < |ks| && Opens(ks[i]) :: ClosedWithin(ks, i))
    && (!run.terminal ==> if run.started then ks != [] && ks[0].RunStarted? else ks == [])
    && CheckOf(run.compaction, run.compactContinue, ks).diagnostics == []
  }

  lemma {:induction false} RunsTold(b: Book, id: nat)
    requires Inv(b) && id in b.runs
    ensures RunTold(b, id)
  {
    hide StreamsSound, SteersSound, SlotsSound, OrderSound, Poised, Draft, CheckOf, TrackOf, Follows;
    KnownRun(b, id);
    assert SteadyAt(b, id);
    assert OfRun(b.log, id) == b.traces[id];
    var ks := Kinds(b.traces[id]);
    Told(b.runs[id], b.traces[id]);
  }

  lemma {:induction false} Told(run: Run, trace: seq<Event>)
    requires Tracked(run, trace) && Agrees(run, FocusOf(run, trace)) && Steady(run, trace)
    ensures var ks := Kinds(trace);
      && (forall i | 0 <= i < |ks| && Terminal(ks[i]) :: run.terminal && i == |ks| - 1)
      && (run.terminal ==>
            && ks != [] && (ks == [RunCancelled] || ks[0].RunStarted?) && Terminal(ks[|ks| - 1])
            && forall i | 0 <= i < |ks| && Opens(ks[i]) :: ClosedWithin(ks, i))
      && (!run.terminal ==> if run.started then ks != [] && ks[0].RunStarted? else ks == [])
      && CheckOf(run.compaction, run.compactContinue, ks).diagnostics == []
  {
    hide TrackOf, CheckOf, Draft, Calm, ClosedWithin;
    var ks := Kinds(trace);
    TrackFlags(ks);
    if run.terminal {
      AcceptedMeans(ks);
    }
  }

  /** An answered steer is pending on a run that has not settled, or settled exactly once, by an
      event of the run it was answered for, after the sequence it was answered with. */
  ghost predicate SteerTold(b: Book, s: nat)
    requires s in b.answers
  {
    var a := b.answers[s];
    var trace := OfRun(b.log, a.run);
    && a.run in b.runs && a.sequence <= |trace|
    && (s !in b.settled ==>
          && !b.runs[a.run].terminal && Holds(b.runs[a.run].steers, s)
          && forall e | e in b.log :: SettledBy(e.kind) != s)
    && (s in b.settled ==>
          && a.sequence < b.settled[s] <= |trace|
          && forall e | e in b.log :: SettledBy(e.kind) == s <==> e == trace[b.settled[s] - 1])
  }

  lemma {:induction false} SteersTold(b: Book, s: nat)
    requires Inv(b) && s in b.answers
    ensures SteerTold(b, s)
  {
    hide Sound, Steady, Holds, FocusOf;
    AnswerTold(b, s);
    var a := b.answers[s];
    KnownRun(b, a.run);
    SettledHasNoSteer(b.runs[a.run], FocusAt(b, a.run), s);
    forall e | e in b.log && SettledBy(e.kind) == s
      ensures s in b.settled && e == OfRun(b.log, a.run)[b.settled[s] - 1]
    {
      SettlementTold(b, e);
    }
    OfRunMembers(b.log, a.run);
  }

  lemma {:induction false} AnswerTold(b: Book, s: nat)
    requires Sound(b) && s in b.answers
    ensures b.answers[s].run in b.runs && s != 0 && OfRun(b.log, b.answers[s].run) == b.traces[b.answers[s].run]
    ensures AnswerSound(s, b.answers[s], b.runs[b.answers[s].run], OfRun(b.log, b.answers[s].run), b.settled)
  {
    hide RunSound, StreamsSound, SlotsSound, OrderSound, OfRun, AnswerSound, SettlesSound;
  }

  /** A settlement in the log is the one its steer was recorded at. */
  lemma {:induction false} SettlementTold(b: Book, e: Event)
    requires Sound(b) && e in b.log && SettledBy(e.kind) != 0
    ensures var s := SettledBy(e.kind); var trace := OfRun(b.log, e.run);
      s in b.settled && s in b.answers && b.answers[s].run == e.run && 0 < b.settled[s] <= |trace| && e == trace[b.settled[s] - 1]
  {
    hide RunSound, StreamsSound, SlotsSound, OrderSound, AnswersSound;
    MemberOfRun(b.log, e);
    assert SteersOf(e.run, b.runs[e.run], b.traces[e.run], b.answers, b.settled);
    var i :| 0 <= i < |b.traces[e.run]| && b.traces[e.run][i] == e;
  }

  lemma {:induction false} SettledHasNoSteer(run: Run, f: Focus, s: nat)
    requires Agrees(run, f)
    ensures Holds(run.steers, s) ==> !run.terminal
  {
  }

  /** A stream carries exactly the events of its run past its cursor, each once and in order,
      and ends with the run's terminal event. */
  ghost predicate StreamTold(b: Book, k: nat)
    requires k in b.streams
  {
    var s := b.streams[k];
    && s.run in b.runs && s.after <= |OfRun(b.log, s.run)| && s.carried == OfRun(b.log, s.run)[s.after..]
    && (s.ended <==> b.runs[s.run].terminal)
  }

  lemma {:induction false} StreamsTold(b: Book, k: nat)
    requires Sound(b) && k in b.streams
    ensures StreamTold(b, k)
  {
    hide RunSound, SteersSound, SlotsSound, OrderSound, Steady;
  }

  lemma {:induction false} InvIsSound(b: Book)
    requires Inv(b)
    ensures Sound(b)
  {
    hide Sound, SteadyAt;
  }

  predicate Pending(b: Book, id: nat) {
    id in b.runs && !b.runs[id].terminal
  }

  /** At most one run has started and not settled, at most one waits, and it waits behind the
      started one. */
  ghost predicate SlotsApart(b: Book) {
    && (forall i, j | Pending(b, i) && Pending(b, j) && b.runs[i].started == b.runs[j].started :: i == j)
    && (forall i, j | Pending(b, i) && Pending(b, j) && b.runs[i].started && !b.runs[j].started :: i < j)
    && (forall i | Pending(b, i) && !b.runs[i].started :: exists j :: Pending(b, j) && b.runs[j].started)
  }

  /** The reported state lists the unsettled runs in admission order. */
  ghost predicate SlotsReported(b: Book) {
    var entries := Snapshot(b.active, b.reserved, b.runs, b.settledRuns).entries;
    && (forall id :: Pending(b, id) <==> exists i :: 0 <= i < |entries| && entries[i].runID == id)
    && (forall i, j | 0 <= i < j < |entries| :: entries[i].runID < entries[j].runID)
  }

  /** The runs keep apart, start in the order they were admitted, and are reported in it. */
  ghost predicate SlotsTidy(b: Book) {
    SlotsApart(b) && Increasing(StartsOf(b.log)) && SlotsReported(b)
  }

  lemma {:induction false} SlotsTold(b: Book)
    requires Inv(b)
    ensures SlotsTidy(b)
  {
    hide Inv, SlotsApart, SlotsReported;
    SlotsKept(b);
    SlotsListed(b);
    InvIsSound(b);
    StartsInOrder(b);
  }

  lemma {:induction false} SlotsListed(b: Book)
    requires Inv(b)
    ensures SlotsReported(b)
  {
    hide Inv, Sound, Snapshot, SlotsSound;
    InvIsSound(b);
    SlotsOf(b);
    forall id | id in b.runs
      ensures b.runs[id].answered
    {
      Answered(b, id);
    }
    SnapshotLists(b.active, b.reserved, b.runs, b.settledRuns);
  }

  lemma {:induction false} SlotsKept(b: Book)
    requires Inv(b)
    ensures SlotsApart(b)
  {
    hide Sound, Steady;
    SlotsOf(b);
  }

  lemma {:induction false} StartsInOrder(b: Book)
    requires Sound(b)
    ensures Increasing(StartsOf(b.log))
  {
    hide RunsSound, StreamsSound, SteersSound, SlotsSound, OrderSound, StartsOf;
  }

  /** Every run, steer, stream and slot is as it should be. */
  ghost predicate AllTold(b: Book) {
    && (forall id | id in b.runs :: RunTold(b, id)) && (forall s | s in b.answers :: SteerTold(b, s))
    && (forall k | k in b.streams :: StreamTold(b, k)) && SlotsTidy(b)
  }

  lemma {:induction false} InvTells(b: Book)
    requires Inv(b)
    ensures AllTold(b)
  {
    hide Inv, RunTold, SteerTold, StreamTold, SlotsTidy;
    InvIsSound(b);
    forall id | id in b.runs
      ensures RunTold(b, id)
    {
      RunsTold(b, id);
    }
    forall s | s in b.answers
      ensures SteerTold(b, s)
    {
      SteersTold(b, s);
    }
    forall k | k in b.streams
      ensures StreamTold(b, k)
    {
      StreamsTold(b, k);
    }
    SlotsTold(b);
  }

  /** After every prefix of a history every run is as it should be, if and only if no operation
      of the history answers the call of a run that has not started. */
  lemma {:induction false} RunsToldExactly(threshold: nat, cfg: Config, ops: seq<Op>)
    ensures
      (forall n, id | 0 <= n <= |ops| && id in After(threshold, cfg, ops[..n]).runs :: RunTold(After(threshold, cfg, ops[..n]), id))
      <==> OrderlyAll(threshold, cfg, ops)
  {
    hide RunTold, After, OrderlyAll, Inv;
    if OrderlyAll(threshold, cfg, ops) {
      forall n, id | 0 <= n <= |ops| && id in After(threshold, cfg, ops[..n]).runs
        ensures RunTold(After(threshold, cfg, ops[..n]), id)
      {
        OrderlyKeeps(threshold, cfg, ops, n);
        RunsTold(After(threshold, cfg, ops[..n]), id);
      }
    } else {
      var n := FirstPremature(threshold, cfg, ops);
      var q := ops[n].call;
      var b := After(threshold, cfg, ops[..n]);
      PrematurePublishes(b, cfg, q);
      AfterNext(threshold, cfg, ops, n);
      CallFirstUntold(ResolveCallBook(b, cfg, q), q.run);
      assert !RunTold(After(threshold, cfg, ops[..n + 1]), q.run);
    }
  }

  /** After every prefix of a history, whatever the operations and their arguments, every run, steer,
      stream and slot is as it should be, if and only if no operation answers the call of a run that
      has not started. */
  lemma {:induction false} EveryHistoryTold(threshold: nat, cfg: Config, ops: seq<Op>)
    ensures (forall n | 0 <= n <= |ops| :: AllTold(After(threshold, cfg, ops[..n]))) <==> OrderlyAll(threshold, cfg, ops)
  {
    hide RunTold, SteerTold, StreamTold, SlotsTidy, After, OrderlyAll, Inv;
    RunsToldExactly(threshold, cfg, ops);
    if OrderlyAll(threshold, cfg, ops) {
      forall n | 0 <= n <= |ops|
        ensures AllTold(After(threshold, cfg, ops[..n]))
      {
        OrderlyKeeps(threshold, cfg, ops, n);
        InvTells(After(threshold, cfg, ops[..n]));
      }
    }
  }

  /** The first premature answer of a history comes while everything is still as it should be. */
  lemma {:induction false} FirstPremature(threshold: nat, cfg: Config, ops: seq<Op>) returns (n: nat)
    requires !OrderlyAll(threshold, cfg, ops)
    ensures n < |ops| && ops[n].ResolveCall? && Inv(After(threshold, cfg, ops[..n]))
    ensures Premature(After(threshold, cfg, ops[..n]), cfg, ops[n].call)
  {
    hide Inv, Premature, After;
    n := 0;
    while Orderly(After(threshold, cfg, ops[..n]), cfg, ops[n])
      invariant n < |ops| && exists m :: n <= m < |ops| && !Orderly(After(threshold, cfg, ops[..m]), cfg, ops[m])
      invariant forall m | 0 <= m < n :: Orderly(After(threshold, cfg, ops[..m]), cfg, ops[m])
      decreases |ops| - n
    {
      n := n + 1;
    }
    OrderlyPrefix(threshold, cfg, ops, n);
    OrderlyKeeps(threshold, cfg, ops[..n], n);
    assert ops[..n][..n] == ops[..n];
  }

  lemma {:induction false} OrderlyPrefix(threshold: nat, cfg: Config, ops: seq<Op>, n: nat)
    requires n <= |ops| && forall m | 0 <= m < n :: Orderly(After(threshold, cfg, ops[..m]), cfg, ops[m])
    ensures OrderlyAll(threshold, cfg, ops[..n])
  {
    hide Orderly, After;
    forall m | 0 <= m < n
      ensures Orderly(After(threshold, cfg, ops[..n][..m]), cfg, ops[..n][m])
    {
      assert ops[..n][..m] == ops[..m];
    }
  }

  lemma {:induction false} CallFirstUntold(b: Book, id: nat)
    requires id in b.runs
    requires BeginsWithCall(Kinds(OfRun(b.log, id)))
    ensures !RunTold(b, id)
  {
    hide CheckOf, ClosedWithin, OfRun;
  }

  // ------------------------------------------------------------ a premature call

  /** A run admitted to an idle session for anything but a compaction is started and not settled. */
  lemma {:induction false} AdmitOpens(b: Book, run: Run, queue: bool)
    requires Inv(b) && !b.closed && NewDraft(run) && b.active.None? && !run.compaction
    ensures AdmitBook(b, run, queue).active == Some(b.ids)
  {
    hide Sound, StartsOf, Opened, OpeningScript, Kinds, Poised, Steady, CheckOf, TrackOf;
    var b1, id := Enlisted(b, run, queue), b.ids;
    SlotsOf(b);
    EnlistedSound(b, run, queue);
    DraftUnbegun(b1, id);
    OpenedKeeps(b1, id);
    var b2 := Opened(b1, id);
    KnownRun(b2, id);
    ScriptRunsOn(b1.runs[id], OpeningReason(b1, id), Begun(b1, id).ids);
    var ks := Kinds(b2.traces[id]);
    TrackFlags(ks);
    assert forall i | 0 <= i < |ks| :: ks[i] in ks;
    assert !FocusAt(b2, id).t.terminal;
  }

  lemma {:induction false} ScriptRunsOn(run: Run, reason: Option<Reason>, c: nat)
    requires !run.compaction
    ensures forall k | k in OpeningScript(run, reason, c) :: !Terminal(k)
  {
  }

  /** A tool-calling run admitted behind another can be answered before it starts. */
  lemma {:induction false} ReservationExposed(b: Book, cfg: Config, q: Submission, envelope: nat)
    requires Inv(b) && Live(b, b.active) && SubmitRefusal(b, cfg, q).None? && !q.delivery.AsSteer?
    requires cfg.providesTools && q.controls == Some(true)
    ensures Premature(SubmitBook(b, cfg, q), cfg,
      CallResolution(envelope, b.ids + 3, cfg.sessionID, b.ids, ENDPOINT, cfg.participant, true, ArmResult))
  {
    hide Sound, SteadyAt;
  }

  lemma {:induction false} IdleAfterOne(b: Book, b': Book, run: Run, queue: bool)
    requires Inv(b) && !b.closed && NewDraft(run) && b.active.None? && !run.compaction
    requires b' == AdmitBook(b, run, queue)
    ensures !b'.closed && b'.reserved.None? && Live(b', b'.active)
  {
    hide Sound, StartsOf, FocusOf, Opened, Poised, Steady;
    SlotsOf(b);
    AdmitOpens(b, run, queue);
    AdmitKeeps(b, run, queue);
    EnlistedSound(b, run, queue);
    DraftUnbegun(Enlisted(b, run, queue), b.ids);
    OpenedKeeps(Enlisted(b, run, queue), b.ids);
    SlotsOf(b');
  }

  /** Any client that can submit can bring the session to where a call it was never shown
      can be answered early: two submissions and a guess at the second run's call id. */
  lemma {:induction false} PrematureHappens(threshold: nat, cfg: Config, q: Submission, envelope: nat)
    requires cfg.providesTools && q.sessionID == cfg.sessionID != "" && q.messages > 0 && q.controls == Some(true) && q.delivery.Auto?
    ensures var b := After(threshold, cfg, [Submit(q)]);
      var early := CallResolution(envelope, b.ids + 3, cfg.sessionID, b.ids, ENDPOINT, cfg.participant, true, ArmResult);
      BeginsWithCall(Kinds(OfRun(After(threshold, cfg, [Submit(q), Submit(q), ResolveCall(early)]).log, b.ids)))
  {
    hide Inv, AdmitBook, ResolveCallBook, Enlisted;
    var e0 := Empty(threshold);
    EmptyInv(threshold);
    var b := After(threshold, cfg, [Submit(q)]);
    assert [Submit(q)][..0] == [];
    assert After(threshold, cfg, []) == e0;
    assert b == SubmitBook(e0, cfg, q);
    assert b == AdmitBook(e0, SubmittedRun(e0, cfg, q), false);
    SubmitKeeps(e0, cfg, q);
    AdmitOpens(e0, SubmittedRun(e0, cfg, q), false);
    IdleAfterOne(e0, b, SubmittedRun(e0, cfg, q), false);
    var b2 := After(threshold, cfg, [Submit(q), Submit(q)]);
    assert [Submit(q), Submit(q)][..1] == [Submit(q)];
    var early := CallResolution(envelope, b.ids + 3, cfg.sessionID, b.ids, ENDPOINT, cfg.participant, true, ArmResult);
    SubmitKeeps(b, cfg, q);
    ReservationExposed(b, cfg, q, envelope);
    assert [Submit(q), Submit(q), ResolveCall(early)][..2] == [Submit(q), Submit(q)];
    PrematurePublishes(b2, cfg, early);
  }
}
