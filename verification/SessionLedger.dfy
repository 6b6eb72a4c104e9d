/** What the in-memory session keeps beside its runs: the log of everything published, the
    bounded journal, the subscriber streams, the steer answers and the state it reports.
    Each part is a predicate over values, with the lemma that one publication keeps it. */
module SessionLedger {
  import opened Basics
  import opened RunEvents
  import opened MemoryRun

  // ------------------------------------------------------------ the runs

  ghost predicate RunsSound(runs: map<nat, Run>, traces: map<nat, seq<Event>>, ids: nat) {
    runs.Keys == traces.Keys && forall id | id in runs :: 0 < id < ids && RunSound(id, runs[id], traces[id])
  }

  lemma {:induction false} RunsSnoc(runs: map<nat, Run>, traces: map<nat, seq<Event>>, ids: nat, e: Event)
    requires RunsSound(runs, traces, ids) && e.run in runs
    requires e.id != 0 && e.sequence == runs[e.run].nextSequence
    requires Next(FocusOf(runs[e.run], traces[e.run]), e.kind).Some?
    requires e.kind.RunStarted? ==> runs[e.run].started
    ensures RunsSound(runs[e.run := RunAfter(runs[e.run], e.kind, e.id)], traces[e.run := traces[e.run] + [e]], ids + 1)
  {
    hide RunSound, Next, FocusOf, Agrees;
    assert RunSound(e.run, runs[e.run], traces[e.run]);
    SoundAfter(e.run, runs[e.run], traces[e.run], e);
  }

  // ------------------------------------------------------------ the log and the journal

  /** The events of one run, in log order. */
  function OfRun(log: seq<Event>, id: nat): seq<Event> {
    if log == [] then []
    else
      var front := OfRun(log[..|log| - 1], id);
      if log[|log| - 1].run == id then front + [log[|log| - 1]] else front
  }

  /** The runs that started, in the order they started. */
  function StartsOf(log: seq<Event>): seq<nat> {
    if log == [] then []
    else
      var front := StartsOf(log[..|log| - 1]);
      if log[|log| - 1].kind.RunStarted? then front + [log[|log| - 1].run] else front
  }

  predicate Increasing(s: seq<nat>) {
    forall i, j | 0 <= i < j < |s| :: s[i] < s[j]
  }

  ghost predicate LogSound(log: seq<Event>, traces: map<nat, seq<Event>>) {
    && (forall id | id in traces :: OfRun(log, id) == traces[id])
    && (forall e | e in log :: e.run in traces)
    && Increasing(StartsOf(log))
  }

  /** The last entries a bounded journal keeps. */
  function Tail(log: seq<Event>, capacity: nat): seq<Event> {
    if |log| > capacity then log[|log| - capacity..] else log
  }

  lemma {:induction false} SnocLog(log: seq<Event>, e: Event, id: nat)
    ensures OfRun(log + [e], id) == if e.run == id then OfRun(log, id) + [e] else OfRun(log, id)
    ensures StartsOf(log + [e]) == if e.kind.RunStarted? then StartsOf(log) + [e.run] else StartsOf(log)
  {
    assert (log + [e])[..|log|] == log;
  }

  lemma {:induction false} LogSnoc(log: seq<Event>, traces: map<nat, seq<Event>>, e: Event)
    requires LogSound(log, traces) && e.run in traces
    requires e.kind.RunStarted? ==> forall s | s in StartsOf(log) :: s < e.run
    ensures LogSound(log + [e], traces[e.run := traces[e.run] + [e]])
  {
    hide OfRun, StartsOf, Increasing;
    var traces' := traces[e.run := traces[e.run] + [e]];
    forall id | id in traces'
      ensures OfRun(log + [e], id) == traces'[id]
    {
      SnocLog(log, e, id);
    }
    SnocLog(log, e, e.run);
    if e.kind.RunStarted? {
      IncreasingSnoc(StartsOf(log), e.run);
    }
  }

  lemma {:induction false} IncreasingSnoc(s: seq<nat>, x: nat)
    requires Increasing(s) && forall y | y in s :: y < x
    ensures Increasing(s + [x])
  {
    assert forall i | 0 <= i < |s| :: s[i] in s;
  }

  lemma {:induction false} LogAdmits(log: seq<Event>, traces: map<nat, seq<Event>>, id: nat)
    requires LogSound(log, traces) && id !in traces
    ensures LogSound(log, traces[id := []])
  {
    NoneOfRun(log, id);
  }

  lemma {:induction false} NoneOfRun(log: seq<Event>, id: nat)
    requires forall e | e in log :: e.run != id
    ensures OfRun(log, id) == []
    decreases |log|
  {
    if log != [] {
      NoneOfRun(log[..|log| - 1], id);
    }
  }

  lemma {:induction false} TailSnoc(log: seq<Event>, e: Event, capacity: nat)
    requires capacity > 0
    ensures Tail(Tail(log, capacity) + [e], capacity) == Tail(log + [e], capacity)
  {
  }

  /** A sequence ends in another. */
  predicate EndsIn(all: seq<Event>, tail: seq<Event>) {
    |tail| <= |all| && tail == all[|all| - |tail|..]
  }

  /** The journal holds a suffix of every run's events. */
  lemma {:induction false} TailOfRun(log: seq<Event>, k: nat, id: nat)
    requires k <= |log|
    ensures EndsIn(OfRun(log, id), OfRun(log[k..], id))
    decreases |log|
  {
    if k < |log| {
      hide OfRun, EndsIn;
      var front, e := log[..|log| - 1], log[|log| - 1];
      TailOfRun(front, k, id);
      RestSnoc(log, k);
      SnocLog(front, e, id);
      SnocLog(front[k..], e, id);
      EndsInSnoc(OfRun(front, id), OfRun(front[k..], id), e);
    } else {
      assert log[k..] == [];
    }
  }

  lemma {:induction false} RestSnoc(log: seq<Event>, k: nat)
    requires k < |log|
    ensures var front, e := log[..|log| - 1], log[|log| - 1];
      log == front + [e] && log[k..] == front[k..] + [e]
  {
  }

  lemma {:induction false} EndsInSnoc(all: seq<Event>, tail: seq<Event>, e: Event)
    requires EndsIn(all, tail)
    ensures EndsIn(all + [e], tail + [e])
  {
  }

  // ------------------------------------------------------------ streams

  /** A subscriber channel: what it has carried, and whether it was closed. */
  datatype Stream = Stream(run: nat, after: nat, carried: seq<Event>, ended: bool)

  /** A stream carries exactly its run's events past its cursor, and ends with the run. */
  ghost predicate StreamSound(k: nat, s: Stream, run: Run, trace: seq<Event>) {
    && s.after <= |trace| && s.carried == trace[s.after..]
    && s.ended == run.terminal && (!s.ended <==> k in run.subscribers)
  }

  predicate Unique(s: seq<nat>) {
    forall i, j | 0 <= i < j < |s| :: s[i] != s[j]
  }

  ghost predicate StreamsSound(streams: map<nat, Stream>, runs: map<nat, Run>, traces: map<nat, seq<Event>>) {
    && runs.Keys == traces.Keys
    && (forall k | k in streams ::
          streams[k].run in runs && StreamSound(k, streams[k], runs[streams[k].run], traces[streams[k].run]))
    && (forall id, k | id in runs && k in runs[id].subscribers :: k in streams && streams[k].run == id)
    && (forall id | id in runs :: Unique(runs[id].subscribers))
  }

  function Sent(s: Stream, e: Event): Stream {
    s.(carried := s.carried + [e], ended := Terminal(e.kind))
  }

  function Delivered(streams: map<nat, Stream>, subscribers: seq<nat>, e: Event): map<nat, Stream> {
    map k | k in streams :: if k in subscribers then Sent(streams[k], e) else streams[k]
  }

  lemma {:induction false} StreamSnoc(k: nat, s: Stream, run: Run, trace: seq<Event>, e: Event)
    requires StreamSound(k, s, run, trace) && !run.terminal
    ensures StreamSound(k, Sent(s, e), RunAfter(run, e.kind, e.id), trace + [e])
  {
    assert (trace + [e])[s.after..] == trace[s.after..] + [e];
  }

  lemma {:induction false} StreamsUpdate(
    streams: map<nat, Stream>, streams': map<nat, Stream>, runs: map<nat, Run>, traces: map<nat, seq<Event>>,
    id: nat, run': Run, trace': seq<Event>)
    requires StreamsSound(streams, runs, traces) && streams'.Keys == streams.Keys && id in runs
    requires forall k | k in streams :: streams'[k].run == streams[k].run
    requires forall k | k in streams && streams[k].run != id :: streams'[k] == streams[k]
    requires forall k | k in streams && streams[k].run == id :: StreamSound(k, streams'[k], run', trace')
    requires Unique(run'.subscribers) && forall k | k in run'.subscribers :: k in runs[id].subscribers
    ensures StreamsSound(streams', runs[id := run'], traces[id := trace'])
  {
    hide StreamSound, Unique;
    var runs', traces' := runs[id := run'], traces[id := trace'];
    forall k | k in streams'
      ensures streams'[k].run in runs' && StreamSound(k, streams'[k], runs'[streams'[k].run], traces'[streams'[k].run])
    {
      if streams[k].run != id {
        assert streams'[k] == streams[k];
      }
    }
  }

  lemma {:induction false} StreamsSnoc(streams: map<nat, Stream>, runs: map<nat, Run>, traces: map<nat, seq<Event>>, e: Event)
    requires StreamsSound(streams, runs, traces) && e.run in runs && !runs[e.run].terminal
    ensures StreamsSound(Delivered(streams, runs[e.run].subscribers, e),
                         runs[e.run := RunAfter(runs[e.run], e.kind, e.id)],
                         traces[e.run := traces[e.run] + [e]])
  {
    var run := runs[e.run];
    var run', trace' := RunAfter(run, e.kind, e.id), traces[e.run] + [e];
    var streams' := Delivered(streams, run.subscribers, e);
    forall k | k in streams && streams[k].run == e.run
      ensures StreamSound(k, streams'[k], run', trace')
    {
      StreamSnoc(k, streams[k], run, traces[e.run], e);
    }
    StreamsUpdate(streams, streams', runs, traces, e.run, run', trace');
  }

  // ------------------------------------------------------------ steers

  /** What a steer was answered with. */
  datatype Answer = Answer(run: nat, sequence: nat)

  ghost predicate SteersOf(id: nat, run: Run, trace: seq<Event>, answers: map<nat, Answer>, settled: map<nat, nat>) {
    && (forall x | x in run.steers :: x.submission in answers && answers[x.submission].run == id)
    && (forall i | 0 <= i < |trace| && SettledBy(trace[i].kind) != 0 ::
          var s := SettledBy(trace[i].kind);
          s in settled && s in answers && answers[s].run == id && settled[s] == i + 1)
  }

  /** An answered steer is either still pending on its run, or settled there at one sequence
      above the one it was answered with. */
  ghost predicate AnswerSound(s: nat, a: Answer, run: Run, trace: seq<Event>, settled: map<nat, nat>) {
    && a.sequence <= |trace|
    && (s in settled <==> !Holds(run.steers, s))
    && (s in settled ==> a.sequence < settled[s] <= |trace| && SettledBy(trace[settled[s] - 1].kind) == s)
  }

  ghost predicate AnswersSound(
    answers: map<nat, Answer>, settled: map<nat, nat>,
    runs: map<nat, Run>, traces: map<nat, seq<Event>>, ids: nat)
  {
    && settled.Keys <= answers.Keys
    && (forall s | s in answers ::
          && 0 < s < ids && answers[s].run in runs && answers[s].run in traces
          && AnswerSound(s, answers[s], runs[answers[s].run], traces[answers[s].run], settled))
  }

  ghost predicate SettlesSound(
    answers: map<nat, Answer>, settled: map<nat, nat>, runs: map<nat, Run>, traces: map<nat, seq<Event>>)
  {
    forall id | id in runs :: id in traces && SteersOf(id, runs[id], traces[id], answers, settled)
  }

  ghost predicate SteersSound(
    answers: map<nat, Answer>, settled: map<nat, nat>,
    runs: map<nat, Run>, traces: map<nat, seq<Event>>, ids: nat)
  {
    AnswersSound(answers, settled, runs, traces, ids) && SettlesSound(answers, settled, runs, traces)
  }

  function SettledAfter(settled: map<nat, nat>, e: Event): map<nat, nat> {
    if SettledBy(e.kind) != 0 then settled[SettledBy(e.kind) := e.sequence] else settled
  }

  lemma {:induction false} AnswerSnoc(s: nat, a: Answer, run: Run, trace: seq<Event>, settled: map<nat, nat>, e: Event)
    requires s != 0 && AnswerSound(s, a, run, trace, settled) && e.sequence == |trace| + 1
    ensures AnswerSound(s, a, RunAfter(run, e.kind, e.id), trace + [e], SettledAfter(settled, e))
  {
    WithoutHolds(run.steers, SettledBy(e.kind), s);
  }

  lemma {:induction false} SteersOfSnoc(id: nat, run: Run, trace: seq<Event>, answers: map<nat, Answer>, settled: map<nat, nat>, e: Event)
    requires SteersOf(id, run, trace, answers, settled) && e.sequence == |trace| + 1
    requires SettledBy(e.kind) != 0 ==> SettledBy(e.kind) in answers && SettledBy(e.kind) !in settled && answers[SettledBy(e.kind)].run == id
    ensures SteersOf(id, RunAfter(run, e.kind, e.id), trace + [e], answers, SettledAfter(settled, e))
  {
    var run', settled' := RunAfter(run, e.kind, e.id), SettledAfter(settled, e);
    forall x | x in run'.steers
      ensures x in run.steers
    {
      WithoutKeeps(run.steers, SettledBy(e.kind));
    }
    assert forall i | 0 <= i < |trace| :: (trace + [e])[i] == trace[i];
  }

  lemma {:induction false} SteersOfFrame(
    id: nat, run: Run, trace: seq<Event>, answers: map<nat, Answer>, settled: map<nat, nat>, settled': map<nat, nat>)
    requires SteersOf(id, run, trace, answers, settled)
    requires forall s | s in answers && answers[s].run == id && s in settled :: s in settled' && settled'[s] == settled[s]
    ensures SteersOf(id, run, trace, answers, settled')
  {
  }

  lemma {:induction false} AnswerFrame(s: nat, a: Answer, run: Run, trace: seq<Event>, settled: map<nat, nat>, settled': map<nat, nat>)
    requires AnswerSound(s, a, run, trace, settled)
    requires (s in settled' <==> s in settled) && (s in settled ==> settled'[s] == settled[s])
    ensures AnswerSound(s, a, run, trace, settled')
  {
  }

  /** One run's part of the steer bookkeeping may change on its own. */
  lemma {:induction false} AnswersUpdate(
    answers: map<nat, Answer>, settled: map<nat, nat>, settled': map<nat, nat>,
    runs: map<nat, Run>, traces: map<nat, seq<Event>>, ids: nat, ids': nat, id: nat, run': Run, trace': seq<Event>)
    requires AnswersSound(answers, settled, runs, traces, ids) && ids <= ids' && settled'.Keys <= answers.Keys
    requires forall s | s in answers && answers[s].run != id ::
      (s in settled' <==> s in settled) && (s in settled ==> settled'[s] == settled[s])
    requires forall s | s in answers && answers[s].run == id :: AnswerSound(s, answers[s], run', trace', settled')
    ensures AnswersSound(answers, settled', runs[id := run'], traces[id := trace'], ids')
  {
    var runs', traces' := runs[id := run'], traces[id := trace'];
    forall s | s in answers
      ensures AnswerSound(s, answers[s], runs'[answers[s].run], traces'[answers[s].run], settled')
    {
      if answers[s].run != id {
        AnswerFrame(s, answers[s], runs[answers[s].run], traces[answers[s].run], settled, settled');
      }
    }
  }

  lemma {:induction false} SettlesUpdate(
    answers: map<nat, Answer>, settled: map<nat, nat>, settled': map<nat, nat>,
    runs: map<nat, Run>, traces: map<nat, seq<Event>>, id: nat, run': Run, trace': seq<Event>)
    requires SettlesSound(answers, settled, runs, traces)
    requires forall s | s in answers && answers[s].run != id && s in settled :: s in settled' && settled'[s] == settled[s]
    requires SteersOf(id, run', trace', answers, settled')
    ensures SettlesSound(answers, settled', runs[id := run'], traces[id := trace'])
  {
    forall other | other in runs && other != id
      ensures SteersOf(other, runs[other], traces[other], answers, settled')
    {
      SteersOfFrame(other, runs[other], traces[other], answers, settled, settled');
    }
  }

  lemma {:induction false} SteersSnoc(
    answers: map<nat, Answer>, settled: map<nat, nat>,
    runs: map<nat, Run>, traces: map<nat, seq<Event>>, ids: nat, e: Event)
    requires SteersSound(answers, settled, runs, traces, ids) && e.run in runs
    requires e.sequence == |traces[e.run]| + 1
    requires SettledBy(e.kind) != 0 ==> Holds(runs[e.run].steers, SettledBy(e.kind))
    ensures SteersSound(answers, SettledAfter(settled, e),
                        runs[e.run := RunAfter(runs[e.run], e.kind, e.id)],
                        traces[e.run := traces[e.run] + [e]], ids + 1)
  {
    var n, run, trace := SettledBy(e.kind), runs[e.run], traces[e.run];
    var run', trace', settled' := RunAfter(run, e.kind, e.id), trace + [e], SettledAfter(settled, e);
    if n != 0 {
      PendingAnswered(e.run, run, trace, answers, settled, n);
      assert AnswerSound(n, answers[n], run, trace, settled);
    }
    SteersOfSnoc(e.run, run, trace, answers, settled, e);
    forall s | s in answers && answers[s].run == e.run
      ensures AnswerSound(s, answers[s], run', trace', settled')
    {
      AnswerSnoc(s, answers[s], run, trace, settled, e);
    }
    AnswersUpdate(answers, settled, settled', runs, traces, ids, ids + 1, e.run, run', trace');
    SettlesUpdate(answers, settled, settled', runs, traces, e.run, run', trace');
  }

  lemma {:induction false} PendingAnswered(id: nat, run: Run, trace: seq<Event>, answers: map<nat, Answer>, settled: map<nat, nat>, n: nat)
    requires SteersOf(id, run, trace, answers, settled) && Holds(run.steers, n)
    ensures n in answers && answers[n].run == id
  {
    HoldsMember(run.steers, n);
  }

  // ------------------------------------------------------------ the slots and the reported state

  /** At most one run holds the started slot and at most one waits behind it; every run that
      has not settled holds one of the two. */
  ghost predicate SlotsSound(active: Option<nat>, reserved: Option<nat>, runs: map<nat, Run>) {
    && (active.Some? ==> active.value in runs && !runs[active.value].terminal)
    && (reserved.Some? ==>
          && reserved.value in runs && !runs[reserved.value].terminal && !runs[reserved.value].started
          && active.Some? && active.value < reserved.value)
    && (forall id | id in runs && !runs[id].terminal :: active == Some(id) || reserved == Some(id))
  }

  /** No waiting run is older than a run that started. */
  ghost predicate OrderSound(runs: map<nat, Run>, log: seq<Event>) {
    forall id, s | id in runs && !runs[id].terminal && !runs[id].started && s in StartsOf(log) :: s < id
  }

  /** The slots after a publication: a settled run leaves its slot, and the waiting run moves
      into the started slot left empty. */
  function SlotsAfter(active: Option<nat>, reserved: Option<nat>, id: nat, k: Kind): (Option<nat>, Option<nat>) {
    if !Terminal(k) then (active, reserved)
    else
      var a := if active == Some(id) then None else active;
      var r := if reserved == Some(id) then None else reserved;
      if a.None? && r.Some? then (r, None) else (a, r)
  }

  lemma {:induction false} SlotsSnoc(active: Option<nat>, reserved: Option<nat>, runs: map<nat, Run>, e: Event)
    requires SlotsSound(active, reserved, runs) && e.run in runs && !runs[e.run].terminal
    ensures var (a, r) := SlotsAfter(active, reserved, e.run, e.kind);
      SlotsSound(a, r, runs[e.run := RunAfter(runs[e.run], e.kind, e.id)])
  {
    if Terminal(e.kind) {
      SlotsSettle(active, reserved, runs, e.run, RunAfter(runs[e.run], e.kind, e.id), e.kind);
    }
  }

  lemma {:induction false} SlotsSettle(active: Option<nat>, reserved: Option<nat>, runs: map<nat, Run>, id: nat, run': Run, k: Kind)
    requires SlotsSound(active, reserved, runs) && id in runs && !runs[id].terminal && run'.terminal && Terminal(k)
    ensures var (a, r) := SlotsAfter(active, reserved, id, k); SlotsSound(a, r, runs[id := run'])
  {
  }

  lemma {:induction false} OrderSnoc(active: Option<nat>, reserved: Option<nat>, runs: map<nat, Run>, log: seq<Event>, e: Event)
    requires SlotsSound(active, reserved, runs) && OrderSound(runs, log) && e.run in runs && !runs[e.run].terminal
    requires e.kind.RunStarted? ==> runs[e.run].started
    ensures OrderSound(runs[e.run := RunAfter(runs[e.run], e.kind, e.id)], log + [e])
  {
    SnocLog(log, e, e.run);
  }

  datatype SessionStatus = Idle | SessionQueued | SessionRunning | SessionWaiting | SessionEnded

  datatype Entry = Entry(
    runID: nat, status: Status, asOf: int, position: nat, pending: nat, acknowledged: bool,
    steers: seq<Steer>, admitted: seq<nat>)

  datatype SettledRun = SettledRun(run: nat, sequence: nat)

  datatype SessionState = SessionState(
    status: SessionStatus, activeRun: nat, entries: seq<Entry>, settled: seq<SettledRun>)

  predicate ReservationOf(run: Run) {
    run.queuedAdmission && !run.started
  }

  function EntryOf(id: nat, run: Run, position: nat): Entry {
    Entry(id, if ReservationOf(run) then Queued else run.status, run.nextSequence - 1, position, run.pending,
          run.acknowledged && run.pending != 0 && run.pending == run.callID, run.steers, run.admittedSteers)
  }

  predicate Listed(slot: Option<nat>, runs: map<nat, Run>) {
    slot.Some? && slot.value in runs && !runs[slot.value].terminal && runs[slot.value].answered
  }

  /** The state the session reports, from its two slots. */
  function Snapshot(active: Option<nat>, reserved: Option<nat>, runs: map<nat, Run>, settled: seq<SettledRun>): SessionState {
    var slots := (if Listed(active, runs) then [active.value] else []) + (if Listed(reserved, runs) then [reserved.value] else []);
    var entries := EntriesOf(slots, runs, 0);
    var running := if Listed(reserved, runs) && !ReservationOf(runs[reserved.value]) then reserved.value
                   else if Listed(active, runs) && !ReservationOf(runs[active.value]) then active.value else 0;
    var status := if running != 0 && running in runs then
                    if runs[running].status.WaitingForInput? || runs[running].pending != 0 then SessionWaiting else SessionRunning
                  else if entries != [] then SessionQueued else Idle;
    SessionState(status, running, entries, settled)
  }

  function EntriesOf(slots: seq<nat>, runs: map<nat, Run>, position: nat): (entries: seq<Entry>)
    requires forall id | id in slots :: id in runs
    ensures |entries| == |slots|
    ensures forall i | 0 <= i < |slots| :: entries[i].runID == slots[i]
  {
    if slots == [] then []
    else
      var run := runs[slots[0]];
      var at := if ReservationOf(run) then position + 1 else 0;
      [EntryOf(slots[0], run, at)] + EntriesOf(slots[1..], runs, if ReservationOf(run) then position + 1 else position)
  }

  /** The reported entries are the runs that have not settled, in admission order. */
  lemma {:induction false} SnapshotLists(active: Option<nat>, reserved: Option<nat>, runs: map<nat, Run>, settled: seq<SettledRun>)
    requires SlotsSound(active, reserved, runs)
    requires forall id | id in runs :: runs[id].answered
    ensures var entries := Snapshot(active, reserved, runs, settled).entries;
      && (forall id :: id in runs && !runs[id].terminal <==> exists i :: 0 <= i < |entries| && entries[i].runID == id)
      && (forall i, j | 0 <= i < j < |entries| :: entries[i].runID < entries[j].runID)
  {
    var entries := Snapshot(active, reserved, runs, settled).entries;
    if active.Some? {
      assert entries[0].runID == active.value;
    }
    if reserved.Some? {
      assert entries[1].runID == reserved.value;
    }
  }
}
