/** The in-memory session as the object it is: fields its operations update in place, each
    method proved to take the session's book where the operation's function says. */
module MemorySession {
  import opened Basics
  import opened RunEvents
  import opened CompactionChecker
  import opened MemoryRun
  import opened SessionLedger
  import opened MemoryBook
  import opened MemoryOps
  import opened MemoryCalls
  import opened MemoryGates
  import opened MemoryHistory

  /** A run's streams are distinct, known and open. */
  ghost predicate Fed(id: nat, run: Run, streams: map<nat, Stream>) {
    && Unique(run.subscribers)
    && forall k | k in run.subscribers :: k in streams && streams[k].run == id && !streams[k].ended
  }

  ghost predicate AllFed(runs: map<nat, Run>, streams: map<nat, Stream>) {
    forall id | id in runs :: Fed(id, runs[id], streams)
  }

  /** The interaction a run waits on after an event, and the event that settled its provided call. */
  method Pended(run: Run, k: Kind, eventID: nat) returns (pending: nat, settlement: nat)
    ensures pending == PendingAfter(run, k) && settlement == SettlementAfter(run, k, eventID)
  {
    pending, settlement := run.pending, run.settlementID;
    if k.PermissionRequested? {
      pending := run.permissionID;
    } else if k.InputRequested? {
      pending := run.inputID;
    } else if k.PermissionResolved? || k.InputResolved? {
      pending := 0;
    } else if k.CallRequested? {
      if run.callID != 0 {
        pending := run.callID;
      }
    } else if EndsCall(k) && run.callID != 0 && run.pending == run.callID {
      pending, settlement := 0, eventID;
    }
    if Terminal(k) {
      pending := 0;
    }
  }

  method Ended(run: Run, k: Kind) returns (status: Status)
    ensures status == StatusAfter(run, k)
  {
    status := run.status;
    match k
    case RunCompleted(_) => status := Completed;
    case RunFailed => status := Failed;
    case RunCancelled => status := Status.Cancelled;
    case _ =>
  }

  /** The fields of a run that publishing an event sets. */
  method Recorded(before: Run, k: Kind, eventID: nat) returns (run: Run)
    ensures run == RunAfter(before, k, eventID)
  {
    hide PendingAfter, SettlementAfter, Without, StatusAfter, SettledBy, Terminal;
    var pending, settlement := Pended(before, k, eventID);
    var terminal, status, subscribers, steers := before.terminal, before.status, before.subscribers, before.steers;
    if Terminal(k) {
      terminal, subscribers := true, [];
    }
    status := Ended(before, k);
    if SettledBy(k) != 0 {
      steers := Remaining(steers, SettledBy(k));
    }
    run := before.(nextSequence := before.nextSequence + 1, pending := pending, settlementID := settlement,
                   terminal := terminal, status := status, steers := steers, subscribers := subscribers);
  }

  method Remaining(steers: seq<Steer>, submission: nat) returns (remaining: seq<Steer>)
    ensures remaining == Without(steers, submission)
  {
    remaining := [];
    for i := 0 to |steers|
      invariant remaining + Without(steers[i..], submission) == Without(steers, submission)
    {
      assert steers[i..][1..] == steers[i + 1..];
      if steers[i].submission != submission {
        remaining := remaining + [steers[i]];
      }
    }
  }

  class Session {
    const cfg: Config
    var closed: bool
    var active: Option<nat>
    var reserved: Option<nat>
    var runs: map<nat, Run>
    var journal: seq<Event>
    var settledRuns: seq<SettledRun>
    var threshold: nat
    var history: nat
    var state: SessionState
    var streams: map<nat, Stream>
    var feeds: nat
    var ids: nat

    /** Everything ever published, by order and by run; each steer's answer and settlement. */
    ghost var log: seq<Event>
    ghost var traces: map<nat, seq<Event>>
    ghost var answers: map<nat, Answer>
    ghost var settled: map<nat, nat>

    ghost function View(): Book
      reads this
    {
      Book(closed, active, reserved, runs, settledRuns, threshold, history, streams, feeds, ids, log, traces, answers, settled)
    }

    /** The journal holds the last events published. */
    ghost predicate Kept()
      reads this
    {
      && cfg.capacity > 0 && journal == Tail(log, cfg.capacity) && runs.Keys == traces.Keys
      && AllFed(runs, streams)
    }

    ghost predicate Refreshed()
      reads this
    {
      state == Snapshot(active, reserved, runs, settledRuns)
    }

    ghost predicate Valid()
      reads this
    {
      Inv(View()) && Kept() && (closed || Refreshed())
    }

    constructor (cfg: Config, threshold: nat)
      requires cfg.capacity > 0
      ensures this.cfg == cfg && View() == Empty(threshold) && Valid()
    {
      this.cfg, closed, active, reserved, runs, journal := cfg, false, None, None, map[], [];
      settledRuns, this.threshold, history, streams, feeds, ids := [], threshold, 0, map[], 0, 1;
      state := SessionState(Idle, 0, [], []);
      log, traces, answers, settled := [], map[], map[], map[];
      new;
      EmptyInv(threshold);
    }

    // ---------------------------------------------------------- publishing

    /** The entries of the two slots, and the run that holds the session. */
    method ListSlots() returns (entries: seq<Entry>, running: nat)
      ensures var s := Snapshot(active, reserved, runs, settledRuns); entries == s.entries && running == s.activeRun
    {
      var slots := [active, reserved];
      var position := 0;
      entries, running := [], 0;
      ghost var listed := (if Listed(active, runs) then [active.value] else []) + (if Listed(reserved, runs) then [reserved.value] else []);
      ghost var first := if Listed(active, runs) then 1 else 0;
      for i := 0 to 2
        invariant i == 0 ==> entries == [] && position == 0 && running == 0
        invariant i == 1 ==> entries + EntriesOf(listed[first..], runs, position) == EntriesOf(listed, runs, 0)
        invariant i == 1 ==> running == if Listed(active, runs) && !ReservationOf(runs[active.value]) then active.value else 0
        invariant i == 2 ==> entries == EntriesOf(listed, runs, 0)
        invariant i == 2 ==> running == Snapshot(active, reserved, runs, settledRuns).activeRun
      {
        if Listed(slots[i], runs) {
          var id := slots[i].value;
          if ReservationOf(runs[id]) {
            position := position + 1;
            entries := entries + [EntryOf(id, runs[id], position)];
          } else {
            entries := entries + [EntryOf(id, runs[id], 0)];
            running := id;
          }
        }
        assert listed[0..] == listed;
        assert Listed(active, runs) ==> listed[0] == active.value;
        assert Listed(reserved, runs) ==> listed[first..] == [reserved.value] && listed[first..][1..] == [];
        assert !Listed(reserved, runs) ==> listed[first..] == [];
      }
    }

    /** The reported state, rebuilt from the two slots. */
    method Refresh()
      modifies this`state
      ensures Refreshed()
    {
      hide EntriesOf, Listed;
      var entries, running := ListSlots();
      var status := Idle;
      if running != 0 && running in runs {
        status := SessionRunning;
        if runs[running].status.WaitingForInput? || runs[running].pending != 0 {
          status := SessionWaiting;
        }
      } else if entries != [] {
        status := SessionQueued;
      }
      state := SessionState(status, running, entries, settledRuns);
    }

    /** The event sent on every stream, and the streams closed behind a terminal event. */
    method Deliver(subscribers: seq<nat>, e: Event)
      requires Unique(subscribers) && forall k | k in subscribers :: k in streams && !streams[k].ended
      modifies this`streams
      ensures streams == Delivered(old(streams), subscribers, e)
    {
      ghost var before := streams;
      for i := 0 to |subscribers|
        invariant streams.Keys == before.Keys
        invariant forall k | k in before ::
          streams[k] == if k in subscribers[..i] then before[k].(carried := before[k].carried + [e]) else before[k]
      {
        var k := subscribers[i];
        assert k in subscribers;
        assert k !in subscribers[..i];
        streams := streams[k := streams[k].(carried := streams[k].carried + [e])];
        assert subscribers[..i + 1] == subscribers[..i] + [k];
      }
      assert subscribers[..|subscribers|] == subscribers;
      if Terminal(e.kind) {
        for i := 0 to |subscribers|
          invariant streams.Keys == before.Keys
          invariant forall k | k in before ::
            streams[k] == if k in subscribers[..i] then Sent(before[k], e)
                          else if k in subscribers then before[k].(carried := before[k].carried + [e]) else before[k]
        {
          var k := subscribers[i];
          assert k in subscribers;
          streams := streams[k := streams[k].(ended := true)];
          assert subscribers[..i + 1] == subscribers[..i] + [k];
        }
      }
      assert streams.Keys == Delivered(before, subscribers, e).Keys;
    }

    /** A settled run leaves its slot, and the run behind it moves into the slot left empty. */
    method Vacate(id: nat, k: Kind, sequence: nat) returns (promoted: Option<nat>)
      requires reserved.Some? ==> reserved.value in runs && !runs[reserved.value].terminal
      modifies this`active, this`reserved, this`settledRuns
      ensures (active, reserved) == SlotsAfter(old(active), old(reserved), id, k)
      ensures promoted == Promotes(old(active), old(reserved), id, k)
      ensures settledRuns == if Terminal(k) then old(settledRuns) + [SettledRun(id, sequence)] else old(settledRuns)
    {
      promoted := None;
      if Terminal(k) {
        if active == Some(id) {
          active := None;
        }
        if reserved == Some(id) {
          reserved := None;
        }
        if active.None? && reserved.Some? && !runs[reserved.value].terminal {
          promoted, reserved := reserved, None;
          active := promoted;
        }
        settledRuns := settledRuns + [SettledRun(id, sequence)];
      }
    }

    /** The journal grows by one event and forgets its oldest past its capacity. */
    method Retain(e: Event)
      requires cfg.capacity > 0 && journal == Tail(log, cfg.capacity) && e.run in traces
      modifies this`journal, this`log, this`traces, this`settled
      ensures log == old(log) + [e] && journal == Tail(log, cfg.capacity)
      ensures traces == old(traces)[e.run := old(traces)[e.run] + [e]] && settled == SettledAfter(old(settled), e)
    {
      TailSnoc(log, e, cfg.capacity);
      journal := journal + [e];
      if |journal| > cfg.capacity {
        journal := journal[|journal| - cfg.capacity..];
      }
      log, traces, settled := log + [e], traces[e.run := traces[e.run] + [e]], SettledAfter(settled, e);
    }

    /** The event recorded everywhere but in the reported state and on the streams. */
    method Record(id: nat, k: Kind) returns (e: Event, promoted: Option<nat>)
      requires cfg.capacity > 0 && journal == Tail(log, cfg.capacity) && id in runs && id in traces
      requires reserved.Some? ==> reserved.value in runs && !runs[reserved.value].terminal
      modifies this`active, this`reserved, this`settledRuns, this`runs, this`ids, this`journal, this`log, this`traces, this`settled
      ensures e == Event(old(ids), id, old(runs)[id].nextSequence, k) && ids == old(ids) + 1
      ensures runs == old(runs)[id := RunAfter(old(runs)[id], k, e.id)]
      ensures (active, reserved) == SlotsAfter(old(active), old(reserved), id, k)
      ensures settledRuns == if Terminal(k) then old(settledRuns) + [SettledRun(id, e.sequence)] else old(settledRuns)
      ensures log == old(log) + [e] && journal == Tail(log, cfg.capacity)
      ensures traces == old(traces)[id := old(traces)[id] + [e]] && settled == SettledAfter(old(settled), e)
      ensures promoted == Promotes(old(active), old(reserved), id, k)
    {
      hide RunAfter, Tail, Snapshot, SettledAfter, Fed, SlotsAfter, Promotes, Terminal, Delivered;
      e := Event(ids, id, runs[id].nextSequence, k);
      var after := Recorded(runs[id], k, e.id);
      Retain(e);
      promoted := Vacate(id, k, e.sequence);
      ids, runs := ids + 1, runs[id := after];
    }

    method Enter(id: nat, k: Kind) returns (e: Event, promoted: Option<nat>)
      requires cfg.capacity > 0 && journal == Tail(log, cfg.capacity) && id in runs && id in traces
      requires reserved.Some? ==> reserved.value in runs && !runs[reserved.value].terminal
      modifies this`active, this`reserved, this`settledRuns, this`runs, this`ids, this`journal, this`log, this`traces, this`settled
      ensures e == EventOf(old(View()), id, k) && promoted == Promoted(old(View()), id, k)
      ensures View() == Unsent(old(View()), id, k) && journal == Tail(log, cfg.capacity)
    {
      hide RunAfter, Tail, SettledAfter, SlotsAfter, Promotes, Terminal, Unsent, Published;
      ghost var was := View();
      e, promoted := Record(id, k);
      Assembled(was, View(), id, k);
    }

    /** One event published; the run promoted into the slot it frees, if any. A run that has
        settled publishes nothing more. */
    method Publish(id: nat, k: Kind) returns (won: bool, promoted: Option<nat>)
      requires Kept() && id in runs && id in traces
      requires reserved.Some? ==> reserved.value in runs && !runs[reserved.value].terminal
      modifies this
      ensures won <==> old(runs)[id].terminal
      ensures Kept()
      ensures !won ==> Refreshed() && View() == Published(old(View()), id, k) && promoted == Promoted(old(View()), id, k)
      ensures won ==> View() == old(View()) && state == old(state) && promoted.None?
    {
      hide RunAfter, Tail, Snapshot, Delivered, SettledAfter, AllFed, SlotsAfter, Promoted, Terminal, Unique, Published, Unsent;
      if runs[id].terminal {
        return true, None;
      }
      won := false;
      ghost var was := View();
      var subscribers := runs[id].subscribers;
      var e;
      FedStreams(id, runs, streams);
      e, promoted := Enter(id, k);
      UnsentRuns(was, id, k);
      Refresh();
      Deliver(subscribers, e);
      DeliveredFeeds(was.runs, was.streams, id, e);
      UnsentSent(was, id, k);
    }

    /** The run waiting in the second slot, if any, has not settled and holds no steer. */
    ghost predicate Behind()
      reads this
    {
      reserved.Some? ==> Quiescent(View(), reserved.value)
    }

    method SettleSteers(id: nat)
      requires Kept() && Behind() && Unsettled(View(), id)
      modifies this
      ensures View() == PublishedAll(old(View()), id, Applied(old(View()).runs[id].steers))
      ensures Kept() && Behind() && Passed(old(View()), View(), id)
    {
      hide Published, AllFed, Snapshot, Tail;
      ghost var was := View();
      var steers := runs[id].steers;
      ghost var ks := Applied(steers);
      PassedNone(was, id);
      for i := 0 to |steers|
        invariant Kept() && Behind() && Passed(was, View(), id)
        invariant View() == PublishedAll(was, id, ks[..i])
      {
        PassedUnsettled(was, View(), id);
        Passing(View(), id, ks[i]);
        PassedThen(was, View(), Published(View(), id, ks[i]), id);
        assert ks[..i + 1][..i] == ks[..i];
        var _, _ := Publish(id, SteerApplied(steers[i].submission));
      }
      assert ks[..|steers|] == ks;
    }

    method DropSteers(id: nat)
      requires Kept() && Behind() && Unsettled(View(), id)
      modifies this
      ensures View() == PublishedAll(old(View()), id, Dropped(old(View()).runs[id].steers))
      ensures Kept() && Behind() && Passed(old(View()), View(), id)
    {
      hide Published, AllFed, Snapshot, Tail;
      ghost var was := View();
      var steers := runs[id].steers;
      ghost var ks := Dropped(steers);
      PassedNone(was, id);
      for i := 0 to |steers|
        invariant Kept() && Behind() && Passed(was, View(), id)
        invariant View() == PublishedAll(was, id, ks[..i])
      {
        PassedUnsettled(was, View(), id);
        Passing(View(), id, ks[i]);
        PassedThen(was, View(), Published(View(), id, ks[i]), id);
        assert ks[..i + 1][..i] == ks[..i];
        var _, _ := Publish(id, SteerDropped(steers[i].submission));
      }
      assert ks[..|steers|] == ks;
    }

    /** An event of a run; a terminal one drops the pending steers first and opens the run it
        promotes, whose own opening can end but finds no run behind it. No terminal event ever
        came before it. */
    method Emit(id: nat, k: Kind) returns (won: bool)
      requires Kept() && Behind() && Unsettled(View(), id)
      modifies this
      ensures !won && Kept() && Refreshed()
      ensures Terminal(k) ==> View() == SettledBook(old(View()), id, k)
      ensures !Terminal(k) ==> View() == Published(old(View()), id, k) && Behind() && Passed(old(View()), View(), id)
      decreases if reserved.Some? then 1 else 0, 0
    {
      hide Published, PublishedAll, Opened, AllFed, Snapshot, Tail, Dropped;
      ghost var was := View();
      if Terminal(k) {
        DropSteers(id);
      }
      ghost var dropped := View();
      if !Terminal(k) {
        Passing(was, id, k);
      } else {
        PassedUnsettled(was, dropped, id);
        Promotion(dropped, id, k);
      }
      var promoted;
      won, promoted := Publish(id, k);
      if promoted.Some? {
        EmitInitial(promoted.value);
      }
    }

    method Begin(id: nat)
      requires Kept() && reserved.None? && Quiescent(View(), id)
      modifies this
      ensures Kept() && View() == Begun(old(View()), id) && reserved.None? && Quiescent(View(), id)
      ensures Static(old(View()).runs[id], View().runs[id])
      decreases if reserved.Some? then 1 else 0, 1
    {
      hide Published, PublishedAll, SettledBook, AllFed, Snapshot, Tail, Passed;
      ghost var was := View();
      runs := runs[id := runs[id].(started := true, status := Running)];
      PutFeeds(was, View(), id);
      ghost var put := View();
      var _ := Emit(id, RunStarted);
      PassedUnsettled(put, View(), id);
    }

    /** The compaction a run opens with, when it was asked for or its history calls for one. */
    method Precompact(id: nat) returns (done: bool)
      requires Kept() && reserved.None? && Quiescent(View(), id)
      modifies this
      ensures Kept()
      ensures !done ==> reserved.None? && Quiescent(View(), id) && Static(old(View()).runs[id], View().runs[id])
      ensures done ==> Refreshed()
      ensures var b, run := old(View()), old(View()).runs[id];
        var b2 := b.(history := b.history + run.input);
        && (done <==> run.compaction && !run.compactContinue)
        && View() == if done then Published(Compacted(b, id, Requested), id, RunCompleted("compacted"))
                     else if run.compaction then Compacted(b, id, Requested)
                     else if AutoReason(b2).Some? then Compacted(b2, id, AutoReason(b2).value) else b2
      decreases if reserved.Some? then 1 else 0, 2
    {
      hide Published, PublishedAll, SettledBook, AllFed, Snapshot, Tail, Compacted;
      done := false;
      if runs[id].compaction {
        done := EmitCompaction(id, Requested);
      } else {
        history := history + runs[id].input;
        var reason: Option<Reason> := None;
        if history >= REFERENCE_WINDOW {
          reason := Some(Overflow);
        } else if history >= threshold {
          reason := Some(Threshold);
        }
        if reason.Some? {
          var _ := EmitCompaction(id, reason.value);
        }
      }
    }

    /** A run opened: run.started, a compaction where one is due, and the first gate. */
    method EmitInitial(id: nat)
      requires Kept() && reserved.None? && Quiescent(View(), id)
      modifies this
      ensures Kept() && Refreshed() && View() == Opened(old(View()), id)
      decreases if reserved.Some? then 1 else 0, 4
    {
      hide Published, PublishedAll, SettledBook, AllFed, Snapshot, Tail, Compacted, Asked, Begun;
      ghost var was := View();
      Begin(id);
      var done := Precompact(id);
      if !done {
        Ask(id);
      }
    }

    /** The opening of a run past its compaction. */
    method Ask(id: nat)
      requires Kept() && reserved.None? && Quiescent(View(), id)
      modifies this
      ensures Kept() && Refreshed() && View() == Asked(old(View()), id)
      decreases if reserved.Some? then 1 else 0, 3
    {
      hide Published, PublishedAll, SettledBook, AllFed, Snapshot, Tail, InputAsked, Passed;
      ghost var was := View();
      var _ := Emit(id, ContentDelta);
      ghost var b1 := View();
      PassedUnsettled(was, b1, id);
      if !runs[id].callsTool {
        RequestInput(id);
        return;
      }
      var _ := Emit(id, CallRequested);
      PassedUnsettled(b1, View(), id);
      if runs[id].callID != 0 {
        return;
      }
      var _ := Emit(id, PermissionRequested);
      PublishedTwo(b1, id, CallRequested, PermissionRequested);
    }

    /** One compaction; a run that does not go on past it settles there. */
    method EmitCompaction(id: nat, reason: Reason) returns (done: bool)
      requires Kept() && reserved.None? && Quiescent(View(), id)
      modifies this
      ensures Kept()
      ensures done <==> reason.Requested? && !old(View()).runs[id].compactContinue
      ensures !done ==> View() == Compacted(old(View()), id, reason)
      ensures !done ==> reserved.None? && Quiescent(View(), id) && Static(old(View()).runs[id], View().runs[id])
      ensures done ==> Refreshed() && View() == Published(Compacted(old(View()), id, reason), id, RunCompleted("compacted"))
      decreases if reserved.Some? then 1 else 0, 1
    {
      hide Published, PublishedAll, SettledBook, AllFed, Snapshot, Tail, Passed;
      var compaction := ids;
      ids := ids + 1;
      ghost var b1 := View();
      var _ := Emit(id, CompactionStarted(compaction, reason));
      PassedUnsettled(b1, View(), id);
      ghost var b2 := View();
      var _ := Emit(id, CompactionEnded(compaction, OutcomeCompleted, false));
      PassedUnsettled(b2, View(), id);
      PublishedTwo(b1, id, CompactionStarted(compaction, reason), CompactionEnded(compaction, OutcomeCompleted, false));
      Remember(id, SummaryTokens(runs[id].focus));
      if !reason.Requested? || runs[id].compactContinue {
        return false;
      }
      SettledAlone(View(), id, RunCompleted("compacted"));
      var _ := Emit(id, RunCompleted("compacted"));
      return true;
    }

    method Remember(id: nat, tokens: nat)
      requires Kept() && Behind() && Unsettled(View(), id)
      modifies this`history
      ensures View() == old(View()).(history := tokens) && Kept() && Behind() && Unsettled(View(), id)
    {
      hide AllFed, Tail;
      history := tokens;
    }

    /** The input asked for, once the pending steers are applied. */
    method RequestInput(id: nat)
      requires Kept() && Behind() && Unsettled(View(), id)
      modifies this
      ensures Kept() && Refreshed() && View() == InputAsked(old(View()), id)
      decreases if reserved.Some? then 1 else 0, 2
    {
      hide Published, PublishedAll, SettledBook, AllFed, Snapshot, Tail, Applied, Passed;
      ghost var was := View();
      SettleSteers(id);
      PassedUnsettled(was, View(), id);
      ghost var b1 := View();
      var _ := Emit(id, InputRequested);
      PassedUnsettled(b1, View(), id);
      Wait(id);
    }

    /** The run's status, set to waiting and announced. */
    method Wait(id: nat)
      requires Kept() && Behind() && Unsettled(View(), id)
      modifies this
      ensures Kept() && Refreshed()
      ensures var b := old(View());
        View() == Published(Put(b, id, b.runs[id].(status := WaitingForInput)), id, StatusUpdated(WaitingForInput))
      decreases if reserved.Some? then 1 else 0, 1
    {
      hide Published, SettledBook, AllFed, Snapshot, Tail, Passed;
      ghost var was := View();
      if !runs[id].terminal {
        runs := runs[id := runs[id].(status := WaitingForInput)];
      }
      PutFeeds(was, View(), id);
      PutBehind(was, View(), id);
      var _ := Emit(id, StatusUpdated(WaitingForInput));
    }

    // ---------------------------------------------------------- admission

    predicate IsLive(slot: Option<nat>)
      reads this
    {
      slot.Some? && slot.value in runs && !runs[slot.value].terminal
    }

    method Submit(q: Submission) returns (a: Admission)
      requires Valid()
      modifies this
      ensures Valid() && View() == SubmitBook(old(View()), cfg, q) && a == SubmitAnswer(old(View()), cfg, q)
    {
      hide Inv, Kept, Refreshed, AdmitBook, SteeredBook, SteerTarget;
      if q.delivery.AsSteer? {
        a := SteerRun(q);
        return;
      }
      if q.controls.None? {
        return Refused(UnsupportedControl);
      }
      if q.sessionID == "" || q.messages == 0 {
        return Refused(InvalidSubmission);
      }
      if q.delivery.OtherDelivery? {
        return Refused(if q.delivery.advertisable then UnsupportedControl else InvalidSubmission);
      }
      if closed {
        return Refused(SessionClosed);
      }
      if q.sessionID != cfg.sessionID {
        return Refused(RunNotFound);
      }
      if IsLive(active) && IsLive(reserved) {
        return Refused(RunActive);
      }
      var stage, call := StagePermission, 0;
      if !q.controls.value {
        stage := StageInput;
      } else if cfg.providesTools {
        stage, call := StageCall, ids + 3;
      }
      var run := Run(Running, false, false, false, 0, stage, q.controls.value, 1, false, ids + 1, ids + 2, call,
                     false, NoArm, 0, 0, [], [], [], false, false, 0, q.tokens);
      assert run == SubmittedRun(View(), cfg, q);
      a := Admit(run, q.delivery.AsQueue?);
    }

    method Compact(q: Compaction) returns (a: Admission)
      requires Valid()
      modifies this
      ensures Valid() && View() == CompactBook(old(View()), cfg, q) && a == CompactAnswer(old(View()), cfg, q)
    {
      hide Inv, Kept, Refreshed, AdmitBook;
      match q.delivery {
        case Auto =>
        case AsQueue =>
        case _ => return Refused(UnsupportedControl);
      }
      if q.sessionID == "" {
        return Refused(InvalidSubmission);
      }
      if closed {
        return Refused(SessionClosed);
      }
      if q.sessionID != cfg.sessionID {
        return Refused(RunNotFound);
      }
      if IsLive(active) && IsLive(reserved) {
        return Refused(RunActive);
      }
      var run := Run(Running, false, false, false, 0, StageInput, false, 1, false, ids + 1, ids + 2, 0,
                     false, NoArm, 0, 0, [], [], [], true, q.continues, q.focus, 0);
      assert run == CompactingRun(View(), q);
      a := Admit(run, q.delivery.AsQueue?);
    }

    /** A run enlisted, opened unless it waits behind another, and answered. */
    method Admit(run: Run, queue: bool) returns (a: Admission)
      requires Valid() && !closed && NewDraft(run) && !(Live(View(), active) && Live(View(), reserved))
      modifies this
      ensures Valid() && View() == AdmitBook(old(View()), run, queue)
      ensures a == Admitted(old(ids), Live(old(View()), old(active)) || queue, Live(old(View()), old(active)), old(feeds))
    {
      hide Sound, SteadyAt, AllFed, Snapshot, Tail, Opened, NewDraft;
      ghost var was := View();
      var id, feed, busy := ids, feeds, IsLive(active);
      InvSound(was);
      EnlistedFeeds(was, run, queue);
      Enlist(run, queue);
      Refresh();
      AdmitKeeps(was, run, queue);
      EnlistedQuiescent(was, run, queue);
      if !busy {
        EmitInitial(id);
      }
      AnswerRun(id);
      a := Admitted(id, busy || queue, busy, feed);
    }

    method Enlist(run: Run, queue: bool)
      modifies this`runs, this`streams, this`feeds, this`traces, this`ids, this`active, this`reserved
      ensures View() == Enlisted(old(View()), run, queue)
    {
      ghost var was := View();
      var id, busy := ids, IsLive(active);
      assert busy == Live(was, was.active);
      hide Live, IsLive;
      var waits := busy || queue;
      Register(run.(queuedAdmission := waits, status := if waits then Queued else Running, subscribers := [feeds]));
      if busy {
        reserved := Some(id);
      } else {
        active := Some(id);
      }
    }

    method Register(run: Run)
      modifies this`runs, this`streams, this`feeds, this`traces, this`ids
      ensures runs == old(runs)[old(ids) := run] && traces == old(traces)[old(ids) := []]
      ensures streams == old(streams)[old(feeds) := Stream(old(ids), 0, [], false)] && feeds == old(feeds) + 1 && ids == old(ids) + 4
    {
      runs, traces := runs[ids := run], traces[ids := []];
      streams := streams[feeds := Stream(ids, 0, [], false)];
      feeds, ids := feeds + 1, ids + 4;
    }

    method AnswerRun(id: nat)
      requires Kept() && id in runs
      modifies this
      ensures View() == Put(old(View()), id, old(View()).runs[id].(answered := true)) && Kept() && Refreshed()
    {
      hide Snapshot, Tail, AllFed;
      ghost var was := View();
      runs := runs[id := runs[id].(answered := true)];
      PutFeeds(was, View(), id);
      Refresh();
    }

    /** Guidance for a started run, kept until the run applies or drops it. */
    method SteerRun(q: Submission) returns (a: Admission)
      requires Valid() && q.delivery.AsSteer?
      modifies this
      ensures Valid() && View() == SubmitBook(old(View()), cfg, q) && a == SubmitAnswer(old(View()), cfg, q)
    {
      hide Inv, Kept, Refreshed, SteerTarget, SteeredBook;
      if q.sessionID == "" || q.messages == 0 {
        return Refused(InvalidSubmission);
      }
      if q.steerControls {
        return Refused(UnsupportedControl);
      }
      if closed {
        return Refused(SessionClosed);
      }
      if q.sessionID != cfg.sessionID {
        return Refused(RunNotFound);
      }
      ghost var was := View();
      var target := FindTarget(q.target);
      if target.Miss? {
        var sequence: Option<int> := None;
        if target.at.Some? && target.at.value in runs {
          sequence := Some(runs[target.at.value].nextSequence - 1);
        }
        return Refused(SteerRefused(target.reason, sequence));
      }
      InvSound(was);
      SteerTargets(was, q.target);
      SteerKeeps(was, target.run, q.envelope);
      a := Hold(target.run, q.envelope);
    }

    method Hold(id: nat, envelope: nat) returns (a: Admission)
      requires Kept() && id in runs && runs[id].nextSequence > 0
      modifies this
      ensures View() == SteeredBook(old(View()), id, envelope) && Kept() && Refreshed() && closed == old(closed)
      ensures a == Steered(id, old(ids), old(runs)[id].status, old(runs)[id].nextSequence - 1)
    {
      hide AllFed, Snapshot, Tail, Refreshed;
      ghost var was := View();
      var run := runs[id];
      runs := runs[id := run.(steers := run.steers + [Steer(ids, envelope)],
                              admittedSteers := run.admittedSteers + [envelope])];
      answers := answers[ids := Answer(id, run.nextSequence - 1)];
      a := Steered(id, ids, run.status, run.nextSequence - 1);
      ids := ids + 1;
      SteeredFeeds(was, View(), id);
      Refresh();
    }

    method FindTarget(target: nat) returns (t: Target)
      ensures t == SteerTarget(View(), target)
    {
      if target != 0 {
        if target !in runs {
          return Miss(UnknownTarget, None);
        }
        var run := runs[target];
        if run.terminal {
          return Miss(TargetTerminal, Some(target));
        }
        if run.status.Cancelling? {
          return Miss(NotSteerable, Some(target));
        }
        if !run.started {
          return Miss(TargetQueued, Some(target));
        }
        return Aim(target);
      }
      var slots := [active, reserved];
      for i := 0 to 2
        invariant i >= 1 ==> SlotTarget(View(), active).None?
        invariant i == 2 ==> SlotTarget(View(), reserved).None?
      {
        if IsLive(slots[i]) && runs[slots[i].value].started {
          if runs[slots[i].value].status.Cancelling? {
            return Miss(NotSteerable, slots[i]);
          }
          return Aim(slots[i].value);
        }
      }
      return Miss(NoActiveRun, None);
    }

    // ---------------------------------------------------------- permission and input

    /** Fields of a run set between two publications. */
    method SetRun(id: nat, run: Run)
      requires Kept() && Behind() && Unsettled(View(), id) && run.subscribers == runs[id].subscribers
      requires run.terminal == runs[id].terminal && run.steers == runs[id].steers
      modifies this`runs
      ensures View() == Put(old(View()), id, run) && Kept() && Behind() && Unsettled(View(), id)
    {
      hide AllFed, Tail;
      ghost var was := View();
      runs := runs[id := run];
      PutFeeds(was, View(), id);
      PutBehind(was, View(), id);
    }

    method Resolve(q: Resolution) returns (refusal: Option<Refusal>)
      requires Valid()
      modifies this
      ensures Valid() && View() == ResolveBook(old(View()), cfg, q) && refusal == ResolveRefusal(old(View()), cfg, q)
    {
      hide Inv, Kept, Refreshed, GrantedBook, DeniedBook, AnsweredBook, PermissionFits, InputFits;
      if closed {
        return Some(SessionClosed);
      }
      if q.run !in runs {
        return Some(RunNotFound);
      }
      var run := runs[q.run];
      if run.terminal {
        return Some(InteractionResolved);
      }
      if !run.started {
        return Some(InteractionNotFound);
      }
      if q.respondedBy != cfg.participant {
        return Some(WrongResponder);
      }
      ghost var was := View();
      OpenRun(was, q.run);
      match run.stage {
        case StagePermission =>
          if !PermissionFits(cfg, q, run) {
            return Some(InvalidResolution);
          }
          PermissionNamed(cfg, q, run);
          SetRun(q.run, run.(stage := StageInput));
          ResolvePermission(q.run, q.permission.value.granted);
        case StageInput =>
          if !InputFits(cfg, q, run) {
            return Some(InvalidResolution);
          }
          SetRun(q.run, run.(stage := StageTerminal));
          ResolveInput(q.run);
        case StageCall =>
          return Some(InteractionNotFound);
        case StageTerminal =>
          return Some(InteractionResolved);
      }
      ResolveKeeps(was, cfg, q);
      return None;
    }

    method ResolvePermission(id: nat, granted: bool)
      requires Kept() && Behind() && Unsettled(View(), id)
      modifies this
      ensures Kept() && Refreshed()
      ensures View() == if granted then GrantedBook(old(View()), id) else DeniedBook(old(View()), id)
    {
      hide Published, PublishedAll, SettledBook, InputAsked, AllFed, Snapshot, Tail, Passed;
      ghost var b0 := View();
      var _ := Emit(id, PermissionResolved(granted));
      PassedUnsettled(b0, View(), id);
      ghost var b1 := View();
      if !granted {
        var _ := Emit(id, CallCancelled);
        PassedUnsettled(b1, View(), id);
        PublishedTwo(b0, id, PermissionResolved(false), CallCancelled);
        var _ := Emit(id, RunFailed);
        return;
      }
      var _ := Emit(id, CallStarted);
      PassedUnsettled(b1, View(), id);
      ghost var b2 := View();
      var _ := Emit(id, CallCompleted);
      PassedUnsettled(b2, View(), id);
      PublishedThree(b0, id, PermissionResolved(true), CallStarted, CallCompleted);
      RequestInput(id);
    }

    method ResolveInput(id: nat)
      requires Kept() && Behind() && Unsettled(View(), id)
      modifies this
      ensures Kept() && Refreshed() && View() == AnsweredBook(old(View()), id)
    {
      hide Published, PublishedAll, SettledBook, InputAsked, AllFed, Snapshot, Tail, Passed;
      ghost var b0 := View();
      var _ := Emit(id, InputResolved(true));
      PassedUnsettled(b0, View(), id);
      ghost var b1 := View();
      var _ := Emit(id, ContentDelta);
      PassedUnsettled(b1, View(), id);
      PublishedTwo(b0, id, InputResolved(true), ContentDelta);
      Remember(id, history + REPLY_TOKENS);
      var _ := Emit(id, RunCompleted("end_turn"));
    }

    // ---------------------------------------------------------- provided tool calls

    /** The code asks nothing about whether the run has started, so the invariant is kept
        exactly when the call is not premature. */
    method ResolveCall(q: CallResolution) returns (a: CallAnswer)
      requires Valid()
      modifies this
      ensures View() == ResolveCallBook(old(View()), cfg, q) && a == CallAnswerOf(old(View()), cfg, q)
      ensures Valid() <==> !Premature(old(View()), cfg, q)
    {
      hide Inv, Kept, Refreshed, Published, PublishedAll, InputAsked, CallAnswerOf;
      ghost var was := View();
      ResolveCallKeeps(was, cfg, q);
      a := JudgeCall(q);
      if !a.CallAccepted? {
        return;
      }
      AcceptedCall(was, cfg, q);
      OpenRun(was, q.run);
      var run := runs[q.run];
      if q.arm.ArmAcknowledge? {
        SetRun(q.run, run.(acknowledged := true));
        PublishedOne(View(), q.run, CallStarted);
        var _ := Emit(q.run, CallStarted);
      } else {
        SetRun(q.run, run.(settledArm := q.arm, settledRequest := q.envelope, stage := StageInput));
        SettleCall(q.run, run.acknowledged, q.arm);
      }
    }

    method JudgeCall(q: CallResolution) returns (a: CallAnswer)
      ensures a == CallAnswerOf(View(), cfg, q)
    {
      if closed {
        return CallClosed;
      }
      if q.run !in runs || runs[q.run].callID == 0 || q.interaction != runs[q.run].callID || q.sessionID != cfg.sessionID {
        return CallRefused(UnknownInteraction, 0);
      }
      var run := runs[q.run];
      if q.respondedBy != cfg.participant || q.requestedBy != ENDPOINT || !q.toolCallMatches {
        return CallRefused(CallWrongResponder, 0);
      }
      if q.arm.NoArm? {
        return CallRefused(UnknownInteraction, 0);
      }
      if !run.settledArm.NoArm? {
        var settlement := run.settlementID;
        if settlement == 0 {
          settlement := run.settledRequest;
        }
        if q.arm.ArmAcknowledge? && run.settlementID == 0 {
          return CallRefused(LateAcknowledgement, 0);
        }
        return CallRefused(AlreadyResolved, settlement);
      }
      if run.terminal || !run.stage.StageCall? {
        return CallRefused(AlreadyResolved, run.settlementID);
      }
      if q.arm.ArmAcknowledge? && run.acknowledged {
        return CallRefused(RepeatedAcknowledgement, 0);
      }
      return CallAccepted;
    }

    method SettleCall(id: nat, acknowledged: bool, arm: Arm)
      requires Kept() && Behind() && Unsettled(View(), id)
      modifies this
      ensures Kept() && Refreshed()
      ensures View() == InputAsked(PublishedAll(old(View()), id, CallScript(acknowledged, arm)), id)
    {
      hide Published, PublishedAll, InputAsked, AllFed, Snapshot, Tail, Passed;
      ghost var b0 := View();
      var end := if arm.ArmError? then CallFailed else CallCompleted;
      if !acknowledged {
        var _ := Emit(id, CallStarted);
        PassedUnsettled(b0, View(), id);
      }
      ghost var b1 := View();
      var _ := Emit(id, end);
      PassedUnsettled(b1, View(), id);
      PublishedTwo(b0, id, CallStarted, end);
      PublishedOne(b0, id, end);
      RequestInput(id);
    }

    // ---------------------------------------------------------- cancel, resume, close, settings

    method Cancel(id: nat) returns (a: CancelAnswer)
      requires Valid()
      modifies this
      ensures Valid() && View() == CancelBook(old(View()), id) && a == CancelAnswerOf(old(View()), id)
    {
      hide Inv, Kept, Refreshed, Published, PublishedAll, SettledBook;
      if closed {
        return CancelRefused(SessionClosed);
      }
      if id !in runs {
        return CancelRefused(RunNotFound);
      }
      var run := runs[id];
      if run.terminal {
        return if run.status == Status.Cancelled then CancelAnswer.Cancelled(Status.Cancelled) else CancelRefused(RunTerminal(run.status));
      }
      if run.status.Cancelling? {
        return CancelAnswer.Cancelled(Cancelling);
      }
      ghost var was := View();
      CancelKeeps(was, id);
      OpenRun(was, id);
      SetRun(id, run.(status := Cancelling));
      if !run.started {
        var _ := Emit(id, RunCancelled);
      } else {
        CloseRun(id, run.stage);
      }
      return CancelAnswer.Cancelled(Cancelling);
    }

    method CloseRun(id: nat, stage: Stage)
      requires Kept() && Behind() && Unsettled(View(), id)
      modifies this
      ensures Kept() && Refreshed()
      ensures View() == SettledBook(PublishedAll(old(View()), id, [StatusUpdated(Cancelling)] + CloseGates(stage)), id, RunCancelled)
    {
      hide Published, PublishedAll, SettledBook, AllFed, Snapshot, Tail, Passed;
      ghost var b0 := View();
      var _ := Emit(id, StatusUpdated(Cancelling));
      PassedUnsettled(b0, View(), id);
      ghost var b1 := View();
      if stage.StageCall? {
        var _ := Emit(id, CallCancelled);
        PassedUnsettled(b1, View(), id);
      }
      if stage.StagePermission? {
        var _ := Emit(id, PermissionResolved(false));
        PassedUnsettled(b1, View(), id);
        ghost var b2 := View();
        var _ := Emit(id, CallCancelled);
        PassedUnsettled(b2, View(), id);
      } else if stage.StageInput? {
        var _ := Emit(id, InputResolved(false));
        PassedUnsettled(b1, View(), id);
      }
      ClosingScript(b0, id, stage);
      var _ := Emit(id, RunCancelled);
    }

    /** A replay from the journal, and the stream it goes on as. */
    method Resume(id: nat, after: nat) returns (r: Recovery)
      requires Valid()
      modifies this
      ensures Valid()
      ensures var b := old(View()); var held := OfRun(Tail(b.log, cfg.capacity), id);
        View() == ResumeBook(b, held, id, after) && r == RecoveryOf(b, held, id, after)
    {
      hide Inv, OfRun, Past, Tail, AllFed, Snapshot, Refreshed, Oldest, JoinedTo, RecoveryOf;
      var suffix;
      r, suffix := Recover(id, after);
      if r.Replayed? {
        ResumedKnown(View(), OfRun(Tail(log, cfg.capacity), id), id, after);
        InvSound(View());
        ResumeKeeps(View(), cfg.capacity, id, after);
        Attach(id, after, suffix);
      }
    }

    /** The answer to a resume, and the events it replays. */
    method Recover(id: nat, after: nat) returns (r: Recovery, suffix: seq<Event>)
      requires Valid()
      ensures var held := OfRun(Tail(log, cfg.capacity), id);
        r == RecoveryOf(View(), held, id, after) && (r.Replayed? ==> suffix == Past(held, after))
    {
      hide Inv, OfRun, Past, Tail, AllFed, Snapshot, Refreshed, Oldest;
      suffix := [];
      if closed {
        return ResumeRefused(SessionClosed), suffix;
      }
      if id !in runs {
        return ResumeRefused(RunNotFound), suffix;
      }
      var latest := runs[id].nextSequence - 1;
      if after > latest {
        return ResumeRefused(ReplayCursorFuture), suffix;
      }
      JournalNumbered(View(), cfg.capacity);
      var oldest;
      oldest, suffix := Held(id, after);
      if after < latest && (oldest == 0 || after + 1 < oldest) {
        return Gap(oldest, latest), suffix;
      }
      r := if suffix == [] then Replayed(after, after) else Replayed(suffix[0].sequence, suffix[|suffix| - 1].sequence);
    }

    method Attach(id: nat, after: nat, suffix: seq<Event>)
      requires Sound(View()) && Kept() && Refreshed() && id in runs
      modifies this`streams, this`runs, this`feeds
      ensures View() == JoinedTo(old(View()), id, after, suffix) && Kept() && Refreshed()
    {
      hide Sound, Tail, AllFed, Snapshot, Joined;
      JoinedFeeds(View(), id, after, suffix);
      JoinedSnapshot(active, reserved, runs, settledRuns, id, feeds);
      Join(id, after, suffix);
    }

    method Join(id: nat, after: nat, suffix: seq<Event>)
      requires id in runs
      modifies this`streams, this`runs, this`feeds
      ensures streams == old(streams)[old(feeds) := Stream(id, after, suffix, old(runs)[id].terminal)]
      ensures runs == old(runs)[id := Joined(old(runs)[id], old(feeds))] && feeds == old(feeds) + 1
    {
      var run := runs[id];
      streams := streams[feeds := Stream(id, after, suffix, run.terminal)];
      if !run.terminal {
        run := run.(subscribers := run.subscribers + [feeds]);
      }
      runs := runs[id := run];
      feeds := feeds + 1;
    }

    /** What the journal still holds of a run: its oldest sequence, and its events past a cursor. */
    method Held(id: nat, after: nat) returns (oldest: nat, suffix: seq<Event>)
      requires forall e | e in journal :: e.sequence > 0
      ensures oldest == Oldest(OfRun(journal, id)) && suffix == Past(OfRun(journal, id), after)
    {
      oldest, suffix := 0, [];
      for i := 0 to |journal|
        invariant oldest == Oldest(OfRun(journal[..i], id)) && suffix == Past(OfRun(journal[..i], id), after)
        invariant oldest == 0 <==> OfRun(journal[..i], id) == []
      {
        var e := journal[i];
        assert e in journal;
        assert journal[..i + 1] == journal[..i] + [e];
        SnocLog(journal[..i], e, id);
        if e.run == id {
          PastSnoc(OfRun(journal[..i], id), e, after);
          if oldest == 0 {
            oldest := e.sequence;
          }
          if e.sequence > after {
            suffix := suffix + [e];
          }
        }
      }
      assert journal[..|journal|] == journal;
    }

    /** Closing is refused while a run has not settled; otherwise every stream left is closed. */
    method Close() returns (refused: bool)
      requires Valid()
      modifies this
      ensures Valid() && View() == CloseBook(old(View())) && refused == CloseRefused(old(View()))
      ensures !refused && !old(closed) ==> state == old(state).(status := SessionEnded, activeRun := 0)
    {
      hide Inv, OfRun, Past, Tail, AllFed, Snapshot;
      if closed {
        return false;
      }
      if IsLive(active) || IsLive(reserved) {
        return true;
      }
      ghost var was := View();
      CloseKeeps(was);
      closed := true;
      state := state.(status := SessionEnded, activeRun := 0);
      EndStreams();
      NoneLeft(was.runs, runs, was.streams, streams);
      refused := false;
    }

    /** Every run loses its streams, and every such stream is closed. */
    method EndStreams()
      modifies this`runs, this`streams
      ensures runs.Keys == old(runs).Keys && forall id | id in runs :: runs[id] == old(runs)[id].(subscribers := [])
      ensures streams.Keys == old(streams).Keys
      ensures forall k | k in streams ::
        streams[k] == if Subscribed(old(runs), k) then old(streams)[k].(ended := true) else old(streams)[k]
    {
      hide Subscribed;
      ghost var before := runs;
      var subscribers := Unsubscribe();
      for i := 0 to |subscribers|
        invariant runs.Keys == before.Keys && forall id | id in runs :: runs[id] == before[id].(subscribers := [])
        invariant streams.Keys == old(streams).Keys
        invariant forall k | k in streams ::
          streams[k] == if k in subscribers[..i] then old(streams)[k].(ended := true) else old(streams)[k]
      {
        if subscribers[i] in streams {
          streams := streams[subscribers[i] := streams[subscribers[i]].(ended := true)];
        }
        assert subscribers[..i + 1] == subscribers[..i] + [subscribers[i]];
      }
      assert subscribers[..|subscribers|] == subscribers;
    }

    method Unsubscribe() returns (subscribers: seq<nat>)
      modifies this`runs
      ensures runs.Keys == old(runs).Keys && forall id | id in runs :: runs[id] == old(runs)[id].(subscribers := [])
      ensures forall k :: k in subscribers <==> Subscribed(old(runs), k)
    {
      subscribers := AttachedTo(runs);
      runs := map id | id in runs :: runs[id].(subscribers := []);
    }

    method UpdateSettings(sessionID: string, policy: Option<Policy>) returns (refusal: Option<Refusal>)
      requires Valid()
      modifies this`threshold
      ensures Valid() && View() == SettingsBook(old(View()), cfg, sessionID, policy)
      ensures refusal == SettingsRefusal(old(View()), cfg, sessionID, policy)
    {
      hide Inv, Tail, AllFed, Snapshot;
      SettingsKeep(View(), cfg, sessionID, policy);
      var t := ThresholdOf(policy);
      if t.None? {
        return Some(UnsupportedControl);
      }
      if closed {
        return Some(SessionClosed);
      }
      if sessionID != cfg.sessionID {
        return Some(InvalidSubmission);
      }
      threshold := t.value;
      return None;
    }
  }

  ghost predicate Subscribed(runs: map<nat, Run>, k: nat) {
    exists id :: id in runs && k in runs[id].subscribers
  }

  ghost predicate SubscribedIn(runs: map<nat, Run>, done: set<nat>, k: nat) {
    exists id :: id in done && id in runs && k in runs[id].subscribers
  }

  /** The streams of every run, taken in any order. */
  method AttachedTo(runs: map<nat, Run>) returns (subscribers: seq<nat>)
    ensures forall k :: k in subscribers <==> Subscribed(runs, k)
  {
    hide SubscribedIn, Subscribed;
    subscribers := [];
    var todo := runs.Keys;
    ghost var done: set<nat> := {};
    NoneSubscribed(runs);
    while todo != {}
      invariant todo + done == runs.Keys
      invariant forall k :: k in subscribers <==> SubscribedIn(runs, done, k)
      decreases |todo|
    {
      var id :| id in todo;
      MoreSubscribed(runs, done, id);
      subscribers := subscribers + runs[id].subscribers;
      todo, done := todo - {id}, done + {id};
    }
    AllSubscribed(runs);
    assert done == runs.Keys;
  }

  lemma {:induction false} NoneSubscribed(runs: map<nat, Run>)
    ensures forall k :: !SubscribedIn(runs, {}, k)
  {
  }

  lemma {:induction false} MoreSubscribed(runs: map<nat, Run>, done: set<nat>, id: nat)
    requires id in runs
    ensures forall k :: SubscribedIn(runs, done + {id}, k) <==> SubscribedIn(runs, done, k) || k in runs[id].subscribers
  {
  }

  lemma {:induction false} AllSubscribed(runs: map<nat, Run>)
    ensures forall k :: SubscribedIn(runs, runs.Keys, k) <==> Subscribed(runs, k)
  {
  }

  lemma {:induction false} NoneLeft(runs: map<nat, Run>, runs': map<nat, Run>, streams: map<nat, Stream>, streams': map<nat, Stream>)
    requires forall id | id in runs :: runs[id].subscribers == []
    requires runs'.Keys == runs.Keys && forall id | id in runs' :: runs'[id] == runs[id].(subscribers := [])
    requires streams'.Keys == streams.Keys
    requires forall k | k in streams' :: streams'[k] == if Subscribed(runs, k) then streams[k].(ended := true) else streams[k]
    ensures runs' == runs && streams' == streams
  {
    assert forall id | id in runs' :: runs'[id] == runs[id];
  }

  lemma {:induction false} PastSnoc(events: seq<Event>, e: Event, after: nat)
    ensures Past(events + [e], after) == if e.sequence > after then Past(events, after) + [e] else Past(events, after)
  {
    assert (events + [e])[..|events|] == events;
  }

  lemma {:induction false} JournalNumbered(b: Book, capacity: nat)
    requires Inv(b)
    ensures forall e | e in Tail(b.log, capacity) :: e.sequence > 0
  {
    hide StreamsSound, SteersSound, SlotsSound, OrderSound, SteadyAt, Agrees;
    forall e | e in Tail(b.log, capacity)
      ensures e.sequence > 0
    {
      MemberOfRun(b.log, e);
      KnownRun(b, e.run);
    }
  }

  lemma {:induction false} JoinedFeeds(b: Book, id: nat, after: nat, suffix: seq<Event>)
    requires Sound(b) && AllFed(b.runs, b.streams) && id in b.runs
    ensures AllFed(b.runs[id := Joined(b.runs[id], b.feeds)],
                   b.streams[b.feeds := Stream(id, after, suffix, b.runs[id].terminal)])
  {
    hide RunsSound, LogSound, StreamsSound, SteersSound, SlotsSound, OrderSound;
    var runs' := b.runs[id := Joined(b.runs[id], b.feeds)];
    var streams' := b.streams[b.feeds := Stream(id, after, suffix, b.runs[id].terminal)];
    forall o | o in runs'
      ensures Fed(o, runs'[o], streams')
    {
      assert Fed(o, b.runs[o], b.streams);
      assert b.feeds !in b.runs[o].subscribers;
    }
  }

  lemma {:induction false} JoinedSnapshot(
    active: Option<nat>, reserved: Option<nat>, runs: map<nat, Run>, settled: seq<SettledRun>, id: nat, key: nat)
    requires id in runs
    ensures Snapshot(active, reserved, runs[id := Joined(runs[id], key)], settled) == Snapshot(active, reserved, runs, settled)
  {
    hide Listed, ReservationOf, EntriesOf, Joined;
    JoinedListed(active, runs, id, key);
    JoinedListed(reserved, runs, id, key);
    ListedKnown(active, runs);
    ListedKnown(reserved, runs);
    JoinedFields(runs[id], key);
    var slots := (if Listed(active, runs) then [active.value] else []) + (if Listed(reserved, runs) then [reserved.value] else []);
    JoinedEntries(slots, runs, id, key, 0);
  }

  lemma {:induction false} JoinedListed(slot: Option<nat>, runs: map<nat, Run>, id: nat, key: nat)
    requires id in runs
    ensures Listed(slot, runs[id := Joined(runs[id], key)]) == Listed(slot, runs)
  {
  }

  lemma {:induction false} JoinedFields(run: Run, key: nat)
    ensures var run' := Joined(run, key);
      ReservationOf(run') == ReservationOf(run) && run'.status == run.status && run'.pending == run.pending
  {
  }

  lemma {:induction false} ListedKnown(slot: Option<nat>, runs: map<nat, Run>)
    ensures Listed(slot, runs) ==> slot.Some? && slot.value in runs
  {
  }

  lemma {:induction false} JoinedEntries(slots: seq<nat>, runs: map<nat, Run>, id: nat, key: nat, position: nat)
    requires id in runs && forall o | o in slots :: o in runs
    ensures EntriesOf(slots, runs[id := Joined(runs[id], key)], position) == EntriesOf(slots, runs, position)
  {
    hide EntryOf, ReservationOf, Joined;
    if slots != [] {
      assert slots[0] in slots;
      JoinedEntry(slots[0], runs[slots[0]], key);
      JoinedEntries(slots[1..], runs, id, key, if ReservationOf(runs[slots[0]]) then position + 1 else position);
    }
  }

  lemma {:induction false} JoinedEntry(id: nat, run: Run, key: nat)
    ensures ReservationOf(Joined(run, key)) == ReservationOf(run)
    ensures forall position: nat :: EntryOf(id, Joined(run, key), position) == EntryOf(id, run, position)
  {
  }

  lemma {:induction false} OpenRun(b: Book, id: nat)
    requires Inv(b) && id in b.runs && !b.runs[id].terminal
    ensures Unsettled(b, id) && (b.reserved.Some? ==> Quiescent(b, b.reserved.value))
  {
    hide Sound, Poised, FocusOf;
    KnownRun(b, id);
    SlotsOf(b);
    if b.reserved.Some? {
      KnownRun(b, b.reserved.value);
      assert SteadyAt(b, b.reserved.value);
    }
  }

  lemma {:induction false} AcceptedCall(b: Book, cfg: Config, q: CallResolution)
    requires CallAnswerOf(b, cfg, q).CallAccepted?
    ensures q.run in b.runs && !b.runs[q.run].terminal && !b.closed
  {
  }

  lemma {:induction false} PermissionNamed(cfg: Config, q: Resolution, run: Run)
    requires PermissionFits(cfg, q, run)
    ensures q.permission.Some?
  {
  }

  lemma {:induction false} PublishedThree(b: Book, id: nat, x: Kind, y: Kind, z: Kind)
    requires id in b.runs && id in b.traces
    ensures PublishedAll(b, id, [x, y, z]) == Published(Published(Published(b, id, x), id, y), id, z)
  {
    hide Published, PublishedAll;
    Appended(x, y, z);
    PublishedTwo(b, id, x, y);
    PublishedSnoc(b, id, [x, y], z);
  }

  lemma {:induction false} Appended(x: Kind, y: Kind, z: Kind)
    ensures [x] + [y] == [x, y] && [x, y] + [z] == [x, y, z]
  {
  }

  lemma {:induction false} ClosingScript(b: Book, id: nat, stage: Stage)
    requires id in b.runs && id in b.traces
    ensures var b1 := Published(b, id, StatusUpdated(Cancelling));
      PublishedAll(b, id, [StatusUpdated(Cancelling)] + CloseGates(stage)) ==
        match stage
        case StageCall => Published(b1, id, CallCancelled)
        case StagePermission => Published(Published(b1, id, PermissionResolved(false)), id, CallCancelled)
        case StageInput => Published(b1, id, InputResolved(false))
        case StageTerminal => b1
  {
    hide Published, PublishedAll;
    var s := StatusUpdated(Cancelling);
    match stage
    case StageCall =>
      assert [s] + [CallCancelled] == [s, CallCancelled];
      PublishedTwo(b, id, s, CallCancelled);
    case StagePermission =>
      assert [s] + [PermissionResolved(false), CallCancelled] == [s, PermissionResolved(false), CallCancelled];
      PublishedThree(b, id, s, PermissionResolved(false), CallCancelled);
    case StageInput =>
      assert [s] + [InputResolved(false)] == [s, InputResolved(false)];
      PublishedTwo(b, id, s, InputResolved(false));
    case StageTerminal =>
      assert [s] + [] == [s];
      PublishedOne(b, id, s);
  }

  function SubmitAnswer(b: Book, cfg: Config, q: Submission): Admission {
    if q.delivery.AsSteer? then
      match SteerRefusal(b, cfg, q)
      case Some(r) => Refused(r)
      case None =>
        var id := SteerTarget(b, q.target).run;
        if id in b.runs then Steered(id, b.ids, b.runs[id].status, b.runs[id].nextSequence - 1) else Refused(RunNotFound)
    else
      match SubmitRefusal(b, cfg, q)
      case Some(r) => Refused(r)
      case None => Admitted(b.ids, Live(b, b.active) || q.delivery.AsQueue?, Live(b, b.active), b.feeds)
  }

  function CompactAnswer(b: Book, cfg: Config, q: Compaction): Admission {
    match CompactRefusal(b, cfg, q)
    case Some(r) => Refused(r)
    case None => Admitted(b.ids, Live(b, b.active) || q.delivery.AsQueue?, Live(b, b.active), b.feeds)
  }

  lemma {:induction false} InvSound(b: Book)
    requires Inv(b)
    ensures Sound(b)
  {
    hide Sound, SteadyAt;
  }

  lemma {:induction false} EnlistedQuiescent(b: Book, run: Run, queue: bool)
    requires Inv(b) && NewDraft(run) && !(Live(b, b.active) && Live(b, b.reserved))
    ensures var b1 := Enlisted(b, run, queue);
      && Quiescent(b1, b.ids) && (!Live(b, b.active) ==> b1.reserved.None?)
  {
    hide Sound, SteadyAt;
    SlotsOf(b);
  }

  lemma {:induction false} EnlistedFeeds(b: Book, run: Run, queue: bool)
    requires Sound(b) && AllFed(b.runs, b.streams) && NewDraft(run)
    ensures var b1 := Enlisted(b, run, queue); AllFed(b1.runs, b1.streams)
  {
    hide RunsSound, LogSound, StreamsSound, SteersSound, SlotsSound, OrderSound, Draft;
    var b1 := Enlisted(b, run, queue);
    assert Fed(b.ids, b1.runs[b.ids], b1.streams);
    forall o | o in b.runs
      ensures Fed(o, b1.runs[o], b1.streams) || o == b.ids
    {
      assert Fed(o, b.runs[o], b.streams);
    }
  }

  lemma {:induction false} SteeredFeeds(b: Book, b': Book, id: nat)
    requires AllFed(b.runs, b.streams) && id in b.runs && id in b'.runs && b'.runs == b.runs[id := b'.runs[id]]
    requires b'.runs[id].subscribers == b.runs[id].subscribers && b'.streams == b.streams
    ensures AllFed(b'.runs, b'.streams)
  {
    assert forall o | o in b.runs :: Fed(o, b.runs[o], b.streams);
  }

  ghost predicate Unsettled(b: Book, id: nat) {
    id in b.runs && id in b.traces && !b.runs[id].terminal
  }

  ghost predicate Quiescent(b: Book, id: nat) {
    Unsettled(b, id) && b.runs[id].steers == []
  }

  /** A run moved on without settling; the other runs and the slots stayed as they were. */
  ghost predicate Passed(b: Book, b': Book, id: nat) {
    && Unsettled(b, id) && id in b'.runs && b'.runs == b.runs[id := b'.runs[id]] && b'.traces.Keys == b.traces.Keys
    && b'.active == b.active && b'.reserved == b.reserved && b'.closed == b.closed && b'.threshold == b.threshold
    && b'.runs[id] == b.runs[id].(nextSequence := b'.runs[id].nextSequence, pending := b'.runs[id].pending,
                                  settlementID := b'.runs[id].settlementID, steers := b'.runs[id].steers)
    && (b.runs[id].steers == [] ==> b'.runs[id].steers == [])
  }

  lemma {:induction false} PassedNone(b: Book, id: nat)
    requires Unsettled(b, id)
    ensures Passed(b, b, id)
  {
  }

  lemma {:induction false} PassedThen(b: Book, m: Book, b': Book, id: nat)
    requires Passed(b, m, id) && Passed(m, b', id)
    ensures Passed(b, b', id)
  {
  }

  /** The fields of a run an operation reads after events have gone out. */
  ghost predicate Static(r: Run, r': Run) {
    && r'.callsTool == r.callsTool && r'.callID == r.callID && r'.compaction == r.compaction
    && r'.compactContinue == r.compactContinue && r'.focus == r.focus && r'.input == r.input
  }

  lemma {:induction false} PassedUnsettled(b: Book, b': Book, id: nat)
    requires Passed(b, b', id)
    ensures Unsettled(b', id) && (Quiescent(b, id) ==> Quiescent(b', id))
    ensures b'.reserved == b.reserved && Static(b.runs[id], b'.runs[id])
    ensures b.runs.Keys == b'.runs.Keys
  {
  }

  lemma {:induction false} PutBehind(b: Book, b': Book, id: nat)
    requires id in b.runs && id in b'.runs && b' == b.(runs := b.runs[id := b'.runs[id]])
    requires b'.runs[id].terminal == b.runs[id].terminal && b'.runs[id].steers == b.runs[id].steers
    ensures forall o :: Unsettled(b, o) <==> Unsettled(b', o)
    ensures forall o :: Quiescent(b, o) <==> Quiescent(b', o)
  {
  }

  lemma {:induction false} Passing(b: Book, id: nat, k: Kind)
    requires Unsettled(b, id) && !Terminal(k)
    ensures Passed(b, Published(b, id, k), id)
  {
    hide Delivered, SettledAfter, PendingAfter, SettlementAfter;
  }

  lemma {:induction false} Promotion(b: Book, id: nat, k: Kind)
    requires Unsettled(b, id) && Terminal(k) && (b.reserved.Some? ==> Quiescent(b, b.reserved.value))
    ensures var p := Promoted(b, id, k);
      p.Some? ==> b.reserved.Some? && Published(b, id, k).reserved.None? && Quiescent(Published(b, id, k), p.value)
  {
    hide Delivered, SettledAfter, RunAfter;
  }

  lemma {:induction false} PutFeeds(b: Book, b': Book, id: nat)
    requires AllFed(b.runs, b.streams) && id in b.runs && id in b'.runs && b' == b.(runs := b.runs[id := b'.runs[id]])
    requires b'.runs[id].subscribers == b.runs[id].subscribers
    ensures AllFed(b'.runs, b'.streams)
  {
    assert forall o | o in b.runs :: Fed(o, b.runs[o], b.streams);
  }

  lemma {:induction false} PublishedSnoc(b: Book, id: nat, ks: seq<Kind>, k: Kind)
    requires id in b.runs && id in b.traces
    ensures PublishedAll(b, id, ks + [k]) == Published(PublishedAll(b, id, ks), id, k)
  {
    hide Published;
    assert (ks + [k])[..|ks|] == ks;
  }

  lemma {:induction false} PublishedOne(b: Book, id: nat, x: Kind)
    requires id in b.runs && id in b.traces
    ensures PublishedAll(b, id, []) == b && PublishedAll(b, id, [x]) == Published(b, id, x)
  {
    hide Published;
    PublishedSnoc(b, id, [], x);
    assert [] + [x] == [x];
  }

  lemma {:induction false} PublishedTwo(b: Book, id: nat, x: Kind, y: Kind)
    requires id in b.runs && id in b.traces
    ensures PublishedAll(b, id, [x, y]) == Published(Published(b, id, x), id, y)
  {
    hide Published, PublishedAll;
    PublishedOne(b, id, x);
    PublishedSnoc(b, id, [x], y);
    Appended(x, y, y);
  }

  /** Settling a run that holds no steer and has no run behind it is one publication. */
  lemma {:induction false} SettledAlone(b: Book, id: nat, k: Kind)
    requires Quiescent(b, id) && b.reserved.None?
    ensures SettledBook(b, id, k) == Published(b, id, k)
  {
    hide Published;
  }

  /** A publication that has reached no stream yet. */
  function Unsent(b: Book, id: nat, k: Kind): Book
    requires id in b.runs && id in b.traces
  {
    Published(b, id, k).(streams := b.streams)
  }

  lemma {:induction false} UnsentRuns(b: Book, id: nat, k: Kind)
    requires id in b.runs && id in b.traces
    ensures var b' := Unsent(b, id, k);
      && b'.runs == b.runs[id := RunAfter(b.runs[id], k, EventOf(b, id, k).id)] && b'.streams == b.streams
      && b'.traces.Keys == b.traces.Keys
  {
    hide RunAfter, SlotsAfter, Delivered, SettledAfter;
  }

  lemma {:induction false} UnsentSent(b: Book, id: nat, k: Kind)
    requires id in b.runs && id in b.traces
    ensures Unsent(b, id, k).(streams := Delivered(b.streams, b.runs[id].subscribers, EventOf(b, id, k))) == Published(b, id, k)
  {
    hide Delivered;
  }

  lemma {:induction false} Assembled(b: Book, b': Book, id: nat, k: Kind)
    requires id in b.runs && id in b.traces
    requires var e := EventOf(b, id, k);
      && b'.runs == b.runs[id := RunAfter(b.runs[id], k, e.id)]
      && (b'.active, b'.reserved) == SlotsAfter(b.active, b.reserved, id, k)
      && b'.settledRuns == (if Terminal(k) then b.settledRuns + [SettledRun(id, e.sequence)] else b.settledRuns)
      && b'.streams == b.streams
      && b'.feeds == b.feeds && b'.ids == b.ids + 1 && b'.log == b.log + [e] && b'.traces == b.traces[id := b.traces[id] + [e]]
      && b'.settled == SettledAfter(b.settled, e)
      && b'.closed == b.closed && b'.threshold == b.threshold && b'.history == b.history && b'.answers == b.answers
    ensures b' == Unsent(b, id, k)
  {
    hide RunAfter, SlotsAfter, Delivered, SettledAfter;
  }

  lemma {:induction false} FedStreams(id: nat, runs: map<nat, Run>, streams: map<nat, Stream>)
    requires AllFed(runs, streams) && id in runs
    ensures var subscribers := runs[id].subscribers;
      Unique(subscribers) && forall k | k in subscribers :: k in streams && !streams[k].ended
  {
    assert Fed(id, runs[id], streams);
  }

  lemma {:induction false} DeliveredFeeds(runs: map<nat, Run>, streams: map<nat, Stream>, id: nat, e: Event)
    requires id in runs && AllFed(runs, streams)
    ensures AllFed(runs[id := RunAfter(runs[id], e.kind, e.id)], Delivered(streams, runs[id].subscribers, e))
  {
    assert forall o | o in runs :: Fed(o, runs[o], streams);
  }
}
